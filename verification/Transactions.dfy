/** The transaction wrapper that counts its own nesting, and the migrations that run under it. */
module Transactions {
  import opened Common

  /** The database is the log of the writes in effect; a migration's own record is one of them. */
  datatype Entry = Row(v: nat) | Applied(name: nat)

  /** A synchronous body: writes, throws, catches, and calls of other wrapped bodies. */
  datatype Prog =
    | Skip
    | Seq(first: Prog, rest: Prog)
    | Write(e: Entry)
    | Fail
    | Try(body: Prog, handler: Prog)
    | Tx(inner: Prog, commitFails: bool)    // commitFails: what COMMIT answers, should this call issue it

  datatype Cmd = Began | Committed | CommitThrew | RolledBack

  /** `saved` is the database as of BEGIN while the handle is in a transaction. */
  datatype Handle = Handle(depth: int, live: seq<Entry>, saved: Option<seq<Entry>>, trace: seq<Cmd>)

  datatype Outcome = Outcome(h: Handle, threw: bool)

  function RollBack(h: Handle): Handle {
    if h.saved.Some? then h.(live := h.saved.value, saved := None, trace := h.trace + [RolledBack]) else h
  }

  function Exec(p: Prog, h: Handle): Outcome
    decreases p
  {
    match p
    case Skip => Outcome(h, false)
    case Fail => Outcome(h, true)
    case Write(e) => Outcome(h.(live := h.live + [e]), false)
    case Seq(first, rest) =>
      var r := Exec(first, h);
      if r.threw then r else Exec(rest, r.h)
    case Try(body, handler) =>
      var r := Exec(body, h);
      if r.threw then Exec(handler, r.h) else r
    case Tx(inner, commitFails) =>
      if h.depth != 0 then
        var r := Exec(inner, h.(depth := h.depth + 1));
        r.(h := r.h.(depth := r.h.depth - 1))
      else if h.saved.Some? then Outcome(h, true)
      else
        var r := Exec(inner, h.(depth := 1, saved := Some(h.live), trace := h.trace + [Began]));
        var left := r.h.(depth := r.h.depth - 1);
        if r.threw then Outcome(RollBack(left), true)
        else if commitFails || left.saved.None? then
          Outcome(RollBack(left.(depth := left.depth - 1, trace := left.trace + [CommitThrew])), true)
        else Outcome(left.(saved := None, trace := left.trace + [Committed]), false)
  }

  // ---------------------------------------------------------------------------
  // Migrations
  // ---------------------------------------------------------------------------

  /** A file of statements; file names are distinct and listed in one order. */
  datatype Migration = Migration(name: nat, rows: seq<nat>)

  predicate Distinct(ms: seq<Migration>) {
    forall i, j :: 0 <= i < j < |ms| ==> ms[i].name != ms[j].name
  }

  function Done(db: seq<Entry>): set<nat> {
    set e | e in db && e.Applied? :: e.name
  }

  /** Where an attempt breaks off: inside the statements of one migration, or at its COMMIT. */
  datatype Break = Nowhere | Statement(index: nat, at: nat) | AtCommit(index: nat)

  function Rows(rows: seq<nat>): seq<Entry> {
    seq(|rows|, i requires 0 <= i < |rows| => Row(rows[i]))
  }

  /** The migration an attempt stops at, if it gets that far and has it to run. */
  function Stop(done: set<nat>, ms: seq<Migration>, b: Break): Option<nat> {
    match b
    case Nowhere => None
    case Statement(i, at) => if i < |ms| && ms[i].name !in done && at <= |ms[i].rows| then Some(i) else None
    case AtCommit(i) => if i < |ms| && ms[i].name !in done then Some(i) else None
  }

  /** The statements from i on, or up to the one that throws. */
  function Script(m: Migration, i: nat, stop: Option<nat>): Prog
    requires i <= |m.rows|
    decreases |m.rows| - i
  {
    if stop == Some(i) then Fail
    else if i == |m.rows| then Write(Applied(m.name))
    else Seq(Write(Row(m.rows[i])), Script(m, i + 1, stop))
  }

  /** What an unbroken pass over the files leaves, given what was done when it began. */
  function Migrated(db: seq<Entry>, done: set<nat>, ms: seq<Migration>): seq<Entry> {
    if ms == [] then db
    else
      var m := ms[|ms| - 1];
      var d := Migrated(db, done, ms[..|ms| - 1]);
      if m.name in done then d else d + Rows(m.rows) + [Applied(m.name)]
  }

  /** The files an unbroken pass applies, in order. */
  function Pending(done: set<nat>, ms: seq<Migration>): seq<nat> {
    if ms == [] then []
    else
      var m := ms[|ms| - 1];
      var before := Pending(done, ms[..|ms| - 1]);
      if m.name in done then before else before + [m.name]
  }

  /** What an attempt leaves in the file. */
  function Attempted(db: seq<Entry>, ms: seq<Migration>, b: Break): seq<Entry> {
    match Stop(Done(db), ms, b)
    case None => Migrated(db, Done(db), ms)
    case Some(i) => Migrated(db, Done(db), ms[..i])
  }

  class Database {
    var depth: int
    var live: seq<Entry>
    var saved: Option<seq<Entry>>
    var trace: seq<Cmd>

    function State(): Handle
      reads this
    {
      Handle(depth, live, saved, trace)
    }

    /** Opening a file: nothing is nested, and an unfinished transaction was undone by the journal. */
    constructor (live: seq<Entry>)
      ensures State() == Handle(0, live, None, [])
    {
      depth, this.live, saved, trace := 0, live, None, [];
    }

    method Begin() returns (threw: bool)
      modifies this
      ensures threw == old(saved).Some?
      ensures State() == if threw then old(State()) else old(State()).(saved := Some(old(live)), trace := old(trace) + [Began])
    {
      if saved.Some? {
        return true;
      }
      saved, trace := Some(live), trace + [Began];
      return false;
    }

    method Commit(fails: bool) returns (threw: bool)
      modifies this
      ensures threw == (fails || old(saved).None?)
      ensures State() == if threw then old(State()).(trace := old(trace) + [CommitThrew])
                         else old(State()).(saved := None, trace := old(trace) + [Committed])
    {
      if fails || saved.None? {
        trace := trace + [CommitThrew];
        return true;
      }
      saved, trace := None, trace + [Committed];
      return false;
    }

    method Rollback()
      modifies this
      ensures State() == RollBack(old(State()))
    {
      if saved.Some? {
        live, saved, trace := saved.value, None, trace + [RolledBack];
      }
    }

    /** Run a wrapped body: only the outermost call issues BEGIN and COMMIT, and any throw is passed on. */
    method Transaction(fn: Prog, commitFails: bool) returns (threw: bool)
      modifies this
      ensures Outcome(State(), threw) == Exec(Tx(fn, commitFails), old(State()))
      decreases fn, 1
    {
      var outermost := depth == 0;
      if outermost {
        threw := Begin();
        if threw {
          return;
        }
      }
      depth := depth + 1;
      threw := Execute(fn);
      if !threw {
        depth := depth - 1;
        if outermost {
          threw := Commit(commitFails);
        }
        if !threw {
          return false;
        }
      }
      depth := depth - 1;
      if outermost {
        Rollback();
      }
      return true;
    }

    method Execute(p: Prog) returns (threw: bool)
      modifies this
      ensures Outcome(State(), threw) == Exec(p, old(State()))
      decreases p, 0
    {
      match p {
        case Skip => threw := false;
        case Fail => threw := true;
        case Write(e) =>
          live, threw := live + [e], false;
        case Seq(first, rest) =>
          threw := Execute(first);
          if !threw {
            threw := Execute(rest);
          }
        case Try(body, handler) =>
          threw := Execute(body);
          if threw {
            threw := Execute(handler);
          }
        case Tx(inner, commitFails) =>
          threw := Transaction(inner, commitFails);
      }
    }

    /**
     * Apply what has not run yet, each file in its own transaction. A file that throws leaves nothing of itself,
     * and stops the pass. `b` is where this attempt is made to break.
     */
    method Migrate(ms: seq<Migration>, b: Break) returns (r: Result<seq<nat>>)
      requires Idle(State())
      modifies this
      ensures r.Err? <==> Stop(Done(old(live)), ms, b).Some?
      ensures live == Attempted(old(live), ms, b) && saved == None
      ensures depth == if b.AtCommit? && r.Err? then -1 else 0
      ensures r.Ok? ==> r.value == Pending(Done(old(live)), ms)
      ensures r.Ok? ==> forall n :: n in r.value <==> n in Done(live) && n !in Done(old(live))
    {
      hide Exec, Done;
      ghost var before := live;
      var done := Done(live);
      var applied: seq<nat> := [];
      for i := 0 to |ms|
        invariant Idle(State()) && live == Migrated(before, done, ms[..i]) && applied == Pending(done, ms[..i])
        invariant Stop(done, ms, b).Some? ==> i <= Stop(done, ms, b).value
      {
        assert ms[..i + 1][..i] == ms[..i];
        if ms[i].name !in done {
          var stop := if b.Statement? && b.index == i then Some(b.at) else None;
          ghost var start := State();
          var threw := Transaction(Script(ms[i], 0, stop), b == AtCommit(i));
          ScriptRuns(ms[i], start, stop, b == AtCommit(i));
          if threw {
            assert ms[..i] == ms[..i + 1][..i];
            return Err(Invalid);
          }
          applied := applied + [ms[i].name];
        }
      }
      assert ms[..|ms|] == ms;
      PendingIsNew(before, ms);
      return Ok(applied);
    }
  }

  // ---------------------------------------------------------------------------
  // One atomic level
  // ---------------------------------------------------------------------------

  datatype Effect = Effect(db: seq<Entry>, threw: bool)

  /** A body inside a transaction: inner calls add nothing of their own. */
  function Flat(p: Prog, db: seq<Entry>): Effect {
    match p
    case Skip => Effect(db, false)
    case Fail => Effect(db, true)
    case Write(e) => Effect(db + [e], false)
    case Seq(first, rest) =>
      var r := Flat(first, db);
      if r.threw then r else Flat(rest, r.db)
    case Try(body, handler) =>
      var r := Flat(body, db);
      if r.threw then Flat(handler, r.db) else r
    case Tx(inner, _) => Flat(inner, db)
  }

  /** A body outside: every call it makes happens whole or not at all. */
  function Atomic(p: Prog, db: seq<Entry>): Effect {
    match p
    case Seq(first, rest) =>
      var r := Atomic(first, db);
      if r.threw then r else Atomic(rest, r.db)
    case Try(body, handler) =>
      var r := Atomic(body, db);
      if r.threw then Atomic(handler, r.db) else r
    case Tx(inner, commitFails) =>
      var r := Flat(inner, db);
      if r.threw || commitFails then Effect(db, true) else r
    case _ => Flat(p, db)
  }

  /** The commands of those calls, one pair each. */
  function Cmds(p: Prog, db: seq<Entry>): seq<Cmd> {
    match p
    case Seq(first, rest) =>
      Cmds(first, db) + if Atomic(first, db).threw then [] else Cmds(rest, Atomic(first, db).db)
    case Try(body, handler) =>
      Cmds(body, db) + if Atomic(body, db).threw then Cmds(handler, Atomic(body, db).db) else []
    case Tx(inner, _) => [Began, if Flat(inner, db).threw then RolledBack else Committed]
    case _ => []
  }

  /** No COMMIT this body may issue from outside a transaction throws. */
  predicate CommitsHold(p: Prog) {
    match p
    case Seq(first, rest) => CommitsHold(first) && CommitsHold(rest)
    case Try(body, handler) => CommitsHold(body) && CommitsHold(handler)
    case Tx(_, commitFails) => !commitFails
    case _ => true
  }

  predicate IsFlat(p: Prog, h: Handle) {
    Exec(p, h) == Outcome(h.(live := Flat(p, h.live).db), Flat(p, h.live).threw)
  }

  lemma SeqIsFlat(first: Prog, rest: Prog, h: Handle)
    requires IsFlat(first, h) && IsFlat(rest, Exec(first, h).h)
    ensures IsFlat(Seq(first, rest), h)
  {
  }

  lemma TryIsFlat(body: Prog, handler: Prog, h: Handle)
    requires IsFlat(body, h) && IsFlat(handler, Exec(body, h).h)
    ensures IsFlat(Try(body, handler), h)
  {
  }

  lemma TxIsFlat(inner: Prog, commitFails: bool, h: Handle)
    requires h.depth >= 1 && IsFlat(inner, h.(depth := h.depth + 1))
    ensures IsFlat(Tx(inner, commitFails), h)
  {
  }

  lemma FlatDepth(p: Prog, h: Handle)
    requires IsFlat(p, h)
    ensures Exec(p, h).h.depth == h.depth
  {
  }

  /** Inside a transaction, at any nesting, a body only writes: depth, transaction and commands are left alone. */
  lemma {:induction false} InsideIsFlat(p: Prog, h: Handle)
    requires h.depth >= 1
    ensures IsFlat(p, h)
    decreases p
  {
    match p
    case Seq(first, rest) =>
      hide IsFlat, Exec;
      InsideIsFlat(first, h);
      FlatDepth(first, h);
      InsideIsFlat(rest, Exec(first, h).h);
      SeqIsFlat(first, rest, h);
    case Try(body, handler) =>
      hide IsFlat, Exec;
      InsideIsFlat(body, h);
      FlatDepth(body, h);
      InsideIsFlat(handler, Exec(body, h).h);
      TryIsFlat(body, handler, h);
    case Tx(inner, commitFails) =>
      hide IsFlat, Exec;
      InsideIsFlat(inner, h.(depth := h.depth + 1));
      TxIsFlat(inner, commitFails, h);
    case _ =>
  }

  predicate Idle(h: Handle) {
    h.depth == 0 && h.saved == None
  }

  /**
   * Nested transactions refine one atomic level: over every call tree with throws and catches, the database, the
   * throw that escapes and the commands issued are those of calls that happen whole or not at all, and the
   * depth is back at zero.
   */
  lemma {:induction false} OutsideIsAtomic(p: Prog, h: Handle)
    requires Idle(h) && CommitsHold(p)
    ensures var r := Atomic(p, h.live);
      Exec(p, h) == Outcome(h.(live := r.db, trace := h.trace + Cmds(p, h.live)), r.threw)
    decreases p
  {
    match p
    case Seq(first, rest) =>
      OutsideIsAtomic(first, h);
      OutsideIsAtomic(rest, Exec(first, h).h);
      assert h.trace + Cmds(first, h.live) + Cmds(rest, Atomic(first, h.live).db)
          == h.trace + (Cmds(first, h.live) + Cmds(rest, Atomic(first, h.live).db));
      assert Cmds(first, h.live) + [] == Cmds(first, h.live);
    case Try(body, handler) =>
      OutsideIsAtomic(body, h);
      OutsideIsAtomic(handler, Exec(body, h).h);
      assert h.trace + Cmds(body, h.live) + Cmds(handler, Atomic(body, h.live).db)
          == h.trace + (Cmds(body, h.live) + Cmds(handler, Atomic(body, h.live).db));
      assert Cmds(body, h.live) + [] == Cmds(body, h.live);
    case Tx(inner, _) =>
      InsideIsFlat(inner, h.(depth := 1, saved := Some(h.live), trace := h.trace + [Began]));
    case _ =>
      assert h.trace + [] == h.trace;
  }

  /** Every BEGIN is answered by exactly one COMMIT or ROLLBACK before the next. */
  predicate Paired(cmds: seq<Cmd>) {
    cmds == [] || (|cmds| >= 2 && cmds[0] == Began && cmds[1] in {Committed, RolledBack} && Paired(cmds[2..]))
  }

  lemma {:induction false} PairedConcat(a: seq<Cmd>, b: seq<Cmd>)
    requires Paired(a) && Paired(b)
    ensures Paired(a + b)
  {
    if a == [] {
      assert a + b == b;
    } else {
      PairedConcat(a[2..], b);
      assert (a + b)[2..] == a[2..] + b;
    }
  }

  lemma {:induction false} CmdsArePaired(p: Prog, db: seq<Entry>)
    ensures Paired(Cmds(p, db))
  {
    match p
    case Seq(first, rest) =>
      CmdsArePaired(first, db);
      CmdsArePaired(rest, Atomic(first, db).db);
      PairedConcat(Cmds(first, db), Cmds(rest, Atomic(first, db).db));
      assert Cmds(first, db) + [] == Cmds(first, db);
    case Try(body, handler) =>
      CmdsArePaired(body, db);
      CmdsArePaired(handler, Atomic(body, db).db);
      PairedConcat(Cmds(body, db), Cmds(handler, Atomic(body, db).db));
      assert Cmds(body, db) + [] == Cmds(body, db);
    case Tx(inner, _) =>
      assert Cmds(p, db)[2..] == [];
    case _ =>
  }

  /** A throw that escapes the outermost call restores the database it found, also when COMMIT is what threw. */
  lemma EscapingThrowRestores(inner: Prog, commitFails: bool, h: Handle)
    requires Idle(h)
    ensures var r := Exec(Tx(inner, commitFails), h);
      && (r.threw <==> Flat(inner, h.live).threw || commitFails)
      && r.h.live == (if r.threw then h.live else Flat(inner, h.live).db)
      && r.h.saved == None
  {
    InsideIsFlat(inner, h.(depth := 1, saved := Some(h.live), trace := h.trace + [Began]));
  }

  /** An inner call that throws into a catch of the outer body keeps what it wrote before the throw. */
  lemma CaughtInnerThrowKeepsWrites(before: Prog, inner: Prog, h: Handle)
    requires Idle(h) && !Flat(before, h.live).threw
    ensures var r := Exec(Tx(Seq(before, Try(Tx(inner, false), Skip)), false), h);
      !r.threw && r.h.live == Flat(inner, Flat(before, h.live).db).db
  {
    var mid := Flat(before, h.live).db;
    var caught := Try(Tx(inner, false), Skip);
    var body := Seq(before, caught);
    assert Flat(Tx(inner, false), mid) == Flat(inner, mid);
    assert Flat(caught, mid) == Effect(Flat(inner, mid).db, false);
    InsideIsFlat(body, h.(depth := 1, saved := Some(h.live), trace := h.trace + [Began]));
  }

  // ---------------------------------------------------------------------------
  // A COMMIT that throws
  // ---------------------------------------------------------------------------

  function Thrown(trace: seq<Cmd>): nat {
    if trace == [] then 0 else Thrown(trace[..|trace| - 1]) + if trace[|trace| - 1] == CommitThrew then 1 else 0
  }

  lemma ThrownAppend(trace: seq<Cmd>, c: Cmd)
    ensures Thrown(trace + [c]) == Thrown(trace) + if c == CommitThrew then 1 else 0
  {
    assert (trace + [c])[..|trace|] == trace;
  }

  /** From any state, a body leaves the depth lower by exactly one for every COMMIT that threw on the way. */
  lemma {:induction false} DepthFallsByThrownCommits(p: Prog, h: Handle)
    ensures var after := Exec(p, h).h;
      after.depth - h.depth == Thrown(h.trace) - Thrown(after.trace)
    decreases p
  {
    hide Thrown;
    match p
    case Seq(first, rest) =>
      DepthFallsByThrownCommits(first, h);
      DepthFallsByThrownCommits(rest, Exec(first, h).h);
    case Try(body, handler) =>
      DepthFallsByThrownCommits(body, h);
      DepthFallsByThrownCommits(handler, Exec(body, h).h);
    case Tx(inner, commitFails) =>
      if h.depth != 0 {
        DepthFallsByThrownCommits(inner, h.(depth := h.depth + 1));
      } else if h.saved.None? {
        var begun := h.(depth := 1, saved := Some(h.live), trace := h.trace + [Began]);
        DepthFallsByThrownCommits(inner, begun);
        var t := Exec(inner, begun).h.trace;
        ThrownAppend(h.trace, Began);
        ThrownAppend(t, RolledBack);
        ThrownAppend(t, CommitThrew);
        ThrownAppend(t + [CommitThrew], RolledBack);
        ThrownAppend(t, Committed);
      }
    case _ =>
  }

  /** SQLite has no nested BEGIN: a handle that is in a transaction but counts no nesting gets a throw and no change. */
  lemma SecondBeginThrows(inner: Prog, commitFails: bool, h: Handle)
    requires h.depth == 0 && h.saved.Some?
    ensures Exec(Tx(inner, commitFails), h) == Outcome(h, true)
  {
  }

  /** One call from an idle handle restores the depth exactly when it is not a COMMIT that threw. */
  lemma DepthRestoredIff(inner: Prog, commitFails: bool, h: Handle)
    requires Idle(h)
    ensures Exec(Tx(inner, commitFails), h).h.depth == 0 <==> !commitFails || Flat(inner, h.live).threw
  {
    InsideIsFlat(inner, h.(depth := 1, saved := Some(h.live), trace := h.trace + [Began]));
  }

  /** The program without its outermost n levels of wrapping, wherever they stand. */
  function Unwrap(p: Prog, n: nat): Prog {
    match p
    case Seq(first, rest) => Seq(Unwrap(first, n), Unwrap(rest, n))
    case Try(body, handler) => Try(Unwrap(body, n), Unwrap(handler, n))
    case Tx(inner, _) => if n == 0 then p else Unwrap(inner, n - 1)
    case _ => p
  }

  function Deeper(r: Outcome, n: nat): Outcome {
    r.(h := r.h.(depth := r.h.depth - n))
  }

  lemma {:induction false} UnwrapNone(p: Prog)
    ensures Unwrap(p, 0) == p
  {
    match p
    case Seq(first, rest) =>
      UnwrapNone(first);
      UnwrapNone(rest);
    case Try(body, handler) =>
      UnwrapNone(body);
      UnwrapNone(handler);
    case _ =>
  }

  /** Outside a transaction, a body never raises the depth and leaves no transaction open. */
  lemma {:induction false} StaysOutside(p: Prog, h: Handle)
    requires h.depth <= 0 && h.saved == None
    ensures var after := Exec(p, h).h;
      after.depth <= h.depth && after.saved == None
    decreases p
  {
    match p
    case Seq(first, rest) =>
      StaysOutside(first, h);
      StaysOutside(rest, Exec(first, h).h);
    case Try(body, handler) =>
      StaysOutside(body, h);
      StaysOutside(handler, Exec(body, h).h);
    case Tx(inner, _) =>
      if h.depth == 0 {
        InsideIsFlat(inner, h.(depth := 1, saved := Some(h.live), trace := h.trace + [Began]));
      } else {
        StaysOutside(inner, h.(depth := h.depth + 1));
      }
    case _ =>
  }

  predicate RunsUnwrapped(p: Prog, n: nat, h: Handle) {
    Exec(p, h.(depth := h.depth - n)) == Deeper(Exec(Unwrap(p, n), h), n)
  }

  lemma ExecSkip(h: Handle)
    ensures Exec(Skip, h) == Outcome(h, false)
  {
  }

  lemma ExecSeq(first: Prog, rest: Prog, h: Handle)
    ensures var r := Exec(first, h);
      Exec(Seq(first, rest), h) == if r.threw then r else Exec(rest, r.h)
  {
  }

  lemma ExecTry(body: Prog, handler: Prog, h: Handle)
    ensures var r := Exec(body, h);
      Exec(Try(body, handler), h) == if r.threw then Exec(handler, r.h) else r
  {
  }

  lemma UnwrapParts(p: Prog, q: Prog, n: nat)
    ensures Unwrap(Seq(p, q), n) == Seq(Unwrap(p, n), Unwrap(q, n))
    ensures Unwrap(Try(p, q), n) == Try(Unwrap(p, n), Unwrap(q, n))
  {
  }

  lemma SeqLosesLevels(first: Prog, rest: Prog, n: nat, h: Handle)
    requires RunsUnwrapped(first, n, h) && RunsUnwrapped(rest, n, Exec(Unwrap(first, n), h).h)
    ensures RunsUnwrapped(Seq(first, rest), n, h)
  {
    hide Exec, Unwrap;
    UnwrapParts(first, rest, n);
    ExecSeq(first, rest, h.(depth := h.depth - n));
    ExecSeq(Unwrap(first, n), Unwrap(rest, n), h);
  }

  lemma TryLosesLevels(body: Prog, handler: Prog, n: nat, h: Handle)
    requires RunsUnwrapped(body, n, h) && RunsUnwrapped(handler, n, Exec(Unwrap(body, n), h).h)
    ensures RunsUnwrapped(Try(body, handler), n, h)
  {
    hide Exec, Unwrap;
    UnwrapParts(body, handler, n);
    ExecTry(body, handler, h.(depth := h.depth - n));
    ExecTry(Unwrap(body, n), Unwrap(handler, n), h);
  }

  lemma TxLosesLevels(inner: Prog, commitFails: bool, n: nat, h: Handle)
    requires h.depth <= 0 && (n == 0 || RunsUnwrapped(inner, n - 1, h))
    ensures RunsUnwrapped(Tx(inner, commitFails), n, h)
  {
    if n == 0 {
      assert h.(depth := h.depth - n) == h;
    } else {
      assert h.(depth := h.depth - n).(depth := h.depth - n + 1) == h.(depth := h.depth - (n - 1));
    }
  }

  lemma {:induction false} LosesLevels(p: Prog, n: nat, h: Handle)
    requires h.depth <= 0 && h.saved == None
    ensures RunsUnwrapped(p, n, h)
    decreases p
  {
    match p
    case Seq(first, rest) =>
      hide RunsUnwrapped, Exec;
      LosesLevels(first, n, h);
      StaysOutside(Unwrap(first, n), h);
      LosesLevels(rest, n, Exec(Unwrap(first, n), h).h);
      SeqLosesLevels(first, rest, n, h);
    case Try(body, handler) =>
      hide RunsUnwrapped, Exec;
      LosesLevels(body, n, h);
      StaysOutside(Unwrap(body, n), h);
      LosesLevels(handler, n, Exec(Unwrap(body, n), h).h);
      TryLosesLevels(body, handler, n, h);
    case Tx(inner, commitFails) =>
      hide RunsUnwrapped, Exec;
      if n > 0 {
        LosesLevels(inner, n - 1, h);
      }
      TxLosesLevels(inner, commitFails, n, h);
    case _ =>
  }

  /**
   * What thrown COMMITs cost: with n levels lost, any program runs on the handle as it would on an intact one
   * with its outermost n levels of wrapping taken off, whatever its own COMMITs answer.
   */
  lemma LostLevelsRunUnwrapped(p: Prog, n: nat, h: Handle)
    requires h.depth + n == 0 && h.saved == None
    ensures Exec(p, h) == Deeper(Exec(Unwrap(p, n), h.(depth := 0)), n)
  {
    LosesLevels(p, n, h.(depth := 0));
    assert h.(depth := 0).(depth := 0 - n) == h;
  }

  /** Only the calls below those levels are atomic. */
  lemma LostLevelsAreAtomicBelow(p: Prog, n: nat, h: Handle)
    requires h.depth + n == 0 && h.saved == None && CommitsHold(Unwrap(p, n))
    ensures var q := Unwrap(p, n);
      Exec(p, h) == Outcome(h.(live := Atomic(q, h.live).db, trace := h.trace + Cmds(q, h.live)), Atomic(q, h.live).threw)
  {
    LostLevelsRunUnwrapped(p, n, h);
    OutsideIsAtomic(Unwrap(p, n), h.(depth := 0));
  }

  /** The first lost level: the next call issues no BEGIN, and its body runs as if it had not been wrapped at all. */
  lemma ThrownCommitLosesALevel(inner: Prog, commitFails: bool, h: Handle)
    requires h.depth == -1 && h.saved == None && CommitsHold(inner)
    ensures var r := Exec(Tx(inner, commitFails), h);
      && r.h.live == Atomic(inner, h.live).db && r.threw == Atomic(inner, h.live).threw
      && r.h.depth == -1
  {
    UnwrapNone(inner);
    assert Unwrap(Tx(inner, commitFails), 1) == inner;
    LostLevelsAreAtomicBelow(Tx(inner, commitFails), 1, h);
  }

  /** A body wrapped k times over. */
  function Nest(p: Prog, k: nat): Prog {
    if k == 0 then p else Tx(Nest(p, k - 1), false)
  }

  lemma {:induction false} UnwrapNest(p: Prog, k: nat, n: nat)
    ensures Unwrap(Nest(p, k), n) == if k <= n then Unwrap(p, n - k) else Nest(p, k - n)
  {
    if k > 0 && n > 0 {
      UnwrapNest(p, k - 1, n - 1);
    } else {
      UnwrapNone(Nest(p, k));
    }
  }

  lemma {:induction false} NestIsFlat(p: Prog, k: nat, db: seq<Entry>)
    ensures Flat(Nest(p, k), db) == Flat(p, db)
  {
    if k > 0 {
      NestIsFlat(p, k - 1, db);
    }
  }

  /** Every depth is reached: each round makes the COMMIT of the one level that still issues it throw. */
  function Losing(n: nat): Prog {
    if n == 0 then Skip else Seq(Losing(n - 1), Try(Nest(Tx(Skip, true), n - 1), Skip))
  }

  lemma LosesOneMore(n: nat, h: Handle)
    requires h.depth + n == 0 && h.saved == None
    ensures var r := Exec(Nest(Tx(Skip, true), n), h);
      r.threw && r.h.live == h.live && r.h.saved == None && r.h.depth == h.depth - 1
  {
    var last := Tx(Skip, true);
    UnwrapNest(last, n, n);
    LostLevelsRunUnwrapped(Nest(last, n), n, h);
    EscapingThrowRestores(Skip, true, h.(depth := 0));
    DepthFallsByThrownCommits(last, h.(depth := 0));
    hide Nest, Unwrap;
  }

  lemma {:induction false} AnyDepthIsReached(n: nat)
    ensures var r := Exec(Losing(n), Handle(0, [], None, []));
      !r.threw && r.h.live == [] && r.h.saved == None && r.h.depth + n == 0
  {
    if n > 0 {
      var h := Exec(Losing(n - 1), Handle(0, [], None, [])).h;
      AnyDepthIsReached(n - 1);
      LosesOneMore(n - 1, h);
      hide Exec, Nest;
      var round := Try(Nest(Tx(Skip, true), n - 1), Skip);
      ExecTry(Nest(Tx(Skip, true), n - 1), Skip, h);
      ExecSeq(Losing(n - 1), round, Handle(0, [], None, []));
      ExecSkip(Exec(round.body, h).h);
    }
  }

  lemma WriteThenThrow(e: Entry, n: nat, h: Handle)
    ensures Exec(Unwrap(Seq(Write(e), Fail), n), h) == Outcome(h.(live := h.live + [e]), true)
  {
  }

  lemma WrappedIsUndone(e: Entry, k: nat, h: Handle)
    requires Idle(h) && k > 0
    ensures var r := Exec(Nest(Seq(Write(e), Fail), k), h);
      r.threw && r.h.depth == 0 && r.h.live == h.live
  {
    var p := Seq(Write(e), Fail);
    assert Flat(p, h.live) == Effect(h.live + [e], true);
    hide Exec, Flat;
    NestIsFlat(p, k - 1, h.live);
    EscapingThrowRestores(Nest(p, k - 1), false, h);
    DepthRestoredIff(Nest(p, k - 1), false, h);
  }

  /** With n levels lost, a write followed by a throw is undone exactly when more than n calls are wrapped around it. */
  lemma UndoneIff(e: Entry, k: nat, n: nat, h: Handle)
    requires h.depth + n == 0 && h.saved == None
    ensures var r := Exec(Nest(Seq(Write(e), Fail), k), h);
      r.threw && r.h.depth + n == 0 && r.h.live == if k > n then h.live else h.live + [e]
  {
    hide Exec, Unwrap, Nest;
    var p := Seq(Write(e), Fail);
    UnwrapNest(p, k, n);
    LostLevelsRunUnwrapped(Nest(p, k), n, h);
    if k > n {
      WrappedIsUndone(e, k - n, h.(depth := 0));
    } else {
      WriteThenThrow(e, n - k, h.(depth := 0));
    }
  }

  /** From a new handle, any number of thrown COMMITs later: that many calls around a write do not undo it. */
  lemma ThrownCommitBreaksAtomicity(n: nat)
    ensures var first := Exec(Losing(n), Handle(0, [], None, [])).h;
      var next := Exec(Nest(Seq(Write(Row(7)), Fail), n), first);
      next.threw && next.h.live == [Row(7)]
  {
    AnyDepthIsReached(n);
    UndoneIff(Row(7), n, n, Exec(Losing(n), Handle(0, [], None, [])).h);
  }

  // ---------------------------------------------------------------------------
  // Migrations
  // ---------------------------------------------------------------------------

  lemma {:induction false} ScriptIsFlat(m: Migration, i: nat, stop: Option<nat>, db: seq<Entry>)
    requires i <= |m.rows|
    ensures var r := Flat(Script(m, i, stop), db);
      if stop.Some? && i <= stop.value <= |m.rows| then r == Effect(db + Rows(m.rows)[i..stop.value], true)
      else r == Effect(db + Rows(m.rows)[i..] + [Applied(m.name)], false)
    ensures Atomic(Script(m, i, stop), db) == Flat(Script(m, i, stop), db) && CommitsHold(Script(m, i, stop))
    decreases |m.rows| - i
  {
    if stop == Some(i) {
      assert db + Rows(m.rows)[i..i] == db;
    } else if i == |m.rows| {
      assert db + Rows(m.rows)[i..] == db;
    } else {
      var next := db + [Row(m.rows[i])];
      ScriptIsFlat(m, i + 1, stop, next);
      assert next + Rows(m.rows)[i + 1..] == db + Rows(m.rows)[i..];
      if stop.Some? && i < stop.value <= |m.rows| {
        assert next + Rows(m.rows)[i + 1..stop.value] == db + Rows(m.rows)[i..stop.value];
      }
    }
  }

  lemma {:induction false} UnwrapScript(m: Migration, i: nat, stop: Option<nat>, n: nat)
    requires i <= |m.rows|
    ensures Unwrap(Script(m, i, stop), n) == Script(m, i, stop)
    decreases |m.rows| - i
  {
    if stop != Some(i) && i < |m.rows| {
      UnwrapScript(m, i + 1, stop, n);
    }
  }

  lemma ScriptRuns(m: Migration, h: Handle, stop: Option<nat>, commitFails: bool)
    requires Idle(h)
    ensures var r := Exec(Tx(Script(m, 0, stop), commitFails), h);
      var breaks := stop.Some? && stop.value <= |m.rows|;
      && r.threw == (breaks || commitFails)
      && r.h.live == (if r.threw then h.live else h.live + Rows(m.rows) + [Applied(m.name)])
      && r.h.saved == None
      && (r.h.depth == if commitFails && !breaks then -1 else 0)
  {
    ScriptIsFlat(m, 0, stop, h.live);
    assert Rows(m.rows)[0..] == Rows(m.rows);
    InsideIsFlat(Script(m, 0, stop), h.(depth := 1, saved := Some(h.live), trace := h.trace + [Began]));
  }

  /**
   * On the same handle, after any number of COMMITs that threw, a file that breaks keeps the statements it got
   * through, with no record that it ran: it changes the database exactly when it breaks after its first statement.
   */
  lemma BrokenFileKeepsItsRows(m: Migration, at: nat, commitFails: bool, h: Handle)
    requires h.depth < 0 && h.saved == None && at <= |m.rows|
    ensures var r := Exec(Tx(Script(m, 0, Some(at)), commitFails), h);
      && r.threw && r.h.depth == h.depth && r.h.live == h.live + Rows(m.rows)[..at]
      && Done(r.h.live) == Done(h.live)
      && (r.h.live != h.live <==> at > 0)
  {
    hide Exec, Script, Atomic, Flat, CommitsHold;
    var script := Script(m, 0, Some(at));
    ScriptIsFlat(m, 0, Some(at), h.live);
    UnwrapScript(m, 0, Some(at), -h.depth - 1);
    assert Unwrap(Tx(script, commitFails), -h.depth) == script;
    LostLevelsAreAtomicBelow(Tx(script, commitFails), -h.depth, h);
    hide Unwrap;
    RowsRecordNothing(h.live, m, at);
    assert Rows(m.rows)[0..at] == Rows(m.rows)[..at];
  }

  lemma RowsRecordNothing(db: seq<Entry>, m: Migration, at: nat)
    requires at <= |m.rows|
    ensures var more := db + Rows(m.rows)[..at];
      Done(more) == Done(db) && (more != db <==> at > 0)
  {
    var kept := Rows(m.rows)[..at];
    assert |db + kept| == |db| + at;
    assert at == 0 ==> db + kept == db;
    forall e | e in db + kept && e.Applied? ensures e in db {
      assert forall i :: 0 <= i < at ==> kept[i].Row?;
    }
  }

  function Names(ms: seq<Migration>): set<nat> {
    set m | m in ms :: m.name
  }

  lemma DoneAppend(db: seq<Entry>, m: Migration)
    ensures Done(db + Rows(m.rows) + [Applied(m.name)]) == Done(db) + {m.name}
  {
    var more := db + Rows(m.rows) + [Applied(m.name)];
    assert Applied(m.name) in more;
    forall e | e in more && e.Applied? ensures e in db || e == Applied(m.name) {
    }
    forall e | e in db ensures e in more {
    }
  }

  lemma {:induction false} DoneAfter(db: seq<Entry>, ms: seq<Migration>)
    ensures Done(Migrated(db, Done(db), ms)) == Done(db) + Names(ms)
  {
    hide Done;
    if ms != [] {
      var k := |ms| - 1;
      DoneAfter(db, ms[..k]);
      assert ms == ms[..k] + [ms[k]];
      assert Names(ms) == Names(ms[..k]) + {ms[k].name};
      DoneAppend(Migrated(db, Done(db), ms[..k]), ms[k]);
    }
  }

  /** The pass continues where it stood: the first k files are done, the others are not. */
  lemma {:induction false} Resumes(db: seq<Entry>, ms: seq<Migration>, k: nat, j: nat)
    requires Distinct(ms) && k <= |ms| && j <= |ms|
    ensures var d := Migrated(db, Done(db), ms[..k]);
      Migrated(d, Done(d), ms[..j]) == if j <= k then d else Migrated(db, Done(db), ms[..j])
  {
    hide Done, Names, Migrated, Distinct;
    var done := Done(db);
    var d := Migrated(db, done, ms[..k]);
    if j == 0 {
      NoFiles(d, Done(d), ms);
      NoFiles(db, done, ms);
    } else {
      Resumes(db, ms, k, j - 1);
      DoneAfter(db, ms[..k]);
      WasDone(db, ms, k, j - 1);
      LastFile(d, Done(d), ms, j);
      LastFile(db, done, ms, j);
    }
  }

  lemma {:induction false} PendingAre(done: set<nat>, ms: seq<Migration>)
    ensures forall n :: n in Pending(done, ms) <==> n in Names(ms) && n !in done
  {
    if ms != [] {
      var k := |ms| - 1;
      PendingAre(done, ms[..k]);
      assert ms == ms[..k] + [ms[k]];
      assert Names(ms) == Names(ms[..k]) + {ms[k].name};
    }
  }

  /** The names returned are those of the files that were not done before and are now. */
  lemma PendingIsNew(db: seq<Entry>, ms: seq<Migration>)
    ensures forall n :: n in Pending(Done(db), ms) <==> n in Done(Migrated(db, Done(db), ms)) && n !in Done(db)
  {
    PendingAre(Done(db), ms);
    DoneAfter(db, ms);
    hide Done, Names, Pending, Migrated;
  }

  lemma NoFiles(db: seq<Entry>, done: set<nat>, ms: seq<Migration>)
    ensures Migrated(db, done, ms[..0]) == db
  {
  }

  lemma LastFile(db: seq<Entry>, done: set<nat>, ms: seq<Migration>, j: nat)
    requires 0 < j <= |ms|
    ensures var d := Migrated(db, done, ms[..j - 1]);
      var m := ms[j - 1];
      Migrated(db, done, ms[..j]) == if m.name in done then d else d + Rows(m.rows) + [Applied(m.name)]
  {
    assert ms[..j][..j - 1] == ms[..j - 1];
  }

  lemma WasDone(db: seq<Entry>, ms: seq<Migration>, k: nat, j: nat)
    requires Distinct(ms) && k <= |ms| && j < |ms|
    ensures j < k ==> ms[j].name in Names(ms[..k])
    ensures k <= j ==> ms[j].name !in Names(ms[..k])
  {
    assert j < k ==> ms[..k][j] == ms[j];
  }

  function Attempts(db: seq<Entry>, ms: seq<Migration>, bs: seq<Break>): seq<Entry> {
    if bs == [] then db else Attempted(Attempts(db, ms, bs[..|bs| - 1]), ms, bs[|bs| - 1])
  }

  /**
   * However many attempts broke, and wherever each did, the first one that does not break reaches the database
   * a single unbroken pass would have reached.
   */
  lemma {:induction false} RerunsReachTheUnbrokenRun(db: seq<Entry>, ms: seq<Migration>, bs: seq<Break>)
    requires Distinct(ms)
    ensures Attempted(Attempts(db, ms, bs), ms, Nowhere) == Attempted(db, ms, Nowhere)
  {
    hide Done, Migrated;
    if bs != [] {
      var n := |bs| - 1;
      RerunsReachTheUnbrokenRun(db, ms, bs[..n]);
      var d := Attempts(db, ms, bs[..n]);
      var k := if Stop(Done(d), ms, bs[n]).Some? then Stop(Done(d), ms, bs[n]).value else |ms|;
      assert ms[..|ms|] == ms;
      Resumes(d, ms, k, |ms|);
    }
  }
}
