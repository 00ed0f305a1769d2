/** The password throttle: one row of recent failures, shared by sign-in and re-authentication. */
module Throttle {
  import opened Common
  import opened PairMath

  const LIMIT: nat := 5
  const WINDOW: nat := 15 * 60 * 1_000
  const LOCKOUT: nat := 5 * 60 * 1_000

  datatype Row = Row(failures: seq<int>, lockedUntil: Option<int>)

  const EMPTY := Row([], None)

  predicate Locked(row: Row, now: int) {
    row.lockedUntil.Some? && now < row.lockedUntil.value
  }

  /** The failures that still count at `now`. */
  function Recent(failures: seq<int>, now: int): seq<int> {
    if failures == [] then []
    else
      var last := |failures| - 1;
      var kept := Recent(failures[..last], now);
      if now - failures[last] < WINDOW then kept + [failures[last]] else kept
  }

  /** The row an admitted attempt leaves: counted, or locked when it is the fifth that counts. */
  function Counted(row: Row, now: int): Row {
    var failures := Recent(row.failures, now) + [now];
    if |failures| >= LIMIT then Row([], Some(now + LOCKOUT)) else Row(failures, None)
  }

  /**
   * The throttle's row is in the database, so a new process starts with the old one. Every password check, from
   * sign-in or re-authentication, is preceded by `BeginAttempt` in the same synchronous step.
   */
  class AuthService {
    var row: Option<Row>

    function Stored(): Row
      reads this
    {
      if row.None? then EMPTY else row.value
    }

    constructor (row: Option<Row>)
      ensures this.row == row
    {
      this.row := row;
    }

    method BeginAttempt(now: int) returns (r: Result<()>)
      modifies this
      ensures r.Err? <==> old(Stored()).lockedUntil.Some? && now < old(Stored()).lockedUntil.value
      ensures Stored() == if r.Ok? then Counted(old(Stored()), now) else old(Stored())
    {
      var state := Stored();
      if state.lockedUntil.Some? && now < state.lockedUntil.value {
        return Err(Conflict);
      }
      var failures: seq<int> := [];
      for i := 0 to |state.failures|
        invariant failures == Recent(state.failures[..i], now)
      {
        assert state.failures[..i + 1][..i] == state.failures[..i];
        if now - state.failures[i] < WINDOW {
          failures := failures + [state.failures[i]];
        }
      }
      assert state.failures[..|state.failures|] == state.failures;
      failures := failures + [now];
      if |failures| >= LIMIT {
        row := Some(Row([], Some(now + LOCKOUT)));
        return Ok(());
      }
      row := Some(Row(failures, None));
      return Ok(());
    }

    method RecordSuccess()
      modifies this
      ensures Stored() == EMPTY
    {
      row := Some(Row([], None));
    }
  }

  // ---------------------------------------------------------------------------
  // Runs: attempts begin, and finish later, in any interleaving
  // ---------------------------------------------------------------------------

  /** A verification that fails and a restart of the process leave the row alone. */
  datatype Event = Begin(at: int) | Succeed(at: int) | Fail(at: int) | Restart(at: int)

  predicate Admits(row: Row, e: Event) {
    e.Begin? && !Locked(row, e.at)
  }

  function Next(row: Row, e: Event): Row {
    match e
    case Begin(at) => if Locked(row, at) then row else Counted(row, at)
    case Succeed(_) => EMPTY
    case _ => row
  }

  function Run(row: Row, es: seq<Event>): Row {
    if es == [] then row else Next(Run(row, es[..|es| - 1]), es[|es| - 1])
  }

  /** How many password checks a run lets through. */
  function Admitted(row: Row, es: seq<Event>): nat {
    if es == [] then 0
    else Admitted(row, es[..|es| - 1]) + if Admits(Run(row, es[..|es| - 1]), es[|es| - 1]) then 1 else 0
  }

  predicate Within(es: seq<Event>, from: int, to: int) {
    forall i :: 0 <= i < |es| ==> from <= es[i].at < to
  }

  predicate NoSuccess(es: seq<Event>) {
    forall i :: 0 <= i < |es| ==> !es[i].Succeed?
  }

  predicate Ordered(es: seq<Event>) {
    forall i, j :: 0 <= i < j < |es| ==> es[i].at <= es[j].at
  }

  function Since(failures: seq<int>, t: int): nat {
    if failures == [] then 0
    else Since(failures[..|failures| - 1], t) + if failures[|failures| - 1] >= t then 1 else 0
  }

  /** A failure counts exactly when it is less than fifteen minutes old; nothing else is kept or dropped. */
  lemma {:induction false} RecentAre(failures: seq<int>, now: int)
    ensures forall at :: multiset(Recent(failures, now))[at] == if now - at < 900_000 then multiset(failures)[at] else 0
    ensures |Recent(failures, now)| == Since(failures, now - 899_999)
  {
    if failures != [] {
      var last := |failures| - 1;
      RecentAre(failures[..last], now);
      assert failures == failures[..last] + [failures[last]];
    }
  }

  /**
   * When an admitted attempt locks, and what it leaves: exactly when four checks of the last fifteen minutes stand
   * before it, and then for five minutes with an empty list; otherwise those checks and itself, without a lock.
   */
  lemma FifthLocks(row: Row, now: int)
    ensures var after := Counted(row, now);
      if Since(row.failures, now - 899_999) >= 4 then after == Row([], Some(now + 300_000))
      else after == Row(Recent(row.failures, now) + [now], None)
  {
    RecentAre(row.failures, now);
  }

  lemma {:induction false} SinceAtMost(failures: seq<int>, t: int)
    ensures Since(failures, t) <= |failures|
  {
    if failures != [] {
      SinceAtMost(failures[..|failures| - 1], t);
    }
  }

  lemma SinceAppend(failures: seq<int>, at: int, t: int)
    ensures Since(failures + [at], t) == Since(failures, t) + if at >= t then 1 else 0
  {
    assert (failures + [at])[..|failures|] == failures;
  }

  /** Whatever was counted since t is still counted less than a window later. */
  lemma {:induction false} RecentKeepsSince(failures: seq<int>, t: int, now: int)
    requires now - t < WINDOW
    ensures Since(Recent(failures, now), t) == Since(failures, t)
  {
    if failures != [] {
      var last := |failures| - 1;
      RecentKeepsSince(failures[..last], t, now);
      if now - failures[last] < WINDOW {
        SinceAppend(Recent(failures[..last], now), failures[last], t);
      }
    }
  }

  /** Within one lockout period from t: at most four checks, all still counted, or five and a lock past its end. */
  predicate Throttled(row: Row, t: int, admitted: nat) {
    || (admitted < LIMIT && admitted <= Since(row.failures, t))
    || (admitted <= LIMIT && row.lockedUntil.Some? && t + LOCKOUT <= row.lockedUntil.value)
  }

  lemma ThrottledStep(row: Row, t: int, admitted: nat, e: Event)
    requires Throttled(row, t, admitted) && t <= e.at < t + LOCKOUT && !e.Succeed?
    ensures Throttled(Next(row, e), t, admitted + if Admits(row, e) then 1 else 0)
  {
    if Admits(row, e) {
      RecentKeepsSince(row.failures, t, e.at);
      var kept := Recent(row.failures, e.at);
      SinceAppend(kept, e.at, t);
      SinceAtMost(kept + [e.at], t);
    }
  }

  lemma {:induction false} ThrottledRun(row: Row, es: seq<Event>, t: int)
    requires Within(es, t, t + LOCKOUT) && NoSuccess(es)
    ensures Throttled(Run(row, es), t, Admitted(row, es))
  {
    hide Throttled, Next;
    if es != [] {
      var k := |es| - 1;
      ThrottledRun(row, es[..k], t);
      ThrottledStep(Run(row, es[..k]), t, Admitted(row, es[..k]), es[k]);
    } else {
      EmptyThrottled(row, t);
    }
  }

  lemma EmptyThrottled(row: Row, t: int)
    ensures Throttled(row, t, 0)
  {
  }

  /**
   * From any stored row whatever, over any interleaving of attempts, failures and restarts, a half-open
   * five-minute interval in which no verification succeeds lets at most five password checks through.
   */
  lemma FivePerLockout(row: Row, es: seq<Event>, t: int)
    requires Within(es, t, t + 300_000) && NoSuccess(es)
    ensures Admitted(row, es) <= 5
  {
    ThrottledRun(row, es, t);
  }

  lemma {:induction false} RunConcat(row: Row, a: seq<Event>, b: seq<Event>)
    ensures Run(row, a + b) == Run(Run(row, a), b)
    ensures Admitted(row, a + b) == Admitted(row, a) + Admitted(Run(row, a), b)
  {
    if b == [] {
      assert a + b == a;
    } else {
      var k := |b| - 1;
      assert (a + b)[..|a + b| - 1] == a + b[..k];
      RunConcat(row, a, b[..k]);
    }
  }

  /** How many leading events come before t. */
  function Before(es: seq<Event>, t: int): (n: nat)
    ensures n <= |es|
    ensures forall i :: 0 <= i < n ==> es[i].at < t
    ensures n < |es| ==> es[n].at >= t
  {
    if es == [] || es[0].at >= t then 0
    else
      var n := Before(es[1..], t);
      assert forall i :: 1 <= i < 1 + n ==> es[i] == es[1..][i - 1];
      1 + n
  }

  function CeilDiv(n: nat, d: nat): nat
    requires d > 0
  {
    (n + d - 1) / d
  }

  lemma OneLess(n: nat, d: nat)
    requires d > 0 && n > d
    ensures CeilDiv(n, d) == 1 + CeilDiv(n - d, d)
  {
    OneMore(n - 1, d);
  }

  lemma OneMore(a: nat, d: nat)
    requires d > 0
    ensures (a + d) / d == a / d + 1
  {
    FloorBounds(a, d);
    FloorBounds(a + d, d);
    Distributes(a / d, 1, d);
    BelowNext((a + d) / d, a / d + 1, d, a + d);
    BelowNext(a / d + 1, (a + d) / d, d, a + d);
  }

  lemma OnePeriod(n: nat, d: nat)
    requires 0 < n <= d
    ensures CeilDiv(n, d) == 1
  {
    OneMore(n - 1, d);
    FloorBounds(n - 1, d);
    BelowNext((n - 1) / d, 0, d, n - 1);
  }

  /** Nothing happens in no time. */
  lemma Nothing(row: Row, es: seq<Event>, t: int)
    requires Within(es, t, t)
    ensures Admitted(row, es) == 0
  {
  }

  /** Five for every lockout period begun. */
  function Allowance(length: nat): nat {
    LIMIT * CeilDiv(length, LOCKOUT)
  }

  lemma AllowanceOfOne(length: nat)
    requires 0 < length <= LOCKOUT
    ensures Allowance(length) == LIMIT
  {
    OnePeriod(length, LOCKOUT);
  }

  lemma AllowanceOfMore(length: nat)
    requires length > LOCKOUT
    ensures Allowance(length) == LIMIT + Allowance(length - LOCKOUT)
  {
    OneLess(length, LOCKOUT);
  }

  /** The run, cut at the end of its first period. */
  lemma CutAt(es: seq<Event>, t: int, length: nat) returns (a: seq<Event>, b: seq<Event>)
    requires Ordered(es) && Within(es, t, t + length) && NoSuccess(es) && length > LOCKOUT
    ensures es == a + b && Within(a, t, t + LOCKOUT) && NoSuccess(a)
    ensures Ordered(b) && Within(b, t + LOCKOUT, t + length) && NoSuccess(b)
  {
    var n := Before(es, t + LOCKOUT);
    a, b := es[..n], es[n..];
    forall i | 0 <= i < |b| ensures t + LOCKOUT <= b[i].at < t + length {
      assert b[i] == es[n + i];
    }
  }

  /** An interval of any length T without a success lets at most 5 * ceil(T / 5 min) checks through. */
  lemma {:induction false} FivePerLockoutOver(row: Row, es: seq<Event>, t: int, length: nat)
    requires Ordered(es) && Within(es, t, t + length) && NoSuccess(es)
    ensures Admitted(row, es) <= 5 * CeilDiv(length, 300_000)
    decreases length
  {
    hide Allowance, Admitted, Run, Ordered, NoSuccess;
    if length == 0 {
      Nothing(row, es, t);
    } else {
      hide Within;
      if length <= LOCKOUT {
        WithinMore(es, t, length);
        FivePerLockout(row, es, t);
        AllowanceOfOne(length);
      } else {
        var a, b := CutAt(es, t, length);
        RunConcat(row, a, b);
        FivePerLockout(row, a, t);
        FivePerLockoutOver(Run(row, a), b, t + LOCKOUT, length - LOCKOUT);
        AllowanceOfMore(length);
      }
    }
  }

  lemma WithinMore(es: seq<Event>, t: int, length: nat)
    requires Within(es, t, t + length) && length <= LOCKOUT
    ensures Within(es, t, t + LOCKOUT)
  {
  }

  // ---------------------------------------------------------------------------
  // The list that is stored
  // ---------------------------------------------------------------------------

  lemma {:induction false} AtMostFourStored(es: seq<Event>)
    ensures |Run(EMPTY, es).failures| < LIMIT
    ensures Run(EMPTY, es).lockedUntil.Some? ==> Run(EMPTY, es).failures == []
  {
    if es != [] {
      AtMostFourStored(es[..|es| - 1]);
    }
  }

  /** Every check let through since the last success or lockout, never trimmed: what the row abbreviates. */
  datatype Log = Log(times: seq<int>, lockedUntil: Option<int>)

  /** The rule as the limit states it: five checks within the window lock the sixth out. */
  function LogNext(log: Log, e: Event): Log {
    match e
    case Begin(at) =>
      if log.lockedUntil.Some? && at < log.lockedUntil.value then log
      else
        var times := log.times + [at];
        if |Recent(times, at)| >= LIMIT then Log([], Some(at + LOCKOUT)) else Log(times, None)
    case Succeed(_) => Log([], None)
    case _ => log
  }

  function LogRun(es: seq<Event>): Log {
    if es == [] then Log([], None) else LogNext(LogRun(es[..|es| - 1]), es[|es| - 1])
  }

  /** The row holds the part of the log that counted at some moment already past. */
  ghost predicate Abbreviates(row: Row, log: Log, now: int) {
    row.lockedUntil == log.lockedUntil && exists seen :: seen <= now && row.failures == Recent(log.times, seen)
  }

  lemma {:induction false} RecentTwice(times: seq<int>, seen: int, now: int)
    requires seen <= now
    ensures Recent(Recent(times, seen), now) == Recent(times, now)
  {
    if times != [] {
      var last := |times| - 1;
      RecentTwice(times[..last], seen, now);
      if seen - times[last] < WINDOW {
        var kept := Recent(times[..last], seen);
        assert (kept + [times[last]])[..|kept|] == kept;
      }
    }
  }

  lemma RecentAppend(times: seq<int>, now: int)
    ensures Recent(times + [now], now) == Recent(times, now) + [now]
  {
    assert (times + [now])[..|times|] == times;
  }

  lemma AbbreviatesStep(row: Row, log: Log, e: Event)
    requires Abbreviates(row, log, e.at)
    ensures Abbreviates(Next(row, e), LogNext(log, e), e.at)
  {
    var seen :| seen <= e.at && row.failures == Recent(log.times, seen);
    if Admits(row, e) {
      RecentTwice(log.times, seen, e.at);
      RecentAppend(log.times, e.at);
    }
    if LogNext(log, e).times == [] {
      assert Recent([], e.at) == [];
    } else if LogNext(log, e) != log {
      assert Next(row, e).failures == Recent(LogNext(log, e).times, e.at);
    }
  }

  /**
   * On every run under a clock that does not go back, trimming the stored list at each attempt decides exactly
   * as the untrimmed log would: the same attempts are let through, the same ones lock, and for as long.
   */
  lemma {:induction false} TrimmingChangesNothing(es: seq<Event>)
    requires Ordered(es)
    ensures Run(EMPTY, es).lockedUntil == LogRun(es).lockedUntil
    ensures es != [] ==> Abbreviates(Run(EMPTY, es), LogRun(es), es[|es| - 1].at)
  {
    hide Abbreviates, Next, LogNext;
    if es != [] {
      var k := |es| - 1;
      TrimmingChangesNothing(es[..k]);
      var row, log := Run(EMPTY, es[..k]), LogRun(es[..k]);
      if k == 0 {
        Blank(es[k].at);
      } else {
        Later(row, log, es[k - 1].at, es[k].at);
      }
      AbbreviatesStep(row, log, es[k]);
      SameLock(Next(row, es[k]), LogNext(log, es[k]), es[k].at);
    }
  }

  /**
   * On any run under a clock that does not go back, an attempt that is let through locks if and only if four
   * checks since the last success or lockout are less than fifteen minutes old, and for exactly five minutes.
   */
  lemma FifthCheckLocksIff(es: seq<Event>, at: int)
    requires Ordered(es + [Begin(at)])
    ensures var before, after := Run(EMPTY, es), Run(EMPTY, es + [Begin(at)]);
      Admits(before, Begin(at)) ==>
        after.lockedUntil == if Since(LogRun(es).times, at - 899_999) >= 4 then Some(at + 300_000) else None
  {
    var more := es + [Begin(at)];
    assert more[..|es|] == es;
    assert Ordered(es) by {
      forall i, j | 0 <= i < j < |es| ensures es[i].at <= es[j].at {
        assert more[i].at <= more[j].at;
      }
    }
    TrimmingChangesNothing(es);
    TrimmingChangesNothing(more);
    var log := LogRun(es);
    RecentAppend(log.times, at);
    RecentAre(log.times, at);
  }

  lemma Blank(now: int)
    ensures Abbreviates(EMPTY, Log([], None), now)
  {
    assert Recent([], now) == [];
  }

  lemma Later(row: Row, log: Log, earlier: int, now: int)
    requires Abbreviates(row, log, earlier) && earlier <= now
    ensures Abbreviates(row, log, now)
  {
  }

  lemma SameLock(row: Row, log: Log, now: int)
    requires Abbreviates(row, log, now)
    ensures row.lockedUntil == log.lockedUntil
  {
  }

  /** Nobody is locked out by fewer than five checks since the last success. */
  lemma {:induction false} NoLockUnderFive(row: Row, es: seq<Event>, at: int)
    requires NoSuccess(es)
    ensures var after := Run(Next(row, Succeed(at)), es);
      var n := Admitted(Next(row, Succeed(at)), es);
      n < LIMIT ==> after.lockedUntil == None && |after.failures| <= n
  {
    if es != [] {
      var k := |es| - 1;
      NoLockUnderFive(row, es[..k], at);
      RecentAtMost(Run(EMPTY, es[..k]).failures, es[k].at);
    }
  }

  lemma {:induction false} RecentAtMost(times: seq<int>, now: int)
    ensures |Recent(times, now)| <= |times|
  {
    if times != [] {
      RecentAtMost(times[..|times| - 1], now);
    }
  }
}
