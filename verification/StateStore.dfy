/**
 * Runtime switches and the LIVE activation checklist.
 *
 * Every operation is a short program of single-row writes. SQLite commits each of them
 * on its own, so a process may die after any prefix of a program; the next process runs
 * the boot demotion, which is itself such a program and may itself die half way.
 */
module StateStore {
  import opened Common

  datatype Mode = Paper | Live

  datatype Step =
    | Acknowledged | Reauthenticated | RiskReviewed | WalletFunded | GasChecked | AdapterChecked

  const STEP_TTL_MS: int := 10 * 60 * 1_000

  /** A checklist recording: when it was made, and which event of the run made it. */
  datatype Stamp = Stamp(at: int, serial: nat)

  datatype Db = Db(
    installed: bool,
    mode: Mode,
    pause: bool,
    stop: bool,
    steps: map<Step, Stamp>,
    activatedAt: Option<int>)

  const FRESH_DB := Db(false, Paper, false, false, map[], None)

  /** One SQL statement. Updating the mode of an installation that does not exist changes no row. */
  datatype Write =
    | InsertInstallation
    | PutMode(mode: Mode)
    | PutPause(pause: bool)
    | PutStop(stop: bool)
    | PutStep(step: Step, stamp: Stamp)
    | ClearChecklist
    | PutActivated(at: int)

  function Apply(db: Db, w: Write): Db {
    match w
    case InsertInstallation => db.(installed := true, mode := Paper)
    case PutMode(m) => if db.installed then db.(mode := m) else db
    case PutPause(b) => db.(pause := b)
    case PutStop(b) => db.(stop := b)
    case PutStep(step, stamp) => db.(steps := Recording(db.steps, step, stamp))
    case ClearChecklist => db.(steps := map[], activatedAt := None)
    case PutActivated(at) => db.(activatedAt := Some(at))
  }

  function Recording(steps: map<Step, Stamp>, step: Step, stamp: Stamp): map<Step, Stamp> {
    steps[step := stamp]
  }

  function ApplyAll(db: Db, ws: seq<Write>): Db
    decreases |ws|
  {
    if ws == [] then db else ApplyAll(Apply(db, ws[0]), ws[1..])
  }

  datatype Op =
    | CreateInstallation
    | SetPause(paused: bool)
    | SetStop(active: bool)
    | Record(step: Step)
    | Activate
    | Revert

  predicate Fresh(db: Db, step: Step, now: int) {
    step in db.steps && now - db.steps[step].at <= STEP_TTL_MS
  }

  predicate Accepts(db: Db, op: Op, now: int) {
    match op
    case CreateInstallation => !db.installed
    case Activate => !db.stop && !db.pause && forall step: Step :: Fresh(db, step, now)
    case _ => true
  }

  /** The statements an accepted operation runs, in order. */
  function Program(op: Op, now: int, serial: nat): seq<Write> {
    match op
    case CreateInstallation => [InsertInstallation]
    case SetPause(b) => [PutPause(b)]
    case SetStop(true) => [PutStop(true), PutMode(Paper), ClearChecklist]
    case SetStop(false) => [PutStop(false)]
    case Record(step) => [PutStep(step, Stamp(now, serial))]
    case Activate => [PutMode(Live), ClearChecklist, PutActivated(now)]
    case Revert => [PutMode(Paper), ClearChecklist]
  }

  /** The demotion every constructor runs. */
  function BootProgram(db: Db): seq<Write> {
    if db.mode == Live then [PutMode(Paper), ClearChecklist] else []
  }

  // ---------------------------------------------------------------------------
  // The store as the runtime holds it
  // ---------------------------------------------------------------------------

  class Store {
    var installed: bool
    var mode: Mode
    var pause: bool
    var stop: bool
    var steps: map<Step, Stamp>
    var activatedAt: Option<int>

    function View(): Db
      reads this
    {
      Db(installed, mode, pause, stop, steps, activatedAt)
    }

    /** A process start on a database another process left behind. */
    constructor (db: Db)
      ensures View() == ApplyAll(db, BootProgram(db))
      ensures db.installed && db.mode == Live ==> mode == Paper && steps == map[] && activatedAt == None
    {
      installed, mode, pause, stop := db.installed, db.mode, db.pause, db.stop;
      steps, activatedAt := db.steps, db.activatedAt;
      new;
      if mode == Live {
        if installed {
          mode := Paper;
        }
        steps, activatedAt := map[], None;
        ApplyTwo(db, PutMode(Paper), ClearChecklist);
      }
    }

    method SetGlobalPause(paused: bool, now: int, ghost serial: nat)
      modifies this
      ensures View() == ApplyAll(old(View()), Program(SetPause(paused), now, serial))
      ensures pause == paused && mode == old(mode) && stop == old(stop) && steps == old(steps)
    {
      pause := paused;
      assert Program(SetPause(paused), now, serial)[1..] == [];
    }

    method SetEmergencyStop(active: bool, now: int, ghost serial: nat)
      modifies this
      ensures View() == ApplyAll(old(View()), Program(SetStop(active), now, serial))
      ensures stop == active
      ensures active && installed ==> mode == Paper && steps == map[] && activatedAt == None
      ensures !active ==> mode == old(mode) && steps == old(steps)
    {
      ghost var before := View();
      stop := active;
      if active {
        if installed {
          mode := Paper;
        }
        steps, activatedAt := map[], None;
        ApplyThree(before, PutStop(true), PutMode(Paper), ClearChecklist);
      } else {
        assert Program(SetStop(active), now, serial)[1..] == [];
      }
    }

    method RecordActivationStep(step: Step, now: int, serial: nat)
      modifies this
      ensures View() == ApplyAll(old(View()), Program(Record(step), now, serial))
      ensures Fresh(View(), step, now)
    {
      steps := steps[step := Stamp(now, serial)];
      assert Program(Record(step), now, serial)[1..] == [];
    }

    /** Throws unless no switch is engaged and all six steps are recent; a throw leaves every row as it was. */
    method ActivateLive(now: int, ghost serial: nat) returns (r: Result<Mode>)
      modifies this
      ensures r.Ok? <==>
        && !old(stop) && !old(pause)
        && forall step: Step :: step in old(steps) && now - old(steps)[step].at <= 600_000
      ensures r.Ok? ==> View() == ApplyAll(old(View()), Program(Activate, now, serial))
      ensures r.Ok? ==> steps == map[] && activatedAt == Some(now) && (installed ==> mode == Live)
      ensures r.Err? ==> View() == old(View())
    {
      ghost var before := View();
      if stop || pause {
        return Err(Invalid);
      }
      if !forall s: Step :: Fresh(View(), s, now) {
        AllFreshIff(before, now);
        return Err(Invalid);
      }
      AllFreshIff(before, now);
      if installed {
        mode := Live;
      }
      steps, activatedAt := map[], None;
      activatedAt := Some(now);
      ApplyThree(before, PutMode(Live), ClearChecklist, PutActivated(now));
      return Ok(mode);
    }

    method RevertToPaper(now: int, ghost serial: nat)
      modifies this
      ensures View() == ApplyAll(old(View()), Program(Revert, now, serial))
      ensures (installed ==> mode == Paper) && steps == map[] && activatedAt == None
    {
      ghost var before := View();
      if installed {
        mode := Paper;
      }
      steps, activatedAt := map[], None;
      ApplyTwo(before, PutMode(Paper), ClearChecklist);
    }
  }

  lemma AllFreshIff(db: Db, now: int)
    ensures (forall step: Step :: Fresh(db, step, now))
       <==> forall step: Step :: step in db.steps && now - db.steps[step].at <= 600_000
  {
    if forall step: Step :: Fresh(db, step, now) {
      forall step: Step ensures step in db.steps && now - db.steps[step].at <= 600_000 {
        assert Fresh(db, step, now);
      }
    }
  }

  lemma ApplyThree(db: Db, a: Write, b: Write, c: Write)
    ensures ApplyAll(db, [a, b, c]) == Apply(Apply(Apply(db, a), b), c)
  {
    var d := Apply(db, a);
    assert [a, b, c][1..] == [b, c];
    ApplyTwo(d, b, c);
  }

  lemma ApplyTwo(db: Db, a: Write, b: Write)
    ensures ApplyAll(db, [a, b]) == Apply(Apply(db, a), b)
  {
    assert [a, b][1..] == [b];
    assert ApplyAll(Apply(db, a), [b]) == ApplyAll(Apply(Apply(db, a), b), [b][1..]);
  }

  // ---------------------------------------------------------------------------
  // Runs: operations, deaths between two statements, and restarts
  // ---------------------------------------------------------------------------

  /** `cut` statements land; fewer than the program has means the process died there. */
  datatype Event =
    | Do(op: Op, dt: nat, cut: nat)
    | Boot(dt: nat, cut: nat)
    | Kill(dt: nat)

  /** A mode write to LIVE: its event, the recordings it was granted on and how far the activation got. */
  datatype Activation = Activation(event: nat, at: int, stamps: map<Step, Stamp>, since: nat, cut: nat)

  datatype State = State(
    db: Db,
    up: bool,
    clock: int,
    n: nat,          // events so far; also the serial of the next recording
    lastReset: nat,  // 1 + the event whose ClearChecklist landed last
    log: seq<Activation>)

  const INITIAL := State(FRESH_DB, false, 0, 0, 0, [])

  function Landed(ws: seq<Write>, cut: nat): seq<Write> {
    if cut < |ws| then ws[..cut] else ws
  }

  function Ran(s: State, ws: seq<Write>, cut: nat): State {
    s.(db := ApplyAll(s.db, Landed(ws, cut)),
       up := cut >= |ws|,
       lastReset := if ClearChecklist in Landed(ws, cut) then s.n + 1 else s.lastReset)
  }

  predicate Entered(s: State, e: Event) {
    e.Do? && e.op == Activate && s.up && s.db.installed && Accepts(s.db, Activate, s.clock + e.dt) && e.cut >= 1
  }

  function Act(s: State, e: Event): State {
    var now := s.clock + e.dt;
    match e
    case Do(op, _, cut) =>
      if s.up && Accepts(s.db, op, now) then Ran(s, Program(op, now, s.n), cut) else s
    case Boot(_, cut) => if s.up then s else Ran(s, BootProgram(s.db), cut)
    case Kill(_) => s.(up := false)
  }

  function Next(s: State, e: Event): State {
    var now := s.clock + e.dt;
    Act(s, e).(
      clock := now,
      n := s.n + 1,
      log := if Entered(s, e) then s.log + [Activation(s.n, now, s.db.steps, s.lastReset, e.cut)] else s.log)
  }

  function Run(es: seq<Event>): State {
    if es == [] then INITIAL else Next(Run(es[..|es| - 1]), es[|es| - 1])
  }

  // ---------------------------------------------------------------------------
  // Invariants of every reachable state
  // ---------------------------------------------------------------------------

  /** Between two operations of a running process. */
  ghost predicate Safe(s: State) {
    && (!s.db.installed ==> s.db.mode == Paper)
    && (s.up ==>
         && (s.db.stop ==> s.db.mode == Paper)
         && (s.db.mode == Live ==> s.db.activatedAt.Some?))
  }

  ghost predicate GoodActivation(a: Activation, n: nat) {
    a.event < n && forall step: Step ::
      && step in a.stamps
      && 0 <= a.at - a.stamps[step].at <= STEP_TTL_MS
      && a.since <= a.stamps[step].serial < a.event
  }

  ghost predicate Disjoint(a: map<Step, Stamp>, b: map<Step, Stamp>) {
    forall x, y :: x in a && y in b ==> a[x].serial != b[y].serial
  }

  ghost predicate Recorded(s: State) {
    && s.lastReset <= s.n
    && (forall step :: step in s.db.steps ==>
          s.db.steps[step].at <= s.clock && s.lastReset <= s.db.steps[step].serial < s.n)
    && (forall i :: 0 <= i < |s.log| ==> GoodActivation(s.log[i], s.n))
    && (forall i :: 0 <= i < |s.log| && s.log[i].cut >= 2 ==> Disjoint(s.log[i].stamps, s.db.steps))
    && (forall i, j :: 0 <= i < j < |s.log| && s.log[i].cut >= 2 ==> Disjoint(s.log[i].stamps, s.log[j].stamps))
  }

  /** Which database a landed prefix leaves, spelled out for the programs that have more than one statement. */
  lemma Prefixes(db: Db, op: Op, now: int, serial: nat, cut: nat)
    ensures
      var ws := Program(op, now, serial);
      var db' := ApplyAll(db, Landed(ws, cut));
      && (cut == 0 ==> db' == db)
      && (cut >= |ws| && |ws| == 1 ==> db' == Apply(db, ws[0]))
      && (cut == 1 && |ws| > 1 ==> db' == Apply(db, ws[0]))
      && (cut >= 2 && |ws| == 2 ==> db' == Apply(Apply(db, ws[0]), ws[1]))
      && (cut == 2 && |ws| == 3 ==> db' == Apply(Apply(db, ws[0]), ws[1]))
      && (cut >= 3 && |ws| == 3 ==> db' == Apply(Apply(Apply(db, ws[0]), ws[1]), ws[2]))
      && (ClearChecklist in Landed(ws, cut) <==>
            ((op == SetStop(true) && cut >= 3) || (op.Activate? && cut >= 2) || (op.Revert? && cut >= 2)))
  {
    var ws := Program(op, now, serial);
    var ls := Landed(ws, cut);
    if |ls| == 1 {
      assert ls == [ws[0]] && ls[1..] == [];
    } else if |ls| == 2 {
      assert ls == [ws[0], ws[1]];
      ApplyTwo(db, ws[0], ws[1]);
    } else if |ls| == 3 {
      assert ls == [ws[0], ws[1], ws[2]];
      ApplyThree(db, ws[0], ws[1], ws[2]);
    }
  }

  function InMode(db: Db, m: Mode): Db {
    if db.installed then db.(mode := m) else db
  }

  function Cleared(db: Db): Db {
    db.(steps := map[], activatedAt := None)
  }

  /** An engaged stop: the switch, then the mode, then the checklist. */
  function StopLanded(db: Db, cut: nat): Db {
    var stopped := db.(stop := true);
    if cut == 0 then db
    else if cut == 1 then stopped
    else if cut == 2 then InMode(stopped, Paper)
    else Cleared(InMode(stopped, Paper))
  }

  /** An activation: the mode, then the steps it consumes, then its stamp. */
  function ActivationLanded(db: Db, now: int, cut: nat): Db {
    var live := InMode(db, Live);
    if cut == 0 then db
    else if cut == 1 then live
    else if cut == 2 then Cleared(live)
    else Cleared(live).(activatedAt := Some(now))
  }

  /** What a death after so many statements of an operation leaves, in full. */
  lemma LandedLeaves(db: Db, op: Op, now: int, serial: nat, cut: nat)
    ensures var after := ApplyAll(db, Landed(Program(op, now, serial), cut));
      && (cut == 0 ==> after == db)
      && (op == SetStop(true) ==> after == StopLanded(db, cut))
      && (op.Activate? ==> after == ActivationLanded(db, now, cut))
      && (op.Revert? && cut > 0 ==> after == if cut == 1 then InMode(db, Paper) else Cleared(InMode(db, Paper)))
      && (op == SetStop(false) && cut > 0 ==> after == db.(stop := false))
      && (op.SetPause? && cut > 0 ==> after == db.(pause := op.paused))
      && (op.Record? && cut > 0 ==> after == db.(steps := db.steps[op.step := Stamp(now, serial)]))
      && (op.CreateInstallation? && cut > 0 ==> after == db.(installed := true, mode := Paper))
  {
    Prefixes(db, op, now, serial, cut);
  }

  /** The same for a boot: a database found LIVE drops to PAPER first and loses its checklist second. */
  lemma BootLeaves(db: Db, cut: nat)
    ensures ApplyAll(db, Landed(BootProgram(db), cut)) ==
      if db.mode == Paper || cut == 0 then db
      else if cut == 1 then InMode(db, Paper) else Cleared(InMode(db, Paper))
  {
    BootPrefixes(db, cut);
  }

  lemma BootPrefixes(db: Db, cut: nat)
    ensures
      var ws := BootProgram(db);
      var db' := ApplyAll(db, Landed(ws, cut));
      && (cut == 0 || db.mode == Paper ==> db' == db)
      && (db.mode == Live && cut == 1 ==> db' == Apply(db, PutMode(Paper)))
      && (db.mode == Live && cut >= 2 ==> db' == Apply(Apply(db, PutMode(Paper)), ClearChecklist))
      && (ClearChecklist in Landed(ws, cut) <==> db.mode == Live && cut >= 2)
  {
    var ls := Landed(BootProgram(db), cut);
    if |ls| == 1 {
      assert ls[1..] == [];
    } else if |ls| == 2 {
      assert ls == [PutMode(Paper), ClearChecklist];
      ApplyTwo(db, PutMode(Paper), ClearChecklist);
    }
  }

  lemma SafeStep(s: State, e: Event)
    requires Safe(s)
    ensures Safe(Next(s, e))
  {
    match e
    case Do(op, dt, cut) => Prefixes(s.db, op, s.clock + dt, s.n, cut);
    case Boot(_, cut) => BootPrefixes(s.db, cut);
    case Kill(_) =>
  }

  /** The log holds the switches to LIVE: from PAPER, an event is logged exactly when it leaves the database LIVE. */
  lemma SwitchIsLogged(s: State, e: Event)
    requires Safe(s) && s.db.mode == Paper
    ensures var t := Next(s, e);
      if t.db.mode == Live then |t.log| == |s.log| + 1 && t.log[|s.log|].event == s.n && t.log[|s.log|].stamps == s.db.steps
      else t.log == s.log
  {
    hide Accepts;
    match e
    case Do(op, dt, cut) => Prefixes(s.db, op, s.clock + dt, s.n, cut);
    case Boot(_, cut) => BootPrefixes(s.db, cut);
    case Kill(_) =>
  }

  lemma EntryIsGood(s: State, e: Event)
    requires Recorded(s) && Entered(s, e)
    ensures GoodActivation(Activation(s.n, s.clock + e.dt, s.db.steps, s.lastReset, e.cut), s.n + 1)
  {
    forall step: Step
      ensures step in s.db.steps && s.clock + e.dt - s.db.steps[step].at <= STEP_TTL_MS
    {
      assert Fresh(s.db, step, s.clock + e.dt);
    }
  }

  /** An event leaves the checklist, clears it, or stamps one step; consuming an activation clears it. */
  lemma ChecklistMoves(s: State, e: Event)
    ensures var t := Next(s, e);
      || (t.db.steps == s.db.steps && t.lastReset == s.lastReset && !(Entered(s, e) && e.cut >= 2))
      || (t.db.steps == map[] && t.lastReset == s.n + 1)
      || (!Entered(s, e) && t.lastReset == s.lastReset
          && exists step :: t.db.steps == Recording(s.db.steps, step, Stamp(t.clock, s.n)))
  {
    match e {
      case Do(op, dt, cut) => Prefixes(s.db, op, s.clock + dt, s.n, cut);
      case Boot(_, cut) => BootPrefixes(s.db, cut);
      case Kill(_) =>
    }
  }

  lemma RecordedStep(s: State, e: Event)
    requires Recorded(s)
    ensures Recorded(Next(s, e))
  {
    hide Act, Accepts, GoodActivation, Disjoint;
    ChecklistMoves(s, e);
    var t := Next(s, e);
    assert t.log == if Entered(s, e) then s.log + [Activation(s.n, t.clock, s.db.steps, s.lastReset, e.cut)] else s.log;
    if Entered(s, e) {
      EntryIsGood(s, e);
    }
    forall i | 0 <= i < |t.log| ensures GoodActivation(t.log[i], t.n) {
      if i < |s.log| {
        StillGood(s.log[i], s.n);
      }
    }
    forall i | 0 <= i < |t.log| && t.log[i].cut >= 2 ensures Disjoint(t.log[i].stamps, t.db.steps) {
      if t.db.steps == map[] {
        EmptyDisjoint(t.log[i].stamps);
      } else {
        DisjointGrows(t.log[i], s.n, s.db.steps, t.clock);
      }
    }
    assert forall i, j :: 0 <= i < j < |t.log| && t.log[i].cut >= 2 ==> Disjoint(t.log[i].stamps, t.log[j].stamps);
  }

  lemma StillGood(a: Activation, n: nat)
    requires GoodActivation(a, n)
    ensures GoodActivation(a, n + 1)
  {
  }

  lemma EmptyDisjoint(a: map<Step, Stamp>)
    ensures Disjoint(a, map[])
  {
  }

  /** A new recording carries a serial no earlier activation can hold. */
  lemma DisjointGrows(a: Activation, n: nat, steps: map<Step, Stamp>, now: int)
    requires GoodActivation(a, n) && Disjoint(a.stamps, steps)
    ensures forall step :: Disjoint(a.stamps, Recording(steps, step, Stamp(now, n)))
  {
  }

  /**
   * On every run, whatever statement a death fell between: a running process is never LIVE
   * under an emergency stop nor LIVE without an activation stamp; every switch to LIVE rested
   * on six recordings of the last ten minutes, all newer than the reset before it; and a
   * recording an activation consumed is never used again.
   */
  lemma {:induction false} EveryRun(es: seq<Event>)
    ensures Safe(Run(es)) && Recorded(Run(es))
  {
    if es != [] {
      EveryRun(es[..|es| - 1]);
      SafeStep(Run(es[..|es| - 1]), es[|es| - 1]);
      RecordedStep(Run(es[..|es| - 1]), es[|es| - 1]);
    }
  }

  // ---------------------------------------------------------------------------
  // Sessions
  // ---------------------------------------------------------------------------

  /** Event j switched a running process to LIVE and ran to its end: no stop, no pause, six fresh steps. */
  ghost predicate ActivatesAt(es: seq<Event>, j: nat)
    requires j < |es|
  {
    && es[j].Do? && es[j].op == Activate && es[j].cut >= 3
    && ActivatesFrom(Run(es[..j]), es[j].dt)
  }

  ghost predicate ActivatesFrom(s: State, dt: nat) {
    && s.up && !s.db.stop && !s.db.pause
    && Accepts(s.db, Activate, s.clock + dt)
  }

  /** Not the two operations that end a session. */
  predicate Quiet(e: Event) {
    !(e.Do? && (e.op == SetStop(true) || e.op == Revert))
  }

  /** Activated at j, and since then no stop, no revert and no moment without a running process. */
  ghost predicate OpenSession(es: seq<Event>, j: nat) {
    && j < |es|
    && ActivatesAt(es, j)
    && QuietSince(es, j)
    && UpSince(es, j)
  }

  ghost predicate QuietSince(es: seq<Event>, j: nat) {
    forall m :: j < m < |es| ==> Quiet(es[m])
  }

  ghost predicate UpSince(es: seq<Event>, j: nat) {
    forall m :: j < m <= |es| ==> UpAfter(es, m)
  }

  ghost predicate UpAfter(es: seq<Event>, m: nat)
    requires m <= |es|
  {
    Run(es[..m]).up
  }

  /** The only two ways to be LIVE after an event. */
  lemma LiveAfter(s: State, e: Event)
    requires Safe(s)
    requires Next(s, e).up && Next(s, e).db.mode == Live
    ensures
      || (s.up && s.db.mode == Live && Quiet(e))
      || (e.Do? && e.op == Activate && e.cut >= 3 && ActivatesFrom(s, e.dt))
  {
    match e
    case Do(op, dt, cut) => Prefixes(s.db, op, s.clock + dt, s.n, cut);
    case Boot(_, cut) => BootPrefixes(s.db, cut);
    case Kill(_) =>
  }

  lemma ActivatesGrows(es: seq<Event>, j: nat)
    requires j < |es| - 1 && ActivatesAt(es[..|es| - 1], j)
    ensures ActivatesAt(es, j)
  {
    assert es[..|es| - 1][..j] == es[..j];
  }

  lemma QuietGrows(es: seq<Event>, j: nat)
    requires es != [] && QuietSince(es[..|es| - 1], j) && Quiet(es[|es| - 1])
    ensures QuietSince(es, j)
  {
    hide Quiet;
    var k := |es| - 1;
    forall m | j < m < |es| ensures Quiet(es[m]) {
      assert m < k ==> es[m] == es[..k][m];
    }
  }

  lemma UpGrows(es: seq<Event>, j: nat)
    requires es != [] && UpSince(es[..|es| - 1], j) && Run(es).up
    ensures UpSince(es, j)
  {
    hide Run;
    var k := |es| - 1;
    forall m | j < m <= |es| ensures UpAfter(es, m) {
      if m <= k {
        assert UpAfter(es[..k], m);
        assert es[..k][..m] == es[..m];
      } else {
        assert es[..m] == es;
      }
    }
  }

  lemma SessionGrows(es: seq<Event>, j: nat)
    requires es != []
    requires OpenSession(es[..|es| - 1], j)
    requires Run(es).up && Quiet(es[|es| - 1])
    ensures OpenSession(es, j)
  {
    hide ActivatesAt, QuietSince, UpSince, Run, Quiet;
    ActivatesGrows(es, j);
    QuietGrows(es, j);
    UpGrows(es, j);
  }

  /** A LIVE process is inside a session: one whole activation, and no stop, revert or death since. */
  lemma {:induction false} LiveMeansSession(es: seq<Event>) returns (j: nat)
    requires Run(es).up && Run(es).db.mode == Live
    ensures OpenSession(es, j)
  {
    var k := |es| - 1;
    var before := es[..k];
    EveryRun(before);
    LiveAfter(Run(before), es[k]);
    if Run(before).up && Run(before).db.mode == Live && Quiet(es[k]) {
      j := LiveMeansSession(before);
      SessionGrows(es, j);
    } else {
      j := k;
      assert es[..|es|] == es;
    }
  }

  // ---------------------------------------------------------------------------
  // Which recordings two activations can share
  // ---------------------------------------------------------------------------

  lemma {:induction false} EventCount(es: seq<Event>)
    ensures Run(es).n == |es|
  {
    if es != [] {
      EventCount(es[..|es| - 1]);
    }
  }

  /** Event m, whatever it was, cleared the checklist. */
  ghost predicate ResetLands(es: seq<Event>, m: nat)
    requires m < |es|
  {
    Run(es[..m + 1]).lastReset == m + 1
  }

  /** Event m recorded the step. */
  ghost predicate StepLands(es: seq<Event>, m: nat, step: Step)
    requires m < |es|
  {
    var steps := Run(es[..m + 1]).db.steps;
    step in steps && steps[step].serial == m
  }

  /** The log of a run grows with its events, and an entry is of the event that logged it. */
  lemma {:induction false} LogGrows(es: seq<Event>, k: nat)
    requires k <= |es|
    ensures Run(es[..k]).log <= Run(es).log
    ensures forall i :: |Run(es[..k]).log| <= i < |Run(es).log| ==> k <= Run(es).log[i].event < |es|
  {
    if k == |es| {
      assert es[..k] == es;
    } else {
      var before := es[..|es| - 1];
      assert before[..k] == es[..k];
      LogGrows(before, k);
      EventCount(before);
      hide Act, Accepts;
    }
  }

  /** One event between two states: it clears the checklist, or keeps every recording but the one it makes. */
  lemma OneEvent(s: State, e: Event)
    ensures var t := Next(s, e);
      && (t.lastReset == s.lastReset || (t.lastReset == s.n + 1 && t.db.steps == map[]))
      && (t.lastReset != s.n + 1 ==> forall step :: step in s.db.steps ==> step in t.db.steps)
      && (forall step :: step in t.db.steps ==>
            (step in s.db.steps && t.db.steps[step] == s.db.steps[step]) || t.db.steps[step].serial == s.n)
  {
    hide Act, Entered;
    ChecklistMoves(s, e);
  }

  /** The recording of a step at q, against the one at p and the events in between. */
  ghost predicate Carried(es: seq<Event>, p: nat, q: nat, step: Step)
    requires p <= q <= |es|
  {
    var s, t := Run(es[..p]).db.steps, Run(es[..q]).db.steps;
    && (step in t && t[step].serial < p ==> step in s && t[step] == s[step])
    && (step in t && t[step].serial >= p ==> t[step].serial < q && StepLands(es, t[step].serial, step))
    && (step in t ==> forall m :: p <= m < q && ResetLands(es, m) ==> t[step].serial > m)
    && (step in t ==> forall m :: p <= m < q && StepLands(es, m, step) ==> t[step].serial >= m)
    && (step in s && (forall m :: p <= m < q ==> !ResetLands(es, m)) ==> step in t)
  }

  lemma OneEventAt(es: seq<Event>, k: nat, step: Step)
    requires k < |es|
    ensures var t, u := Run(es[..k]).db.steps, Run(es[..k + 1]).db.steps;
      && (step in t ==> t[step].serial < k)
      && (step in u ==> (step in t && u[step] == t[step]) || u[step].serial == k)
      && (ResetLands(es, k) ==> step !in u)
      && (!ResetLands(es, k) && step in t ==> step in u)
  {
    EventCount(es[..k]);
    EveryRun(es[..k]);
    assert es[..k + 1][..k] == es[..k] && es[..k + 1][k] == es[k];
    OneEvent(Run(es[..k]), es[k]);
    hide Next, Safe, GoodActivation, Disjoint;
  }

  lemma CarriedOne(es: seq<Event>, p: nat, k: nat, step: Step)
    requires p <= k < |es| && Carried(es, p, k, step)
    ensures Carried(es, p, k + 1, step)
  {
    hide Run;
    OneEventAt(es, k, step);
    var t, u := Run(es[..k]).db.steps, Run(es[..k + 1]).db.steps;
    assert StepLands(es, k, step) <==> step in u && u[step].serial == k;
    if forall m :: p <= m < k + 1 ==> !ResetLands(es, m) {
      assert !ResetLands(es, k);
    }
    hide StepLands, ResetLands;
  }

  lemma {:induction false} CarriedFrom(es: seq<Event>, p: nat, q: nat, step: Step)
    requires p <= q <= |es|
    ensures Carried(es, p, q, step)
  {
    if p == q {
      EventCount(es[..p]);
      EveryRun(es[..p]);
    } else {
      CarriedFrom(es, p, q - 1, step);
      CarriedOne(es, p, q - 1, step);
    }
  }

  /** The i-th switch to LIVE is the doing of one event, on the recordings that stood before it. */
  ghost predicate LoggedBy(es: seq<Event>, a: Activation) {
    a.event < |es| && a.stamps == Run(es[..a.event]).db.steps
  }

  lemma {:induction false} LogIsOfEvents(es: seq<Event>, i: nat)
    requires i < |Run(es).log|
    ensures LoggedBy(es, Run(es).log[i])
    ensures forall j :: i < j < |Run(es).log| ==> Run(es).log[i].event < Run(es).log[j].event
  {
    var k := |es| - 1;
    var before := es[..k];
    EventCount(before);
    EveryRun(es);
    EveryRun(before);
    if i < |Run(before).log| {
      LogIsOfEvents(before, i);
      assert before[..Run(es).log[i].event] == es[..Run(es).log[i].event];
    }
    hide Act, Accepts, Recorded, Safe;
    LastEntry(Run(before), es[k]);
    hide Next;
    forall j | i < j < |Run(es).log| ensures Run(es).log[i].event < Run(es).log[j].event {
      if j == |Run(before).log| {
        LogIsEarlier(before, i);
      }
    }
  }

  lemma LastEntry(s: State, e: Event)
    ensures Next(s, e).log == s.log || exists a :: Next(s, e).log == s.log + [a] && a.event == s.n && a.stamps == s.db.steps
  {
    hide Act, Accepts;
  }

  lemma LogIsEarlier(es: seq<Event>, i: nat)
    requires i < |Run(es).log|
    ensures Run(es).log[i].event < |es|
  {
    EveryRun(es);
    EventCount(es);
    assert GoodActivation(Run(es).log[i], Run(es).n);
  }

  /** A recording is common to both. */
  ghost predicate Shares(a: Activation, b: Activation) {
    exists step: Step :: step in a.stamps && step in b.stamps && a.stamps[step] == b.stamps[step]
  }

  ghost predicate NoReset(es: seq<Event>, p: nat, q: nat)
    requires p <= q <= |es|
  {
    forall m :: p <= m < q ==> !ResetLands(es, m)
  }

  ghost predicate NotRecorded(es: seq<Event>, p: nat, q: nat, step: Step)
    requires p <= q <= |es|
  {
    forall m :: p <= m < q ==> !StepLands(es, m, step)
  }

  ghost predicate SomeNotRecorded(es: seq<Event>, p: nat, q: nat)
    requires p <= q <= |es|
  {
    exists step :: NotRecorded(es, p, q, step)
  }

  /** One step: its two recordings are the same exactly when nothing reset or recorded it in between. */
  lemma SameStampIff(es: seq<Event>, p: nat, q: nat, step: Step)
    requires p <= q <= |es|
    requires var s, t := Run(es[..p]).db.steps, Run(es[..q]).db.steps; step in s && step in t
    ensures var s, t := Run(es[..p]).db.steps, Run(es[..q]).db.steps;
      && s[step].serial < p
      && (t[step].serial < p ==> t[step] == s[step])
      && (t[step].serial < p <==> NoReset(es, p, q) && NotRecorded(es, p, q, step))
  {
    CarriedFrom(es, p, q, step);
    EventCount(es[..p]);
    EveryRun(es[..p]);
    hide Run, Safe, GoodActivation, Disjoint, ResetLands, StepLands;
    var t := Run(es[..q]).db.steps;
    if t[step].serial >= p {
      assert StepLands(es, t[step].serial, step);
    }
  }

  /**
   * Two switches to LIVE share a recording if and only if no reset landed from the first to the second and some
   * step was not recorded again in between. Nothing else can make one recording serve twice.
   */
  lemma SharedIff(es: seq<Event>, i: nat, j: nat)
    requires i < j < |Run(es).log|
    ensures var a, b := Run(es).log[i], Run(es).log[j];
      && a.event < b.event < |es|
      && (Shares(a, b) <==> !Disjoint(a.stamps, b.stamps))
      && (Shares(a, b) <==> NoReset(es, a.event, b.event) && SomeNotRecorded(es, a.event, b.event))
  {
    var a, b := Run(es).log[i], Run(es).log[j];
    LogIsOfEvents(es, i);
    LogIsOfEvents(es, j);
    EveryRun(es);
    assert GoodActivation(a, Run(es).n) && GoodActivation(b, Run(es).n);
    hide Run, Recorded, Safe, NoReset, NotRecorded;
    forall step: Step
      ensures step in a.stamps && step in b.stamps
      ensures a.stamps[step].serial < a.event
      ensures b.stamps[step].serial < a.event ==> b.stamps[step] == a.stamps[step]
      ensures b.stamps[step].serial < a.event <==>
        NoReset(es, a.event, b.event) && NotRecorded(es, a.event, b.event, step)
    {
      SameStampIff(es, a.event, b.event, step);
    }
  }

  /** The switch rests on a recording made before event k. */
  ghost predicate RestsOnOlder(a: Activation, k: nat) {
    exists step: Step :: step in a.stamps && a.stamps[step].serial < k
  }

  /**
   * A switch to LIVE rests on a recording older than an earlier event if and only if no reset landed from that
   * event on and some step was not recorded from it on.
   */
  lemma OlderRecordingIff(es: seq<Event>, k: nat, j: nat)
    requires j < |Run(es).log| && k <= Run(es).log[j].event
    ensures var b := Run(es).log[j];
      && b.event < |es|
      && (RestsOnOlder(b, k) <==> NoReset(es, k, b.event) && SomeNotRecorded(es, k, b.event))
  {
    var b := Run(es).log[j];
    LogIsOfEvents(es, j);
    EveryRun(es);
    assert GoodActivation(b, Run(es).n);
    hide Run, Recorded, Safe, NoReset, NotRecorded;
    forall step: Step
      ensures step in b.stamps
      ensures b.stamps[step].serial < k <==> NoReset(es, k, b.event) && NotRecorded(es, k, b.event, step)
    {
      OlderStampIff(es, k, b.event, step);
    }
  }

  lemma OlderStampIff(es: seq<Event>, k: nat, q: nat, step: Step)
    requires k <= q <= |es| && step in Run(es[..q]).db.steps
    ensures Run(es[..q]).db.steps[step].serial < k <==> NoReset(es, k, q) && NotRecorded(es, k, q, step)
  {
    CarriedFrom(es, k, q, step);
    hide Run, ResetLands, StepLands;
    var t := Run(es[..q]).db.steps;
    if t[step].serial >= k {
      assert StepLands(es, t[step].serial, step);
    }
  }

  /** A reset is a fresh start: whatever switches to LIVE after it rests on recordings made after it. */
  lemma ResetStartsOver(es: seq<Event>, k: nat, j: nat)
    requires k < |es| && ResetLands(es, k) && j < |Run(es).log| && k < Run(es).log[j].event
    ensures forall step: Step :: step in Run(es).log[j].stamps && k < Run(es).log[j].stamps[step].serial
    ensures forall i :: 0 <= i < |Run(es).log| && Run(es).log[i].event <= k ==>
      Disjoint(Run(es).log[i].stamps, Run(es).log[j].stamps)
  {
    var b := Run(es).log[j];
    LogIsOfEvents(es, j);
    EveryRun(es);
    assert GoodActivation(b, Run(es).n);
    forall step: Step ensures step in b.stamps && k < b.stamps[step].serial {
      CarriedFrom(es, k, b.event, step);
    }
    forall i | 0 <= i < |Run(es).log| && Run(es).log[i].event <= k
      ensures Disjoint(Run(es).log[i].stamps, b.stamps)
    {
      assert GoodActivation(Run(es).log[i], Run(es).n);
    }
  }

  /** Event k engages the emergency stop in a running process, which may die inside it. */
  ghost predicate Stops(es: seq<Event>, k: nat) {
    k < |es| && es[k].Do? && es[k].op == SetStop(true) && Run(es[..k]).up
  }

  /** A stop records nothing, and it resets exactly when all three of its writes land. */
  lemma StopLands(es: seq<Event>, k: nat)
    requires Stops(es, k)
    ensures ResetLands(es, k) <==> es[k].cut >= 3
    ensures forall step :: !StepLands(es, k, step)
  {
    var s := Run(es[..k]);
    assert es[..k + 1][..k] == es[..k] && es[..k + 1][k] == es[k];
    EventCount(es[..k]);
    EveryRun(es[..k]);
    Prefixes(s.db, es[k].op, s.clock + es[k].dt, s.n, es[k].cut);
    StopKeepsSteps(s, es[k]);
    hide Next, Safe, GoodActivation, Disjoint;
  }

  lemma StopKeepsSteps(s: State, e: Event)
    requires e.Do? && e.op == SetStop(true) && s.up && s.lastReset <= s.n
    ensures var t := Next(s, e);
      && (t.db.steps == s.db.steps || t.db.steps == map[])
      && (t.lastReset == s.n + 1 <==> e.cut >= 3)
  {
    Prefixes(s.db, e.op, s.clock + e.dt, s.n, e.cut);
  }

  lemma SplitFirst(es: seq<Event>, k: nat, q: nat)
    requires k < q <= |es|
    ensures NoReset(es, k, q) <==> !ResetLands(es, k) && NoReset(es, k + 1, q)
  {
    hide ResetLands;
  }

  lemma SplitStep(es: seq<Event>, k: nat, q: nat, step: Step)
    requires k < q <= |es| && !StepLands(es, k, step)
    ensures NotRecorded(es, k, q, step) <==> NotRecorded(es, k + 1, q, step)
  {
    hide StepLands;
  }

  lemma SplitRecorded(es: seq<Event>, k: nat, q: nat)
    requires k < q <= |es| && forall step :: !StepLands(es, k, step)
    ensures SomeNotRecorded(es, k, q) <==> SomeNotRecorded(es, k + 1, q)
  {
    hide NotRecorded, StepLands;
    if SomeNotRecorded(es, k, q) {
      var step :| NotRecorded(es, k, q, step);
      SplitStep(es, k, q, step);
    }
    if SomeNotRecorded(es, k + 1, q) {
      var k' := k + 1;
      var step :| NotRecorded(es, k', q, step);
      SplitStep(es, k, q, step);
    }
  }

  /**
   * What a stop, torn or whole, does to the checklist, exactly: a later switch to LIVE rests on a recording older
   * than the stop if and only if the stop died before its reset, no other reset landed since, and some step was
   * not recorded again.
   */
  lemma StopIsOutlivedIff(es: seq<Event>, k: nat, j: nat)
    requires Stops(es, k) && j < |Run(es).log| && k < Run(es).log[j].event
    ensures var b := Run(es).log[j];
      && b.event < |es|
      && (RestsOnOlder(b, k) <==>
            es[k].cut < 3 && NoReset(es, k + 1, b.event) && SomeNotRecorded(es, k + 1, b.event))
  {
    hide SomeNotRecorded, NoReset, StepLands, ResetLands;
    OlderRecordingIff(es, k, j);
    var b := Run(es).log[j];
    StopLands(es, k);
    SplitFirst(es, k, b.event);
    SplitRecorded(es, k, b.event);
  }

  /** So a stop whose three writes land is always a fresh start. */
  lemma StopRestartsChecklist(es: seq<Event>, k: nat, j: nat)
    requires Stops(es, k) && es[k].cut >= 3
    requires j < |Run(es).log| && k < Run(es).log[j].event
    ensures forall step: Step :: step in Run(es).log[j].stamps && k < Run(es).log[j].stamps[step].serial
  {
    StopLands(es, k);
    ResetStartsOver(es, k, j);
    EveryRun(es);
    assert GoodActivation(Run(es).log[j], Run(es).n);
  }

  /**
   * The ordinary crash: an activation dies after its mode write, and the next boot completes its demotion. The
   * recordings it rested on serve no later activation.
   */
  lemma DemotionSpendsRecordings(es: seq<Event>, k: nat, i: nat, j: nat)
    requires k < |es| && es[k].Boot? && es[k].cut >= 2 && !Run(es[..k]).up && Run(es[..k]).db.mode == Live
    requires i < |Run(es).log| && j < |Run(es).log| && Run(es).log[i].event <= k < Run(es).log[j].event
    ensures Disjoint(Run(es).log[i].stamps, Run(es).log[j].stamps)
  {
    var s := Run(es[..k]);
    assert es[..k + 1][..k] == es[..k];
    EventCount(es[..k]);
    BootPrefixes(s.db, es[k].cut);
    ResetStartsOver(es, k, j);
  }

  // ---------------------------------------------------------------------------
  // When an activation succeeds
  // ---------------------------------------------------------------------------

  /** Event k recorded the step in a running process. */
  ghost predicate Records(es: seq<Event>, k: nat, step: Step)
    requires k < |es|
  {
    es[k].Do? && es[k].op == Record(step) && es[k].cut >= 1 && Run(es[..k]).up
  }

  function ClockAt(es: seq<Event>, k: nat): int
    requires k < |es|
  {
    Run(es[..k + 1]).clock
  }

  /** A stamp is of an event that recorded the step, with no reset since. */
  ghost predicate StampStands(es: seq<Event>, q: nat, step: Step)
    requires q <= |es|
  {
    var t := Run(es[..q]).db.steps;
    step in t ==>
      var k := t[step].serial;
      k < q && Records(es, k, step) && t[step].at == ClockAt(es, k) && NoReset(es, k, q)
  }

  /** A recording with no reset since is still there, or a later one is. */
  ghost predicate RecordStands(es: seq<Event>, k: nat, q: nat, step: Step)
    requires k < q <= |es|
  {
    var s := Run(es[..q]);
    && ClockAt(es, k) <= s.clock
    && (Records(es, k, step) && NoReset(es, k, q) ==> step in s.db.steps && s.db.steps[step].at >= ClockAt(es, k))
  }

  lemma OneRecording(s: State, e: Event, step: Step)
    requires s.lastReset <= s.n
    ensures var t := Next(s, e);
      var records := e.Do? && e.op == Record(step) && e.cut >= 1 && s.up;
      && t.clock >= s.clock
      && (records ==> step in t.db.steps && t.db.steps[step] == Stamp(t.clock, s.n) && t.lastReset != s.n + 1)
      && (t.lastReset == s.n + 1 ==> step !in t.db.steps)
      && (!records && step in t.db.steps ==> step in s.db.steps && t.db.steps[step] == s.db.steps[step])
      && (!records && t.lastReset != s.n + 1 && step in s.db.steps ==> step in t.db.steps)
  {
    match e
    case Do(op, dt, cut) => Prefixes(s.db, op, s.clock + dt, s.n, cut);
    case Boot(_, cut) => BootPrefixes(s.db, cut);
    case Kill(_) =>
  }

  lemma RecordingAt(es: seq<Event>, q: nat, step: Step)
    requires q < |es|
    ensures var s, t := Run(es[..q]), Run(es[..q + 1]);
      && t.clock >= s.clock && ClockAt(es, q) == t.clock
      && (Records(es, q, step) ==> step in t.db.steps && t.db.steps[step] == Stamp(t.clock, q) && !ResetLands(es, q))
      && (ResetLands(es, q) ==> step !in t.db.steps)
      && (!Records(es, q, step) && step in t.db.steps ==> step in s.db.steps && t.db.steps[step] == s.db.steps[step])
      && (!Records(es, q, step) && !ResetLands(es, q) && step in s.db.steps ==> step in t.db.steps)
  {
    assert es[..q + 1][..q] == es[..q] && es[..q + 1][q] == es[q];
    EventCount(es[..q]);
    EveryRun(es[..q]);
    OneRecording(Run(es[..q]), es[q], step);
    assert Run(es[..q + 1]) == Next(Run(es[..q]), es[q]);
    hide Run, Next, Safe, GoodActivation, Disjoint;
  }

  lemma NoResetGrows(es: seq<Event>, k: nat, q: nat)
    requires k <= q < |es|
    ensures NoReset(es, k, q + 1) <==> NoReset(es, k, q) && !ResetLands(es, q)
  {
    hide ResetLands;
  }

  lemma StampStandsOne(es: seq<Event>, q: nat, step: Step)
    requires q < |es| && StampStands(es, q, step)
    ensures StampStands(es, q + 1, step)
  {
    RecordingAt(es, q, step);
    hide Run, Records, ResetLands, ClockAt, NoReset;
    NoResetGrows(es, q, q);
    NothingYet(es, q);
    var t := Run(es[..q + 1]).db.steps;
    if step in t && !Records(es, q, step) {
      NoResetGrows(es, t[step].serial, q);
    }
  }

  lemma RecordStandsOne(es: seq<Event>, k: nat, q: nat, step: Step)
    requires k < q < |es| && RecordStands(es, k, q, step)
    ensures RecordStands(es, k, q + 1, step)
  {
    RecordingAt(es, q, step);
    hide Run, Records, ResetLands, ClockAt, NoReset;
    NoResetGrows(es, k, q);
  }

  lemma NothingYet(es: seq<Event>, q: nat)
    requires q <= |es|
    ensures NoReset(es, q, q)
  {
  }

  lemma {:induction false} StampStandsAt(es: seq<Event>, q: nat, step: Step)
    requires q <= |es|
    ensures StampStands(es, q, step)
  {
    if q > 0 {
      StampStandsAt(es, q - 1, step);
      StampStandsOne(es, q - 1, step);
    } else {
      assert es[..0] == [];
    }
  }

  lemma {:induction false} RecordStandsAt(es: seq<Event>, k: nat, q: nat, step: Step)
    requires k < q <= |es|
    ensures RecordStands(es, k, q, step)
  {
    if q == k + 1 {
      RecordingAt(es, k, step);
      hide Run;
    } else {
      RecordStandsAt(es, k, q - 1, step);
      RecordStandsOne(es, k, q - 1, step);
    }
  }

  /** The step was recorded at most ten minutes ago, and nothing has cleared the checklist since. */
  ghost predicate RecentlyRecorded(es: seq<Event>, step: Step, now: int) {
    exists k :: 0 <= k < |es| && Records(es, k, step) && now - ClockAt(es, k) <= 600_000 && NoReset(es, k, |es|)
  }

  lemma FreshIff(es: seq<Event>, step: Step, now: int)
    ensures Fresh(Run(es).db, step, now) <==> RecentlyRecorded(es, step, now)
  {
    assert es[..|es|] == es;
    if Fresh(Run(es).db, step, now) {
      StampStandsAt(es, |es|, step);
      hide Run, Records, ClockAt, NoReset;
      var k := Run(es).db.steps[step].serial;
      assert Records(es, k, step);
    }
    if RecentlyRecorded(es, step, now) {
      hide Run, Records, ClockAt, NoReset;
      var k :| 0 <= k < |es| && Records(es, k, step) && now - ClockAt(es, k) <= 600_000 && NoReset(es, k, |es|);
      RecordStandsAt(es, k, |es|, step);
    }
  }

  ghost predicate AllRecent(es: seq<Event>, now: int) {
    forall step: Step :: RecentlyRecorded(es, step, now)
  }

  lemma AcceptsIff(es: seq<Event>, now: int)
    ensures Accepts(Run(es).db, Activate, now) <==> !Run(es).db.stop && !Run(es).db.pause && AllRecent(es, now)
  {
    hide Run, RecentlyRecorded, Fresh;
    forall step: Step ensures Fresh(Run(es).db, step, now) <==> RecentlyRecorded(es, step, now) {
      FreshIff(es, step, now);
    }
    var db := Run(es).db;
    if AllRecent(es, now) {
      assert forall step: Step :: Fresh(db, step, now) by {
        forall step: Step ensures Fresh(db, step, now) {
          assert RecentlyRecorded(es, step, now);
        }
      }
    } else {
      var step: Step :| !RecentlyRecorded(es, step, now);
      assert !Fresh(db, step, now);
    }
  }

  /**
   * An activation of an installed, running process succeeds if and only if no switch is engaged and each of the six
   * steps was recorded at most ten minutes ago with no reset since; then it is LIVE, and otherwise nothing changes.
   */
  lemma ActivatesIff(es: seq<Event>, dt: nat, cut: nat)
    requires Run(es).up && Run(es).db.installed && cut >= 3
    ensures var s, t := Run(es), Run(es + [Do(Activate, dt, cut)]);
      var now := s.clock + dt;
      var accepted := !s.db.stop && !s.db.pause && AllRecent(es, now);
      && (accepted ==> t.up && t.db.mode == Live && |t.log| == |s.log| + 1)
      && (!accepted ==> t.up && t.db == s.db && t.log == s.log)
  {
    hide AllRecent, Accepts, Next, Run;
    var s, e := Run(es), Do(Activate, dt, cut);
    OneMore(es, e);
    AcceptsIff(es, s.clock + dt);
    Activated(s, e);
  }

  lemma OneMore(es: seq<Event>, e: Event)
    ensures Run(es + [e]) == Next(Run(es), e)
  {
    assert (es + [e])[..|es|] == es;
  }

  lemma Activated(s: State, e: Event)
    requires s.up && s.db.installed && e.Do? && e.op == Activate && e.cut >= 3
    ensures var t := Next(s, e);
      if Accepts(s.db, Activate, s.clock + e.dt) then t.up && t.db.mode == Live && |t.log| == |s.log| + 1
      else t.up && t.db == s.db && t.log == s.log
  {
    hide Accepts;
    Prefixes(s.db, Activate, s.clock + e.dt, s.n, e.cut);
  }

  // ---------------------------------------------------------------------------
  // What a death inside a program can leave behind
  // ---------------------------------------------------------------------------

  function Follow(s: State, es: seq<Event>): State
    decreases |es|
  {
    if es == [] then s else Follow(Next(s, es[0]), es[1..])
  }

  lemma {:induction false} RunFollows(a: seq<Event>, b: seq<Event>)
    ensures Run(a + b) == Follow(Run(a), b)
    decreases |b|
  {
    if b == [] {
      assert a + b == a;
    } else {
      assert a + b == (a + [b[0]]) + b[1..];
      assert (a + [b[0]])[..|a|] == a;
      RunFollows(a + [b[0]], b[1..]);
    }
  }

  lemma FollowFour(s: State, a: Event, b: Event, c: Event, d: Event)
    ensures Follow(s, [a, b, c, d]) == Next(Next(Next(Next(s, a), b), c), d)
  {
    var s1 := Next(s, a);
    var s2 := Next(s1, b);
    var s3 := Next(s2, c);
    assert [a, b, c, d][1..] == [b, c, d] && [b, c, d][1..] == [c, d] && [c, d][1..] == [d] && [d][1..] == [];
    assert Follow(s3, [d]) == Next(s3, d);
    assert Follow(s2, [c, d]) == Follow(s3, [d]);
    assert Follow(s1, [b, c, d]) == Follow(s2, [c, d]);
  }

  /** A running, installed process with every step recorded and nothing switched yet. */
  ghost predicate Walked(es: seq<Event>) {
    Run(es).db.installed && ActivatesFrom(Run(es), 0) && Run(es).db.mode == Paper
  }

  lemma OneStatement(es: seq<Event>, op: Op)
    requires Run(es).up && Accepts(Run(es).db, op, Run(es).clock)
    requires |Program(op, Run(es).clock, Run(es).n)| == 1
    ensures Run(es + [Do(op, 0, 1)]).db == Apply(Run(es).db, Program(op, Run(es).clock, Run(es).n)[0])
    ensures Run(es + [Do(op, 0, 1)]).up && Run(es + [Do(op, 0, 1)]).clock == Run(es).clock
  {
    assert (es + [Do(op, 0, 1)])[..|es|] == es;
    Prefixes(Run(es).db, op, Run(es).clock, Run(es).n, 1);
  }

  lemma Installed() returns (es: seq<Event>)
    ensures var s := Run(es);
      s.up && s.clock == 0 && s.db.installed && !s.db.stop && !s.db.pause && s.db.mode == Paper
  {
    es := [Boot(0, 0)];
    BootPrefixes(FRESH_DB, 0);
    assert es[..0] == [];
    OneStatement(es, CreateInstallation);
    es := es + [Do(CreateInstallation, 0, 1)];
  }

  lemma RecordsOne(es: seq<Event>, step: Step) returns (more: seq<Event>)
    requires Run(es).up && Run(es).clock == 0
    ensures Run(more).up && Run(more).clock == 0
    ensures Run(more).db == Run(es).db.(steps := Run(more).db.steps)
    ensures Fresh(Run(more).db, step, 0)
    ensures forall other :: Fresh(Run(es).db, other, 0) ==> Fresh(Run(more).db, other, 0)
  {
    OneStatement(es, Record(step));
    more := es + [Do(Record(step), 0, 1)];
    hide Run;
  }

  lemma ChecklistCanBeWalked() returns (es: seq<Event>)
    ensures Walked(es)
  {
    hide Run, Fresh;
    es := Installed();
    es := RecordsOne(es, Acknowledged);
    es := RecordsOne(es, Reauthenticated);
    es := RecordsOne(es, RiskReviewed);
    es := RecordsOne(es, WalletFunded);
    es := RecordsOne(es, GasChecked);
    es := RecordsOne(es, AdapterChecked);
    AllSteps(Run(es).db);
  }

  lemma AllSteps(db: Db)
    requires Fresh(db, Acknowledged, 0) && Fresh(db, Reauthenticated, 0) && Fresh(db, RiskReviewed, 0)
    requires Fresh(db, WalletFunded, 0) && Fresh(db, GasChecked, 0) && Fresh(db, AdapterChecked, 0)
    requires !db.stop && !db.pause
    ensures Accepts(db, Activate, 0)
  {
    hide Fresh;
    forall step: Step ensures Fresh(db, step, 0) {
      match step
      case Acknowledged =>
      case Reauthenticated =>
      case RiskReviewed =>
      case WalletFunded =>
      case GasChecked =>
      case AdapterChecked =>
    }
  }

  lemma WholeActivation(c: State)
    requires c.up && c.db.installed && Accepts(c.db, Activate, c.clock)
    ensures var t := Next(c, Do(Activate, 0, 3));
      && t.up && t.db.mode == Live
      && t.log == c.log + [Activation(c.n, c.clock, c.db.steps, c.lastReset, 3)]
  {
    hide Accepts;
    Prefixes(c.db, Activate, c.clock, c.n, 3);
  }

  /**
   * From every walked checklist: a stop whose process dies between its mode write and its reset keeps the
   * recordings, and after a restart and a cleared stop they still switch to LIVE. `StopIsOutlivedIff`
   * gives the exact condition.
   */
  lemma TornStopKeepsChecklist(es: seq<Event>) returns (tail: seq<Event>)
    requires Walked(es)
    ensures tail != [] && tail[0] == Do(SetStop(true), 0, 2)
    ensures var s := Run(es + tail);
      && s.up && s.db.mode == Live
      && s.log == Run(es).log + [Activation(Run(es).n + 3, Run(es).clock, Run(es).db.steps, Run(es).lastReset, 3)]
  {
    hide Next, Follow, Run;
    var s := Run(es);
    tail := [Do(SetStop(true), 0, 2), Boot(0, 0), Do(SetStop(false), 0, 1), Do(Activate, 0, 3)];
    RunFollows(es, tail);
    FollowFour(s, tail[0], tail[1], tail[2], tail[3]);
    var c := AfterTornStop(s);
    SameChecklist(s.db, c.db, s.clock);
    WholeActivation(c);
  }

  lemma AfterTornStop(s: State) returns (c: State)
    requires s.up && s.db.installed
    ensures c == Next(Next(Next(s, Do(SetStop(true), 0, 2)), Boot(0, 0)), Do(SetStop(false), 0, 1))
    ensures c.db == s.db.(stop := false, mode := Paper)
    ensures c.up && c.clock == s.clock && c.n == s.n + 3 && c.lastReset == s.lastReset && c.log == s.log
  {
    var a := Next(s, Do(SetStop(true), 0, 2));
    Prefixes(s.db, SetStop(true), s.clock, s.n, 2);
    var b := Next(a, Boot(0, 0));
    BootPrefixes(a.db, 0);
    c := Next(b, Do(SetStop(false), 0, 1));
    Prefixes(b.db, SetStop(false), b.clock, b.n, 1);
  }

  lemma SameChecklist(a: Db, b: Db, now: int)
    requires a.steps == b.steps && !b.stop && !b.pause
    requires Accepts(a, Activate, now)
    ensures Accepts(b, Activate, now)
  {
    forall step: Step ensures Fresh(b, step, now) {
      assert Fresh(a, step, now);
    }
  }

  /**
   * From every walked checklist: the six recordings serve two switches to LIVE when the first dies right
   * after its mode write and the boot that should clear them dies after its own, so `cut >= 2` in
   * `Recorded` cannot be dropped.
   */
  lemma TornActivationSharesRecordings(es: seq<Event>) returns (tail: seq<Event>)
    requires Walked(es)
    ensures var log, log' := Run(es).log, Run(es + tail).log;
      && |log'| == |log| + 2
      && log'[|log|].cut == 1
      && log'[|log|].stamps == log'[|log| + 1].stamps
      && !Disjoint(log'[|log|].stamps, log'[|log| + 1].stamps)
  {
    hide Next, Follow, Run;
    var s := Run(es);
    tail := [Do(Activate, 0, 1), Boot(0, 1), Boot(0, 0), Do(Activate, 0, 3)];
    RunFollows(es, tail);
    FollowFour(s, tail[0], tail[1], tail[2], tail[3]);
    var c := AfterTornActivation(s);
    SameChecklist(s.db, c.db, s.clock);
    WholeActivation(c);
    NotDisjointFromItself(s.db, s.clock);
  }

  lemma NotDisjointFromItself(db: Db, now: int)
    requires Accepts(db, Activate, now)
    ensures !Disjoint(db.steps, db.steps)
  {
    assert Fresh(db, Acknowledged, now);
  }

  lemma AfterTornActivation(s: State) returns (c: State)
    requires s.db.installed && ActivatesFrom(s, 0) && s.db.mode == Paper
    ensures c == Next(Next(Next(s, Do(Activate, 0, 1)), Boot(0, 1)), Boot(0, 0))
    ensures c.db == s.db && c.up && c.clock == s.clock
    ensures c.log == s.log + [Activation(s.n, s.clock, s.db.steps, s.lastReset, 1)]
  {
    var a := Next(s, Do(Activate, 0, 1));
    Prefixes(s.db, Activate, s.clock, s.n, 1);
    var b := Next(a, Boot(0, 1));
    BootPrefixes(a.db, 1);
    c := Next(b, Boot(0, 0));
    BootPrefixes(b.db, 0);
  }
}
