/** The frame budget of one socket: fixed windows kept in the socket's attachment. */
module HubBudget {
  import opened Common

  const MINUTE: nat := 60_000
  const HOUR: nat := 60 * MINUTE

  datatype Kind = Frames | Notifies | Offers

  function Cap(k: Kind): nat {
    match k case Frames => 60 case Notifies => 30 case Offers => 5
  }

  function Window(k: Kind): (w: nat)
    ensures w > 0
  {
    match k case Notifies => HOUR case _ => MINUTE
  }

  datatype Budget = Budget(minuteStart: int, frames: nat, offers: nat, hourStart: int, notifies: nat)

  /** The start of the window a kind is counted in, and its count. */
  function Start(b: Budget, k: Kind): int {
    if k.Notifies? then b.hourStart else b.minuteStart
  }

  function Count(b: Budget, k: Kind): nat {
    match k case Frames => b.frames case Notifies => b.notifies case Offers => b.offers
  }

  function SpendBudget(budget: Option<Budget>, k: Kind, now: int): (Budget, bool) {
    var b := if budget.None? then Budget(now, 0, 0, now, 0) else budget.value;
    var m := if now - b.minuteStart >= MINUTE then b.(minuteStart := now, frames := 0, offers := 0) else b;
    var next := if now - m.hourStart >= HOUR then m.(hourStart := now, notifies := 0) else m;
    match k
    case Frames => (next.(frames := next.frames + 1), next.frames < Cap(Frames))
    case Notifies => (next.(notifies := next.notifies + 1), next.notifies < Cap(Notifies))
    case Offers => (next.(offers := next.offers + 1), next.offers < Cap(Offers))
  }

  datatype Attachment = Attachment(install: nat, connectedAt: int, hello: bool, budget: Option<Budget>)

  /** A frame as the decoder classes it. */
  datatype Frame = Binary | Malformed | Hello | PairOffer | PairRevoke | Reply | Notify

  datatype Message = Message(frame: Frame, now: int)

  datatype Decision = Decision(kind: Kind, at: int, allowed: bool)

  datatype Socket = Socket(att: Option<Attachment>, open: bool)

  function Charged(a: Attachment, k: Kind, now: int): Attachment {
    a.(budget := Some(SpendBudget(a.budget, k, now).0))
  }

  predicate Allows(a: Attachment, k: Kind, now: int) {
    SpendBudget(a.budget, k, now).1
  }

  function SecondKind(a: Attachment, f: Frame): Option<Kind> {
    if !a.hello then None
    else match f case Notify => Some(Notifies) case PairOffer => Some(Offers) case _ => None
  }

  /** What a message leaves in the attachment, and whether the socket is still open. */
  function Handled(s: Socket, m: Message): Socket {
    if s.att.None? then s.(open := false)
    else
      var a := Charged(s.att.value, Frames, m.now);
      if !Allows(s.att.value, Frames, m.now) then Socket(Some(a), false)
      else match SecondKind(a, m.frame)
        case Some(k) => Socket(Some(Charged(a, k, m.now)), s.open && Allows(a, k, m.now))
        case None => Socket(Some(if m.frame.Hello? then a.(hello := true) else a), s.open)
  }

  /** The charges it makes, in order. */
  function Decisions(s: Socket, m: Message): seq<Decision> {
    if s.att.None? then []
    else
      var a := Charged(s.att.value, Frames, m.now);
      var first := Decision(Frames, m.now, Allows(s.att.value, Frames, m.now));
      if !first.allowed then [first]
      else match SecondKind(a, m.frame)
        case Some(k) => [first, Decision(k, m.now, Allows(a, k, m.now))]
        case None => [first]
  }

  class HubSocket {
    var attachment: Option<Attachment>
    var open: bool

    function State(): Socket
      reads this
    {
      Socket(attachment, open)
    }

    constructor (install: nat, now: int)
      ensures State() == Socket(Some(Attachment(install, now, false, None)), true)
    {
      attachment, open := Some(Attachment(install, now, false, None)), true;
    }

    /** Charge and write back; on a breach the socket is closed and the caller must stop. */
    method Charge(a: Attachment, k: Kind, now: int) returns (r: Option<Attachment>)
      modifies this
      ensures attachment == Some(Charged(a, k, now))
      ensures r == if Allows(a, k, now) then attachment else None
      ensures open == (old(open) && Allows(a, k, now))
    {
      var (budget, allowed) := SpendBudget(a.budget, k, now);
      var next := a.(budget := Some(budget));
      attachment := Some(next);
      if allowed {
        return Some(next);
      }
      open := false;
      return None;
    }

    /**
     * Everything a message does before its first await, the hello write included. What follows the await only
     * sends frames and touches the database, so however handlers interleave, attachments change only here.
     */
    method WebSocketMessage(m: Message)
      modifies this
      ensures State() == Handled(old(State()), m)
    {
      if attachment.None? {
        open := false;
        return;
      }
      var a := Charge(attachment.value, Frames, m.now);
      if a.None? {
        return;
      }
      if m.frame.Binary? || m.frame.Malformed? {
        return;
      }
      if !m.frame.Hello? && !a.value.hello {
        return;
      }
      if m.frame.Notify? || m.frame.PairOffer? {
        a := Charge(a.value, if m.frame.Notify? then Notifies else Offers, m.now);
        if a.None? {
          return;
        }
      }
      if m.frame.Hello? {
        attachment := Some(a.value.(hello := true));
      }
    }
  }

  // ---------------------------------------------------------------------------
  // Runs
  // ---------------------------------------------------------------------------

  function Run(s: Socket, ms: seq<Message>): Socket {
    if ms == [] then s else Handled(Run(s, ms[..|ms| - 1]), ms[|ms| - 1])
  }

  function Log(s: Socket, ms: seq<Message>): seq<Decision> {
    if ms == [] then []
    else Log(s, ms[..|ms| - 1]) + Decisions(Run(s, ms[..|ms| - 1]), ms[|ms| - 1])
  }

  predicate Within(ms: seq<Message>, from: int, to: int) {
    forall i :: 0 <= i < |ms| ==> from <= ms[i].now < to
  }

  predicate Ordered(ms: seq<Message>) {
    forall i, j :: 0 <= i < j < |ms| ==> ms[i].now <= ms[j].now
  }

  /** Charges of a kind since a time, all of them or only those let through. */
  function Made(log: seq<Decision>, k: Kind, since: int): nat {
    if log == [] then 0
    else
      var d := log[|log| - 1];
      Made(log[..|log| - 1], k, since) + if d.kind == k && d.at >= since then 1 else 0
  }

  function Passed(log: seq<Decision>, k: Kind, since: int): nat {
    if log == [] then 0
    else
      var d := log[|log| - 1];
      Passed(log[..|log| - 1], k, since) + if d.kind == k && d.at >= since && d.allowed then 1 else 0
  }

  lemma Appended(log: seq<Decision>, d: Decision, k: Kind, since: int)
    ensures Made(log + [d], k, since) == Made(log, k, since) + if d.kind == k && d.at >= since then 1 else 0
    ensures Passed(log + [d], k, since) == Passed(log, k, since) + if d.kind == k && d.at >= since && d.allowed then 1 else 0
  {
    assert (log + [d])[..|log|] == log;
  }

  /**
   * A property of budget and log that every single charge keeps is kept by a message, whether it makes one
   * charge or two: this is where a lost write would show.
   */
  lemma MessageCharges(s: Socket, m: Message, log: seq<Decision>)
    requires s.att.Some?
    ensures var a := s.att.value;
      var after := Handled(s, m);
      var a1 := Charged(a, Frames, m.now);
      var log1 := log + [Decision(Frames, m.now, Allows(a, Frames, m.now))];
      && after.att.Some?
      && ((after.att.value.budget == a1.budget && log + Decisions(s, m) == log1)
          || exists k ::
              && after.att.value.budget == Charged(a1, k, m.now).budget
              && log + Decisions(s, m) == log1 + [Decision(k, m.now, Allows(a1, k, m.now))])
  {
    var a1 := Charged(s.att.value, Frames, m.now);
    var first := Decision(Frames, m.now, Allows(s.att.value, Frames, m.now));
    if first.allowed && SecondKind(a1, m.frame).Some? {
      var k := SecondKind(a1, m.frame).value;
      assert log + Decisions(s, m) == log + [first] + [Decision(k, m.now, Allows(a1, k, m.now))];
    }
  }

  // ---------------------------------------------------------------------------
  // Nothing is lost
  // ---------------------------------------------------------------------------

  /** The counter is the number of charges made since its window began, and the cap decided each of them. */
  predicate Exact(b: Option<Budget>, log: seq<Decision>, k: Kind, now: int) {
    if b.None? then log == []
    else
      && Start(b.value, k) <= now
      && (forall i :: 0 <= i < |log| ==> log[i].at < Start(b.value, k) + Window(k))
      && Made(log, k, Start(b.value, k)) == Count(b.value, k)
      && Passed(log, k, Start(b.value, k)) == Min(Count(b.value, k), Cap(k))
  }

  lemma {:induction false} NoneSince(log: seq<Decision>, k: Kind, since: int)
    requires forall i :: 0 <= i < |log| ==> log[i].at < since
    ensures Made(log, k, since) == 0 && Passed(log, k, since) == 0
  {
    if log != [] {
      NoneSince(log[..|log| - 1], k, since);
    }
  }

  /** What charging one kind does to the window and count of another, or of its own. */
  lemma Spent(b: Option<Budget>, j: Kind, k: Kind, now: int)
    ensures var next := SpendBudget(b, j, now).0;
      var rolls := b.None? || now - Start(b.value, k) >= (if k.Notifies? then 3_600_000 else 60_000);
      && Start(next, k) == (if rolls then now else Start(b.value, k))
      && Count(next, k) == (if rolls then 0 else Count(b.value, k)) + (if j == k then 1 else 0)
    ensures SpendBudget(b, k, now).1 <==>
      Count(SpendBudget(b, k, now).0, k) <= match k case Frames => 60 case Notifies => 30 case Offers => 5
  {
  }

  lemma ChargeKeepsExact(b: Option<Budget>, log: seq<Decision>, j: Kind, k: Kind, before: int, now: int)
    requires Exact(b, log, k, before) && before <= now
    ensures var (next, allowed) := SpendBudget(b, j, now);
      Exact(Some(next), log + [Decision(j, now, allowed)], k, now)
  {
    Spent(b, j, k, now);
    var (next, allowed) := SpendBudget(b, j, now);
    Appended(log, Decision(j, now, allowed), k, Start(next, k));
    if b.None? || now - Start(b.value, k) >= Window(k) {
      NoneSince(log, k, now);
    }
  }

  lemma MessageKeepsExact(s: Socket, m: Message, log: seq<Decision>, k: Kind, before: int)
    requires s.att.Some? && Exact(s.att.value.budget, log, k, before) && before <= m.now
    ensures var after := Handled(s, m);
      after.att.Some? && Exact(after.att.value.budget, log + Decisions(s, m), k, m.now)
  {
    MessageCharges(s, m, log);
    hide Handled, Decisions, Exact, SpendBudget;
    var a := s.att.value;
    var a1 := Charged(a, Frames, m.now);
    var log1 := log + [Decision(Frames, m.now, Allows(a, Frames, m.now))];
    ChargeKeepsExact(a.budget, log, Frames, k, before, m.now);
    forall j | true ensures Exact(Charged(a1, j, m.now).budget, log1 + [Decision(j, m.now, Allows(a1, j, m.now))], k, m.now) {
      ChargeKeepsExact(a1.budget, log1, j, k, m.now, m.now);
    }
  }

  function Fresh(install: nat, connectedAt: int): Socket {
    Socket(Some(Attachment(install, connectedAt, false, None)), true)
  }

  /**
   * On any run of messages of an accepted socket, under a clock that does not go back, each counter is exactly
   * the number of charges of its kind since its window began, and exactly the first cap of them were let through.
   */
  lemma {:induction false} NoChargeIsLost(install: nat, connectedAt: int, ms: seq<Message>, k: Kind)
    requires Ordered(ms) && ms != []
    ensures var s := Run(Fresh(install, connectedAt), ms);
      && s.att.Some? && s.att.value.budget.Some?
      && Exact(s.att.value.budget, Log(Fresh(install, connectedAt), ms), k, ms[|ms| - 1].now)
  {
    var first := Fresh(install, connectedAt);
    var n := |ms| - 1;
    var before := Run(first, ms[..n]);
    if n == 0 {
      MessageKeepsExact(first, ms[0], [], k, ms[0].now);
      assert Log(first, ms[..0]) == [];
    } else {
      NoChargeIsLost(install, connectedAt, ms[..n], k);
      MessageKeepsExact(before, ms[n], Log(first, ms[..n]), k, ms[n - 1].now);
    }
  }

  // ---------------------------------------------------------------------------
  // Twice the cap
  // ---------------------------------------------------------------------------

  /** Within one window length from t: one window's cap before the counter last started over, and its own count. */
  predicate Bounded(b: Option<Budget>, passed: nat, k: Kind, t: int) {
    if b.None? then passed == 0
    else passed <= Min(Count(b.value, k), Cap(k)) + if Start(b.value, k) >= t then Cap(k) else 0
  }

  lemma ChargeKeepsBounded(b: Option<Budget>, passed: nat, j: Kind, k: Kind, t: int, now: int)
    requires Bounded(b, passed, k, t) && t <= now < t + Window(k)
    ensures var (next, allowed) := SpendBudget(b, j, now);
      Bounded(Some(next), passed + if j == k && allowed then 1 else 0, k, t)
  {
    Spent(b, j, k, now);
  }

  /** All that passed, whenever. */
  function Through(log: seq<Decision>, k: Kind): nat {
    if log == [] then 0
    else Through(log[..|log| - 1], k) + if log[|log| - 1].kind == k && log[|log| - 1].allowed then 1 else 0
  }

  lemma ThroughAppended(log: seq<Decision>, d: Decision, k: Kind)
    ensures Through(log + [d], k) == Through(log, k) + if d.kind == k && d.allowed then 1 else 0
  {
    assert (log + [d])[..|log|] == log;
  }

  lemma MessageKeepsBounded(s: Socket, m: Message, log: seq<Decision>, k: Kind, t: int)
    requires s.att.Some? && Bounded(s.att.value.budget, Through(log, k), k, t) && t <= m.now < t + Window(k)
    ensures var after := Handled(s, m);
      after.att.Some? && Bounded(after.att.value.budget, Through(log + Decisions(s, m), k), k, t)
  {
    MessageCharges(s, m, log);
    hide Handled, Decisions, Bounded, SpendBudget, Through;
    var a := s.att.value;
    var a1 := Charged(a, Frames, m.now);
    var first := Decision(Frames, m.now, Allows(a, Frames, m.now));
    ChargeKeepsBounded(a.budget, Through(log, k), Frames, k, t, m.now);
    ThroughAppended(log, first, k);
    forall j | true ensures
      Bounded(Charged(a1, j, m.now).budget, Through(log + [first] + [Decision(j, m.now, Allows(a1, j, m.now))], k), k, t)
    {
      ChargeKeepsBounded(a1.budget, Through(log + [first], k), j, k, t, m.now);
      ThroughAppended(log + [first], Decision(j, m.now, Allows(a1, j, m.now)), k);
    }
  }

  lemma {:induction false} BoundedRun(s: Socket, ms: seq<Message>, k: Kind, t: int)
    requires s.att.Some? && Within(ms, t, t + Window(k))
    ensures Run(s, ms).att.Some? && Bounded(Run(s, ms).att.value.budget, Through(Log(s, ms), k), k, t)
  {
    hide Handled, Decisions, Bounded;
    if ms == [] {
      NothingPassed(s.att.value.budget, k, t);
    } else {
      var n := |ms| - 1;
      BoundedRun(s, ms[..n], k, t);
      MessageKeepsBounded(Run(s, ms[..n]), ms[n], Log(s, ms[..n]), k, t);
    }
  }

  lemma NothingPassed(b: Option<Budget>, k: Kind, t: int)
    ensures Bounded(b, 0, k, t)
  {
  }

  /**
   * From any attachment a socket can hold, any half-open interval of one window length lets through at most
   * twice the cap: frames and offers by the minute, notifies by the hour.
   */
  lemma TwiceTheCapPerWindow(s: Socket, ms: seq<Message>, k: Kind, t: int)
    requires s.att.Some? && Within(ms, t, t + if k.Notifies? then 3_600_000 else 60_000)
    ensures Through(Log(s, ms), k) <= match k case Frames => 120 case Notifies => 60 case Offers => 10
  {
    BoundedRun(s, ms, k, t);
  }

  /** Frames of a kind from a greeted socket that the frame budget let through. */
  function Greeted(s: Socket, ms: seq<Message>, f: Frame): nat {
    if ms == [] then 0
    else
      var k := |ms| - 1;
      var before := Run(s, ms[..k]);
      Greeted(s, ms[..k], f)
        + if ms[k].frame == f && before.att.Some? && before.att.value.hello && Allows(before.att.value, Frames, ms[k].now)
          then 1 else 0
  }

  /** What one message charges, in full: its frame, and once more a greeted notify or offer the frame budget let through. */
  lemma MessageIsChargedAs(s: Socket, m: Message)
    requires s.att.Some?
    ensures var ds := Decisions(s, m);
      var passes := Allows(s.att.value, Frames, m.now);
      && |ds| == (if passes && s.att.value.hello && m.frame in {Notify, PairOffer} then 2 else 1)
      && ds[0] == Decision(Frames, m.now, passes)
      && (|ds| == 2 ==> ds[1].kind == (if m.frame.Notify? then Notifies else Offers) && ds[1].at == m.now)
    ensures var after := Handled(s, m);
      && after.att.Some? && after.att.value.install == s.att.value.install
      && (after.att.value.hello <==> s.att.value.hello || (m.frame.Hello? && Allows(s.att.value, Frames, m.now)))
      && (after.open <==> s.open && forall d :: d in Decisions(s, m) ==> d.allowed)
  {
  }

  /** A message on a socket without an attachment closes it and charges nothing. */
  lemma UnknownSocketCloses(s: Socket, m: Message)
    requires s.att.None?
    ensures Handled(s, m) == Socket(None, false) && Decisions(s, m) == []
  {
  }

  /** Notifies and offers are charged exactly once each when the socket is greeted and the frame passes, and never else. */
  lemma {:induction false} GreetedIsChargedOnce(s: Socket, ms: seq<Message>, since: int)
    requires s.att.Some? && forall i :: 0 <= i < |ms| ==> since <= ms[i].now
    ensures Run(s, ms).att.Some?
    ensures Made(Log(s, ms), Notifies, since) == Greeted(s, ms, Notify)
    ensures Made(Log(s, ms), Offers, since) == Greeted(s, ms, PairOffer)
  {
    hide SpendBudget, Allows, Handled, Decisions, Made;
    if ms == [] {
      NothingMade(Notifies, since);
      NothingMade(Offers, since);
    } else {
      var n := |ms| - 1;
      GreetedIsChargedOnce(s, ms[..n], since);
      ChargesAdd(Run(s, ms[..n]), ms[n], Log(s, ms[..n]), since);
    }
  }

  lemma NothingMade(k: Kind, since: int)
    ensures Made([], k, since) == 0
  {
  }

  lemma ChargesAdd(s: Socket, m: Message, log: seq<Decision>, since: int)
    requires s.att.Some? && since <= m.now
    ensures Handled(s, m).att.Some?
    ensures var log' := log + Decisions(s, m);
      var second := s.att.value.hello && Allows(s.att.value, Frames, m.now);
      && Made(log', Frames, since) == Made(log, Frames, since) + 1
      && Made(log', Notifies, since) == Made(log, Notifies, since) + (if second && m.frame.Notify? then 1 else 0)
      && Made(log', Offers, since) == Made(log, Offers, since) + (if second && m.frame.PairOffer? then 1 else 0)
  {
    MessageIsChargedAs(s, m);
    hide SpendBudget, Made, Decisions, Handled, Allows;
    var ds := Decisions(s, m);
    forall k | true ensures Made(log + [ds[0]], k, since) == Made(log, k, since) + if k.Frames? then 1 else 0 {
      Appended(log, ds[0], k, since);
    }
    if |ds| == 1 {
      assert log + ds == log + [ds[0]];
    } else {
      assert log + ds == log + [ds[0]] + [ds[1]];
      forall k | true
        ensures Made(log + ds, k, since) == Made(log + [ds[0]], k, since) + if k == ds[1].kind then 1 else 0
      {
        Appended(log + [ds[0]], ds[1], k, since);
      }
    }
  }

  function Sent(ms: seq<Message>, f: Frame): nat {
    if ms == [] then 0 else Sent(ms[..|ms| - 1], f) + if ms[|ms| - 1].frame == f then 1 else 0
  }

  /** Every message is charged as one frame, whatever it holds; only notifies and offers are charged again, once. */
  lemma {:induction false} EveryMessageIsOneFrame(s: Socket, ms: seq<Message>, since: int)
    requires s.att.Some? && forall i :: 0 <= i < |ms| ==> since <= ms[i].now
    ensures Run(s, ms).att.Some?
    ensures Made(Log(s, ms), Frames, since) == |ms|
    ensures Made(Log(s, ms), Notifies, since) <= Sent(ms, Notify)
    ensures Made(Log(s, ms), Offers, since) <= Sent(ms, PairOffer)
  {
    hide SpendBudget, Allows;
    if ms != [] {
      var n := |ms| - 1;
      EveryMessageIsOneFrame(s, ms[..n], since);
      ChargesAdd(Run(s, ms[..n]), ms[n], Log(s, ms[..n]), since);
    }
  }

  /** A socket is open only while no charge was refused: the first refusal closes it for good. */
  lemma {:induction false} OpenMeansNeverRefused(s: Socket, ms: seq<Message>)
    requires s.att.Some? && Run(s, ms).open
    ensures s.open && Run(s, ms).att.Some? && forall d :: d in Log(s, ms) ==> d.allowed
  {
    if ms != [] {
      OpenMeansNeverRefused(s, ms[..|ms| - 1]);
    }
  }
}
