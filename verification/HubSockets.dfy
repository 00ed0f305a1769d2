/** The hub's sockets and the alarm that sweeps them. */
module HubSockets {
  import opened Common

  const SWEEP: nat := 60_000
  const STALE: nat := 3 * 30_000 + 30_000
  const HELLO_GRACE: nat := 30_000

  /** `lastPong` is the time of the last heartbeat the platform answered; a closed socket may stay listed. */
  datatype Socket = Socket(install: nat, connectedAt: int, hello: bool, lastPong: Option<int>, open: bool)

  datatype Hub = Hub(sockets: seq<Socket>, alarm: Option<int>)

  const EMPTY := Hub([], None)

  function LastSeen(s: Socket): int {
    var pong := if s.lastPong.Some? then s.lastPong.value else 0;
    if pong > s.connectedAt then pong else s.connectedAt
  }

  function Superseded(s: Socket, install: nat): Socket {
    if s.install == install then s.(open := false) else s
  }

  function Swept(s: Socket, now: int): Socket {
    if now - LastSeen(s) > STALE then s.(open := false)
    else if !s.hello && now - s.connectedAt > HELLO_GRACE then s.(open := false)
    else s
  }

  predicate AnyOpen(sockets: seq<Socket>) {
    exists i :: 0 <= i < |sockets| && sockets[i].open
  }

  function SupersededAll(sockets: seq<Socket>, install: nat): (r: seq<Socket>)
    ensures |r| == |sockets| && forall i :: 0 <= i < |r| ==> r[i] == Superseded(sockets[i], install)
  {
    seq(|sockets|, i requires 0 <= i < |sockets| => Superseded(sockets[i], install))
  }

  function SweptAll(sockets: seq<Socket>, now: int): (r: seq<Socket>)
    ensures |r| == |sockets| && forall i :: 0 <= i < |r| ==> r[i] == Swept(sockets[i], now)
  {
    seq(|sockets|, i requires 0 <= i < |sockets| => Swept(sockets[i], now))
  }

  /** One event of the object; the platform's gates run each to its end before the next. */
  datatype Event =
    | Connect(install: nat, now: int)
    | Hello(socket: nat, now: int)
    | Pong(socket: nat, now: int)
    | Gone(socket: nat, now: int)         // closed by the peer, or by the hub for its budget
    | Revoke(install: nat, now: int)
    | Alarm(now: int)

  function Next(h: Hub, e: Event): Hub {
    match e
    case Connect(install, now) =>
      var joined := Socket(install, now, false, None, true);
      Hub(SupersededAll(h.sockets, install) + [joined], if h.alarm.None? then Some(now + SWEEP) else h.alarm)
    case Hello(s, _) => if s < |h.sockets| then h.(sockets := h.sockets[s := h.sockets[s].(hello := true)]) else h
    case Pong(s, now) => if s < |h.sockets| then h.(sockets := h.sockets[s := h.sockets[s].(lastPong := Some(now))]) else h
    case Gone(s, _) => if s < |h.sockets| then h.(sockets := h.sockets[s := h.sockets[s].(open := false)]) else h
    case Revoke(install, _) => h.(sockets := SupersededAll(h.sockets, install))
    case Alarm(now) =>
      var sockets := SweptAll(h.sockets, now);
      Hub(sockets, if AnyOpen(sockets) then Some(now + SWEEP) else None)
  }

  class HubObject {
    var sockets: seq<Socket>
    var alarm: Option<int>

    function State(): Hub
      reads this
    {
      Hub(sockets, alarm)
    }

    constructor ()
      ensures State() == EMPTY
    {
      sockets, alarm := [], None;
    }

    method CloseSockets(install: nat)
      modifies this`sockets
      ensures sockets == SupersededAll(old(sockets), install)
    {
      ghost var before := sockets;
      for i := 0 to |sockets|
        invariant |sockets| == |before|
        invariant forall j :: 0 <= j < |before| ==>
          sockets[j] == if j < i then Superseded(before[j], install) else before[j]
      {
        if sockets[i].install == install {
          sockets := sockets[i := sockets[i].(open := false)];
        }
      }
    }

    method EnsureAlarm(now: int)
      modifies this`alarm
      ensures alarm == if old(alarm).None? then Some(now + SWEEP) else old(alarm)
    {
      if alarm.None? {
        alarm := Some(now + SWEEP);
      }
    }

    /** Accept a connection: a new one supersedes the installation's old one. */
    method Fetch(install: nat, now: int)
      modifies this
      ensures State() == Next(old(State()), Connect(install, now))
    {
      CloseSockets(install);
      sockets := sockets + [Socket(install, now, false, None, true)];
      EnsureAlarm(now);
    }

    /** The alarm fires: it is spent, and set again only when a socket is left open. */
    method Alarm(now: int)
      modifies this
      ensures State() == Next(old(State()), Event.Alarm(now))
    {
      alarm := None;
      ghost var before := sockets;
      for i := 0 to |sockets|
        invariant |sockets| == |before| && alarm == None
        invariant forall j :: 0 <= j < |before| ==>
          sockets[j] == if j < i then Swept(before[j], now) else before[j]
      {
        var s := sockets[i];
        if now - LastSeen(s) > STALE {
          sockets := sockets[i := s.(open := false)];
          continue;
        }
        if !s.hello && now - s.connectedAt > HELLO_GRACE {
          sockets := sockets[i := s.(open := false)];
        }
      }
      assert sockets == SweptAll(before, now);
      var open := false;
      for i := 0 to |sockets|
        invariant open <==> exists j :: 0 <= j < i && sockets[j].open
      {
        if sockets[i].open {
          open := true;
        }
      }
      if open {
        alarm := Some(now + SWEEP);
      }
    }
  }

  // ---------------------------------------------------------------------------
  // Runs
  // ---------------------------------------------------------------------------

  function Run(es: seq<Event>): Hub {
    if es == [] then EMPTY else Next(Run(es[..|es| - 1]), es[|es| - 1])
  }

  /** The clock does not go back, the alarm fires when it is set for, or up to `late` after it, and nothing else comes after that. */
  predicate OnTime(es: seq<Event>, late: nat) {
    es == [] ||
    var k := |es| - 1;
    var before := Run(es[..k]);
    && OnTime(es[..k], late)
    && (k > 0 ==> es[k - 1].now <= es[k].now)
    && (before.alarm.Some? ==> es[k].now <= before.alarm.value + late)
    && (es[k].Alarm? ==> before.alarm.Some? && before.alarm.value <= es[k].now)
  }

  /** The hub is asked about a time no event has reached yet, with the alarm still on time. */
  predicate Now(es: seq<Event>, late: nat, now: int) {
    && OnTime(es, late)
    && (es != [] ==> es[|es| - 1].now <= now)
    && (Run(es).alarm.Some? ==> now <= Run(es).alarm.value + late)
  }

  /** Heard from in the last two minutes, and either greeted or connected in the last half minute. */
  predicate Healthy(s: Socket, now: int) {
    && (now - s.connectedAt <= 120_000 || now - (if s.lastPong.Some? then s.lastPong.value else 0) <= 120_000)
    && (s.hello || now - s.connectedAt <= 30_000)
  }

  /** The events that leave socket i as open as it was: none of its own installation's, and no sweep it fails. */
  predicate Spares(e: Event, i: nat, s: Socket) {
    match e
    case Connect(install, _) => s.install != install
    case Revoke(install, _) => s.install != install
    case Gone(j, _) => j != i
    case Alarm(now) => Healthy(s, now)
    case _ => true
  }

  /** A socket stays open exactly through the events that spare it, and nothing else of it changes but what it sent. */
  lemma OpenAfterIff(h: Hub, e: Event, i: nat)
    requires i < |h.sockets|
    ensures var s, after := h.sockets[i], Next(h, e).sockets;
      && i < |after|
      && (after[i].open <==> s.open && Spares(e, i, s))
      && after[i].install == s.install && after[i].connectedAt == s.connectedAt
      && (after[i].hello <==> s.hello || (e.Hello? && e.socket == i))
      && after[i].lastPong == if e.Pong? && e.socket == i then Some(e.now) else s.lastPong
  {
  }

  /** A connection adds one open, ungreeted socket; a sweep or a first connection sets the alarm a minute ahead. */
  lemma AlarmAfterIff(h: Hub, e: Event)
    ensures var next := Next(h, e);
      && |next.sockets| == |h.sockets| + (if e.Connect? then 1 else 0)
      && (e.Connect? ==> next.sockets[|h.sockets|] == Socket(e.install, e.now, false, None, true))
      && next.alarm ==
           if e.Alarm? then
             if exists i :: 0 <= i < |h.sockets| && h.sockets[i].open && Healthy(h.sockets[i], e.now)
             then Some(e.now + 60_000) else None
           else if e.Connect? && h.alarm.None? then Some(e.now + 60_000)
           else h.alarm
  {
    if e.Alarm? {
      forall i | 0 <= i < |h.sockets| ensures SweptAll(h.sockets, e.now)[i].open <==> h.sockets[i].open && Healthy(h.sockets[i], e.now) {
        assert SweptAll(h.sockets, e.now)[i] == Swept(h.sockets[i], e.now);
      }
    }
  }

  /** Over any run, a socket that every event spares is still open: the sweep and other installations take none. */
  lemma {:induction false} SparedStaysOpen(es: seq<Event>, more: seq<Event>, i: nat)
    requires i < |Run(es).sockets| && Run(es).sockets[i].open
    requires forall k :: 0 <= k < |more| ==> SparedAt(es, more, k, i)
    ensures i < |Run(es + more).sockets| && Run(es + more).sockets[i].open
  {
    hide Run, Next;
    if more == [] {
      assert es + more == es;
    } else {
      var k := |more| - 1;
      forall j | 0 <= j < k ensures SparedAt(es, more[..k], j, i) {
        assert SparedAt(es, more, j, i) && more[..k][..j] == more[..j];
      }
      SparedStaysOpen(es, more[..k], i);
      assert SparedAt(es, more, k, i);
      OpenAfterIff(Run(es + more[..k]), more[k], i);
      Appended(es + more[..k], more[k]);
      assert es + more == es + more[..k] + [more[k]];
    }
  }

  lemma Appended(es: seq<Event>, e: Event)
    ensures Run(es + [e]) == Next(Run(es), e)
  {
    assert (es + [e])[..|es|] == es;
  }

  predicate SparedAt(es: seq<Event>, more: seq<Event>, k: nat, i: nat)
    requires k < |more|
  {
    i < |Run(es + more[..k]).sockets| ==> Spares(more[k], i, Run(es + more[..k]).sockets[i])
  }

  predicate OneOpen(h: Hub) {
    forall i, j :: (0 <= i < |h.sockets| && 0 <= j < |h.sockets| && h.sockets[i].open && h.sockets[j].open
                    && h.sockets[i].install == h.sockets[j].install) ==> i == j
  }

  predicate AlarmSet(h: Hub) {
    AnyOpen(h.sockets) ==> h.alarm.Some?
  }

  lemma StepKeeps(h: Hub, e: Event)
    requires OneOpen(h) && AlarmSet(h)
    ensures OneOpen(Next(h, e)) && AlarmSet(Next(h, e))
  {
  }

  /**
   * At every reachable state, whatever the clock and the alarm do, an installation has at most one open socket,
   * and an open socket means a scheduled alarm.
   */
  lemma {:induction false} EveryRun(es: seq<Event>)
    ensures OneOpen(Run(es)) && AlarmSet(Run(es))
  {
    if es != [] {
      EveryRun(es[..|es| - 1]);
      StepKeeps(Run(es[..|es| - 1]), es[|es| - 1]);
    }
  }

  /** When the pending alarm was set, this socket was not yet stale, or not yet there. */
  predicate SeenAt(s: Socket, setAt: int) {
    && setAt - LastSeen(s) <= STALE
    && (!s.hello ==> setAt - s.connectedAt <= HELLO_GRACE)
  }

  predicate Watched(h: Hub, now: int) {
    && (h.alarm.Some? ==> h.alarm.value - SWEEP <= now)
    && forall i :: 0 <= i < |h.sockets| && h.sockets[i].open ==> h.alarm.Some? && SeenAt(h.sockets[i], h.alarm.value - SWEEP)
  }

  lemma StepWatched(h: Hub, e: Event)
    requires Watched(h, e.now)
    ensures Watched(Next(h, e), e.now)
  {
  }

  lemma {:induction false} WatchedRun(es: seq<Event>, late: nat)
    requires OnTime(es, late)
    ensures es != [] ==> Watched(Run(es), es[|es| - 1].now)
    ensures es == [] ==> Run(es) == EMPTY
  {
    if es != [] {
      var k := |es| - 1;
      WatchedRun(es[..k], late);
      assert Watched(Run(es[..k]), es[k].now);
      StepWatched(Run(es[..k]), es[k]);
    }
  }

  /**
   * With the alarm on time, at every moment an open socket was heard from in the last 180 s, and one that has
   * not said hello is at most 90 s old; an alarm that may come late adds just its lateness.
   */
  lemma OpenMeansHeardFrom(es: seq<Event>, late: nat, now: int, i: nat)
    requires Now(es, late, now) && i < |Run(es).sockets| && Run(es).sockets[i].open
    ensures var s := Run(es).sockets[i];
      && now - LastSeen(s) <= STALE + SWEEP + late
      && (!s.hello ==> now - s.connectedAt <= HELLO_GRACE + SWEEP + late)
  {
    hide Run;
    WatchedRun(es, late);
  }

  function Alarms(es: seq<Event>): nat {
    if es == [] then 0 else Alarms(es[..|es| - 1]) + if es[|es| - 1].Alarm? then 1 else 0
  }

  /**
   * The hub goes quiet: from a moment with no open socket, and until the next connection, every socket stays
   * closed and the alarm fires at most once; once it has, none is pending.
   */
  lemma {:induction false} QuietWithoutSockets(es: seq<Event>, more: seq<Event>, late: nat)
    requires !AnyOpen(Run(es).sockets) && OnTime(es + more, late)
    requires forall i :: 0 <= i < |more| ==> !more[i].Connect?
    ensures !AnyOpen(Run(es + more).sockets)
    ensures Alarms(more) <= 1 && (Alarms(more) == 1 ==> Run(es + more).alarm == None)
  {
    if more == [] {
      assert es + more == es;
    } else {
      var k := |more| - 1;
      var before := es + more[..k];
      assert (es + more)[..|es + more| - 1] == before;
      QuietWithoutSockets(es, more[..k], late);
      StaysClosed(Run(before), more[k]);
      hide Run, Next;
    }
  }

  /** Nothing but a connection opens a socket, and nothing but a connection or an open socket sets the alarm. */
  lemma StaysClosed(h: Hub, e: Event)
    requires !AnyOpen(h.sockets) && !e.Connect?
    ensures !AnyOpen(Next(h, e).sockets)
    ensures Next(h, e).alarm == if e.Alarm? then None else h.alarm
  {
    forall i | 0 <= i < |h.sockets| ensures !h.sockets[i].open {
    }
  }
}
