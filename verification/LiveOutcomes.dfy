/** What the LIVE protocol's invariant leads to: finality, the runs that break a promise, and when it holds. */
module LiveOutcomes {
  import opened Common
  import opened Trades
  import opened Reconcile
  import opened LiveProtocol
  import SS = StateStore

  // ---------------------------------------------------------------------------
  // A filled row is final
  // ---------------------------------------------------------------------------

  /** Row j and everything counted for it stay. */
  predicate Apart(w: World, v: World, j: nat) {
    j < |w.rows| <= |v.rows| && v.rows[j] == w.rows[j] && SameCounts(w.counts, v.counts, j)
  }

  lemma MarkApart(w: World, id: nat, to: Status, j: nat)
    requires j < |w.rows| && j != id
    ensures Apart(w, Mark(w, id, to), j)
  {
  }

  lemma EnteredApart(w: World, id: nat, e: Entry, j: nat)
    requires j < |w.rows| && j != id
    ensures Apart(w, Entered(w, id, e), j)
  {
    hide Held, Put;
  }

  lemma MarkFilledApart(w: World, id: nat, e: Entry, j: nat)
    requires j < |w.rows| && j != id
    ensures Apart(w, MarkFilled(w, id, e), j)
  {
    hide Mark;
    MarkApart(w, id, Filled, j);
  }

  lemma BookThenFillApart(w: World, id: nat, e: Entry, cut: nat, j: nat)
    requires j < |w.rows| && j != id
    ensures Apart(w, BookThenFill(w, id, e, cut), j)
  {
    hide SS.Next, Entered, MarkFilled;
    EnteredApart(w, id, e, j);
    MarkFilledApart(Entered(w, id, e), id, e, j);
  }

  lemma FillThenBookApart(w: World, id: nat, e: Entry, cut: nat, j: nat)
    requires j < |w.rows| && j != id
    ensures Apart(w, FillThenBook(w, id, e, cut), j)
  {
    hide SS.Next, Entered, MarkFilled;
    MarkFilledApart(w, id, e, j);
    EnteredApart(MarkFilled(w, id, e), id, e, j);
  }

  lemma SettleApart(w: World, id: nat, a: Answer, cut: nat, j: nat)
    requires id < |w.rows| && InFlight(w.rows[id].status) && j < |w.rows| && j != id
    ensures Apart(w, SettleRow(w, id, a, cut), j)
  {
    hide SS.Next, Mark, BookThenFill, FillThenBook, Judge, Poison, BootEntry;
    var b := Mark(w, id, Broadcast);
    MarkApart(w, id, Broadcast, j);
    MarkApart(w, id, Failed, j);
    MarkApart(b, id, Failed, j);
    if cut > 0 {
      BookThenFillApart(b, id, BootEntry(w.rows[id], a, b.positions), cut - 1, j);
      FillThenBookApart(b, id, BootEntry(w.rows[id], a, b.positions), cut - 1, j);
    }
  }

  lemma BookApart(w: World, id: nat, t: Task, a: Answer, cut: nat, j: nat)
    requires id < |w.rows| && a.Confirmed? && j < |w.rows| && j != id
    ensures Apart(w, Book(w, id, t, a, cut), j)
  {
    hide SS.Next, BookThenFill, FillThenBook, LiveEntry, LpRefused, Recordable, Priced, IsLpRow;
    BookThenFillApart(w, id, Nothing, cut, j);
    BookThenFillApart(w, id, LedgerLine, cut, j);
    BookThenFillApart(w, id, LiveEntry(w.rows[id], a, w.positions), cut, j);
  }

  lemma SignApart(w: World, id: nat, t: Task, c: Context, cut: nat, j: nat)
    requires id < |w.rows| && j < |w.rows| && j != id
    ensures Apart(w, Sign(w, id, t, c, cut), j)
  {
    hide SS.Next;
  }

  lemma ContinueApart(w: World, id: nat, reply: Reply, cut: nat, j: nat)
    requires id in w.tasks && id < |w.rows| && j < |w.rows| && j != id
    ensures Apart(w, Continue(w, id, reply, cut), j)
  {
    hide SS.Next, Mark, Book, Sign, Cleared, Refused, Truthful;
    MarkApart(w, id, Failed, j);
    MarkApart(w, id, Broadcast, j);
    match w.tasks[id].pc
    case Preparing => if reply.Prepared? { SignApart(w, id, w.tasks[id], reply.context, cut, j); }
    case Polling(_) =>
      if reply.Receipt? && reply.answer.Confirmed? {
        BookApart(w, id, w.tasks[id], reply.answer, cut, j);
      }
    case _ =>
  }

  lemma BeginApart(w: World, id: nat, a: Action, cut: nat, j: nat)
    requires j < |w.rows| && j != id
    ensures Apart(w, Begin(w, id, a, cut), j)
  {
    hide SS.Next, Refused, IsLpRow;
  }

  /** The row an event is about. */
  function About(e: Event): Option<nat> {
    match e
    case Start(id, _, _) => Some(id)
    case Resume(id, _, _) => Some(id)
    case SettleOne(id, _, _) => Some(id)
    case _ => None
  }

  /** An event about another row leaves this one alone. */
  lemma StepApart(w: World, e: Event, j: nat)
    requires j < |w.rows| && About(e) != Some(j)
    ensures Apart(w, Step(w, e), j)
  {
    hide SS.Next, Begin, Continue, SettleRow, Truthful;
    match e
    case Start(id, a, cut) => BeginApart(w, id, a, cut, j);
    case Resume(id, reply, cut) => if id in w.tasks && id < |w.rows| { ContinueApart(w, id, reply, cut, j); }
    case SettleOne(id, a, cut) => if id < |w.rows| && InFlight(w.rows[id].status) { SettleApart(w, id, a, cut, j); }
    case _ =>
  }

  lemma FilledStays(w: World, e: Event, id: nat)
    requires Inv(w) && id < |w.rows| && w.rows[id].status == Filled
    ensures Apart(w, Step(w, e), id)
  {
    hide Inv, RowOk, SS.Next, Continue, SettleRow;
    if About(e) == Some(id) {
      Facts(w, id);
      assert Step(w, e) == w;
    } else {
      StepApart(w, e, id);
    }
  }

  /** Whatever happens after a row is filled, it stays as it is and nothing more is counted for it. */
  lemma {:induction false} FilledIsFinal(es: seq<Event>, more: seq<Event>, id: nat)
    requires id < |Run(es).rows| && Run(es).rows[id].status == Filled
    ensures Apart(Run(es), Run(es + more), id)
  {
    hide Step;
    if more == [] {
      assert es + more == es;
    } else {
      var k := |more| - 1;
      FilledIsFinal(es, more[..k], id);
      EveryRun(es + more[..k]);
      FilledStays(Run(es + more[..k]), more[k], id);
      Append(es + more[..k], more[k]);
      assert es + more == es + more[..k] + [more[k]];
    }
  }

  lemma Append(es: seq<Event>, e: Event)
    ensures Run(es + [e]) == Step(Run(es), e)
  {
    assert (es + [e])[..|es|] == es;
  }

  // ---------------------------------------------------------------------------
  // A row's plan is fixed
  // ---------------------------------------------------------------------------

  /** Only the state, the hash and the prices of a row ever change. */
  predicate SamePlan(r: Row, s: Row) {
    s == r.(status := s.status, txHash := s.txHash, quotePrices := s.quotePrices)
  }

  predicate KeepsPlans(w: World, v: World) {
    |w.rows| <= |v.rows| && forall j :: 0 <= j < |w.rows| ==> SamePlan(w.rows[j], v.rows[j])
  }

  lemma MarkKeepsPlans(w: World, id: nat, to: Status)
    ensures KeepsPlans(w, Mark(w, id, to))
  {
  }

  lemma Twice(w: World, v: World, u: World)
    requires KeepsPlans(w, v) && KeepsPlans(v, u)
    ensures KeepsPlans(w, u)
  {
    forall j | 0 <= j < |w.rows| ensures SamePlan(w.rows[j], u.rows[j]) {
      assert SamePlan(w.rows[j], v.rows[j]) && SamePlan(v.rows[j], u.rows[j]);
    }
  }

  lemma EntryKeepsPlans(w: World, id: nat, e: Entry, cut: nat)
    ensures KeepsPlans(w, BookThenFill(w, id, e, cut)) && KeepsPlans(w, FillThenBook(w, id, e, cut))
  {
    hide SS.Next, Mark, Entered, SamePlan;
    MarkKeepsPlans(w, id, Filled);
    MarkKeepsPlans(Entered(w, id, e), id, Filled);
    assert forall j :: 0 <= j < |w.rows| ==> SamePlan(w.rows[j], w.rows[j]) by { SameIsSame(w); }
  }

  lemma SameIsSame(w: World)
    ensures KeepsPlans(w, w)
  {
  }

  lemma SettleKeepsPlans(w: World, id: nat, a: Answer, cut: nat)
    requires id < |w.rows| && InFlight(w.rows[id].status)
    ensures KeepsPlans(w, SettleRow(w, id, a, cut))
  {
    hide SS.Next, Mark, BookThenFill, FillThenBook, Poison, BootEntry, SamePlan, Judge;
    SameIsSame(w);
    MarkKeepsPlans(w, id, Failed);
    MarkKeepsPlans(w, id, Broadcast);
    var b := Mark(w, id, Broadcast);
    MarkKeepsPlans(b, id, Failed);
    Twice(w, b, Mark(b, id, Failed));
    if cut > 0 {
      var e := BootEntry(w.rows[id], a, b.positions);
      EntryKeepsPlans(b, id, e, cut - 1);
      Twice(w, b, FillThenBook(b, id, e, cut - 1));
      Twice(w, b, BookThenFill(b, id, e, cut - 1));
    }
  }

  lemma SignKeepsPlans(w: World, id: nat, t: Task, c: Context, cut: nat)
    requires id < |w.rows|
    ensures KeepsPlans(w, Sign(w, id, t, c, cut))
  {
    hide SS.Next;
  }

  lemma ContinueKeepsPlans(w: World, id: nat, reply: Reply, cut: nat)
    requires id in w.tasks && id < |w.rows|
    ensures KeepsPlans(w, Continue(w, id, reply, cut))
  {
    hide SS.Next, Mark, BookThenFill, Sign, Cleared, Refused, Truthful, LiveEntry, LpRefused, SamePlan;
    SameIsSame(w);
    MarkKeepsPlans(w, id, Failed);
    MarkKeepsPlans(w, id, Broadcast);
    match w.tasks[id].pc
    case Preparing => if reply.Prepared? { SignKeepsPlans(w, id, w.tasks[id], reply.context, cut); }
    case Polling(_) =>
      if reply.Receipt? && reply.answer.Confirmed? {
        EntryKeepsPlans(w, id, Nothing, cut);
        EntryKeepsPlans(w, id, LedgerLine, cut);
        EntryKeepsPlans(w, id, LiveEntry(w.rows[id], reply.answer, w.positions), cut);
      }
    case _ =>
  }

  lemma BeginKeepsPlans(w: World, id: nat, a: Action, cut: nat)
    ensures KeepsPlans(w, Begin(w, id, a, cut))
  {
    SameIsSame(w);
    if id < |w.rows| {
      var priced := w.(rows := w.rows[id := w.rows[id].(quotePrices := Some(a.prices))]);
      PricesKeepPlans(w, id, a.prices);
      hide SS.Next, Refused, IsLpRow, Mark, SamePlan;
      MarkKeepsPlans(w, id, Failed);
      MarkKeepsPlans(w, id, Dispatched);
      MarkKeepsPlans(priced, id, Dispatched);
      Twice(w, priced, Mark(priced, id, Dispatched));
    }
  }

  lemma PricesKeepPlans(w: World, id: nat, p: Prices)
    requires id < |w.rows|
    ensures KeepsPlans(w, w.(rows := w.rows[id := w.rows[id].(quotePrices := Some(p))]))
  {
  }

  lemma StepKeepsPlans(w: World, e: Event)
    ensures KeepsPlans(w, Step(w, e))
  {
    hide SS.Next, Begin, Continue, SettleRow, Truthful, Proposable;
    match e
    case Start(id, a, cut) => BeginKeepsPlans(w, id, a, cut);
    case Resume(id, reply, cut) => if id in w.tasks && id < |w.rows| { ContinueKeepsPlans(w, id, reply, cut); }
    case SettleOne(id, a, cut) => if id < |w.rows| && InFlight(w.rows[id].status) { SettleKeepsPlans(w, id, a, cut); }
    case _ =>
  }

  /** What a proposal of this kind carries. */
  predicate Complete(r: Row) {
    && (r.kind in {LpAdd, LpRemove, LpClaim, LpRebalance} ==> r.pool.Some?)
    && (r.kind == LpRemove ==> r.burn.Some?)
    && (r.kind in {LpAdd, LpRebalance} ==> r.minOut.Some?)
  }

  lemma {:induction false} RowsAreComplete(es: seq<Event>)
    ensures forall id :: 0 <= id < |Run(es).rows| ==> Complete(Run(es).rows[id])
  {
    hide Step, Complete;
    if es != [] {
      RowsAreComplete(es[..|es| - 1]);
      StepCompletes(Run(es[..|es| - 1]), es[|es| - 1]);
    }
  }

  lemma {:induction false} PlansAreKept(es: seq<Event>, more: seq<Event>)
    ensures KeepsPlans(Run(es), Run(es + more))
  {
    hide Run, Step, KeepsPlans;
    if more == [] {
      assert es + more == es;
      SameIsSame(Run(es));
    } else {
      var k := |more| - 1;
      PlansAreKept(es, more[..k]);
      Append(es + more[..k], more[k]);
      assert es + more == es + more[..k] + [more[k]];
      StepKeepsPlans(Run(es + more[..k]), more[k]);
      Twice(Run(es), Run(es + more[..k]), Run(es + more));
    }
  }

  /** Over every run a row keeps its plan, and every liquidity row has its pool, its burn and its minimum. */
  lemma PlansStay(es: seq<Event>, more: seq<Event>, id: nat)
    requires id < |Run(es).rows|
    ensures Complete(Run(es).rows[id])
    ensures id < |Run(es + more).rows| && SamePlan(Run(es).rows[id], Run(es + more).rows[id])
  {
    RowsAreComplete(es);
    PlansAreKept(es, more);
    hide Run, Complete, SamePlan;
  }

  lemma StepCompletes(w: World, e: Event)
    requires forall id :: 0 <= id < |w.rows| ==> Complete(w.rows[id])
    ensures forall id :: 0 <= id < |Step(w, e).rows| ==> Complete(Step(w, e).rows[id])
  {
    StepKeepsPlans(w, e);
    var v := Step(w, e);
    forall id | 0 <= id < |v.rows| ensures Complete(v.rows[id]) {
      if id < |w.rows| {
        assert Complete(w.rows[id]) && SamePlan(w.rows[id], v.rows[id]);
      } else {
        hide Begin, Continue, SettleRow, SS.Next, Truthful;
      }
    }
  }

  // ---------------------------------------------------------------------------
  // When a liquidity fill is entered
  // ---------------------------------------------------------------------------

  /**
   * The event that fills this liquidity row has something to enter: an add or a rebalance while it runs, an add whose
   * receipt shows its mint at boot, or a burn of a position that holds it.
   */
  predicate Due(w: World, e: Event, id: nat)
    requires id < |w.rows|
  {
    var r := w.rows[id];
    var burns := r.kind == LpRemove && r.pool.Some? && r.burn.Some?
                 && r.pool.value in w.positions && r.burn.value <= w.positions[r.pool.value];
    match e
    case Resume(_, Receipt(_), _) => (r.kind in {LpAdd, LpRebalance} && r.pool.Some?) || burns
    case SettleOne(_, a, _) =>
      || (r.kind == LpAdd && r.pool.Some? && a.Confirmed? && a.minted.Some? && a.minted.value > 0)
      || (burns && r.burn.value > 0)
    case _ => false
  }

  lemma LiveDueIff(w: World, id: nat, a: Answer, cut: nat)
    requires id < |w.rows| && a.Confirmed?
    ensures Due(w, Resume(id, Receipt(a), cut), id) <==> !LiveEntry(w.rows[id], a, w.positions).Nothing?
    ensures w.rows[id].kind == Approve ==> !Due(w, Resume(id, Receipt(a), cut), id)
  {
  }

  lemma BootDueIff(w: World, id: nat, a: Answer, cut: nat)
    requires id < |w.rows| && IsLpRow(w.rows[id]) && Judge(w.rows[id], a) == Confirm
    ensures Due(w, SettleOne(id, a, cut), id) <==> !BootEntry(w.rows[id], a, w.positions).Nothing?
  {
  }

  /** The reconciler's process died right after the mark. */
  predicate DiesMarked(e: Event) {
    e.SettleOne? && e.cut == 1
  }

  predicate FillCounted(c: Counts, d: Counts, id: nat, due: bool, dies: bool) {
    && d.booked[id] == c.booked[id] + (if due && !dies then 1 else 0)
    && d.lost[id] == c.lost[id] + (if due && dies then 1 else 0)
    && d.blank[id] == c.blank[id] + (if due then 0 else 1)
    && d.torn[id] == c.torn[id]
  }

  lemma BookFirstCounted(w: World, id: nat, e: Entry, cut: nat)
    requires id < |w.rows| && w.rows[id].status == Broadcast
    requires e.Moves? ==> Held(w.positions, e.pool) + e.delta >= 0
    ensures var v := BookThenFill(w, id, e, cut);
      v.rows[id].status == Filled ==> FillCounted(w.counts, v.counts, id, !e.Nothing?, false)
  {
    hide SS.Next, Entered;
    EnteredShape(w, id, e);
  }

  lemma MarkFirstCounted(w: World, id: nat, e: Entry, cut: nat)
    requires id < |w.rows| && w.rows[id].status == Broadcast
    requires e.Moves? ==> Held(w.positions, e.pool) + e.delta >= 0
    ensures FillCounted(w.counts, FillThenBook(w, id, e, cut).counts, id, !e.Nothing?, cut == 0)
  {
    hide SS.Next, Entered;
    EnteredShape(MarkFilled(w, id, e), id, e);
  }

  lemma LiveFillCounted(w: World, id: nat, reply: Reply, cut: nat)
    requires Inv(w) && id in w.tasks && id < |w.rows| && IsLpRow(w.rows[id])
    ensures var e, v := Resume(id, reply, cut), Continue(w, id, reply, cut);
      v.rows[id].status == Filled ==> FillCounted(w.counts, v.counts, id, Due(w, e, id), false)
  {
    hide Due, Inv, RowOk, SS.Next, Sign, Refused, Cleared, Truthful, LpRefused, LiveEntry, BookThenFill, IsLpRow;
    Facts(w, id);
    var t := w.tasks[id];
    if t.pc.Polling? && reply.Receipt? && reply.answer.Confirmed? {
      BookFirstCounted(w, id, Nothing, cut);
      LiveEntryFits(w.rows[id], reply.answer, w.positions);
      LiveDueIff(w, id, reply.answer, cut);
      BookFirstCounted(w, id, LiveEntry(w.rows[id], reply.answer, w.positions), cut);
    } else if t.pc.Preparing? && reply.Prepared? {
      SignDoesNotFill(w, id, t, reply.context, cut);
    }
  }

  lemma SignDoesNotFill(w: World, id: nat, t: Task, c: Context, cut: nat)
    requires id < |w.rows| && w.rows[id].status != Filled
    ensures Sign(w, id, t, c, cut).rows[id].status != Filled
  {
    hide SS.Next;
  }

  lemma MarkDoesNotFill(w: World, id: nat, to: Status)
    requires id < |w.rows| && w.rows[id].status != Filled && to != Filled
    ensures Mark(w, id, to).rows[id].status != Filled
  {
  }

  lemma ConfirmCounted(w: World, id: nat, a: Answer, cut: nat)
    requires id < |w.rows| && InFlight(w.rows[id].status) && IsLpRow(w.rows[id])
    requires Judge(w.rows[id], a) == Confirm && cut > 0
    ensures FillCounted(w.counts, SettleRow(w, id, a, cut).counts, id, Due(w, SettleOne(id, a, cut), id), cut == 1)
  {
    BootEntryFits(w.rows[id], a, w.positions);
    BootDueIff(w, id, a, cut);
    SeenAsBroadcast(w, id);
    hide SS.Next, BootEntry, FillThenBook, IsLpRow, Mark, Due;
    MarkFirstCounted(Mark(w, id, Broadcast), id, BootEntry(w.rows[id], a, w.positions), cut - 1);
  }

  lemma BootFillCounted(w: World, id: nat, a: Answer, cut: nat)
    requires id < |w.rows| && InFlight(w.rows[id].status) && IsLpRow(w.rows[id])
    ensures var e, v := SettleOne(id, a, cut), SettleRow(w, id, a, cut);
      v.rows[id].status == Filled ==> FillCounted(w.counts, v.counts, id, Due(w, e, id), DiesMarked(e))
  {
    if Judge(w.rows[id], a) == Confirm && cut > 0 {
      hide SettleRow, FillCounted, BootEntry;
      ConfirmCounted(w, id, a, cut);
    } else {
      hide SS.Next, Mark, BootEntry, FillThenBook, BookThenFill, IsLpRow;
      MarkDoesNotFill(w, id, Failed);
      MarkDoesNotFill(w, id, Broadcast);
      MarkDoesNotFill(Mark(w, id, Broadcast), id, Failed);
    }
  }

  /**
   * The event that fills a liquidity row enters its fill if and only if there is something to enter and no death
   * falls between mark and entry; in the first case left out it counts as blank, in the second as lost.
   */
  lemma LpFillIsEnteredIff(w: World, e: Event, id: nat)
    requires Inv(w) && id < |w.rows| && IsLpRow(w.rows[id]) && w.rows[id].status != Filled
    ensures Step(w, e).rows[id].status == Filled ==>
      About(e) == Some(id) && FillCounted(w.counts, Step(w, e).counts, id, Due(w, e, id), DiesMarked(e))
  {
    if About(e) != Some(id) {
      StepApart(w, e, id);
    } else {
      match e
      case Start(_, a, cut) => BeginDoesNotFill(w, id, a, cut);
      case Resume(_, reply, cut) => if id in w.tasks { hide Inv, Continue; LiveFillCounted(w, id, reply, cut); }
      case SettleOne(_, a, cut) => if InFlight(w.rows[id].status) { hide Inv, SettleRow; BootFillCounted(w, id, a, cut); }
    }
  }

  lemma BeginDoesNotFill(w: World, id: nat, a: Action, cut: nat)
    requires id < |w.rows| && w.rows[id].status != Filled
    ensures Begin(w, id, a, cut).rows[id].status != Filled
  {
    hide SS.Next, Refused, Mark, IsLpRow;
    MarkDoesNotFill(w, id, Failed);
    MarkDoesNotFill(w, id, Dispatched);
    MarkDoesNotFill(w.(rows := w.rows[id := w.rows[id].(quotePrices := Some(a.prices))]), id, Dispatched);
  }

  /** A row seen by the chain, as the pass and as the protocol mark it. */
  lemma SeenAsBroadcast(w: World, id: nat)
    requires id < |w.rows| && w.rows[id].status in {Signed, Broadcast}
    ensures Mark(w, id, Broadcast) == w.(rows := w.rows[id := w.rows[id].(status := Broadcast)])
  {
    assert w.rows[id := w.rows[id]] == w.rows;
  }

  // ---------------------------------------------------------------------------
  // The reconcilers' pass, row by row
  // ---------------------------------------------------------------------------

  lemma MovesFit(r: Row, a: Answer, positions: map<nat, nat>)
    ensures Delta(r, a, positions) != 0 ==> r.pool.Some? && Held(positions, r.pool.value) + Delta(r, a, positions) >= 0
  {
  }

  lemma LpSettled(w: World, b: World, id: nat, a: Answer, cut: nat)
    requires id < |w.rows| && IsLpRow(w.rows[id]) && Judge(w.rows[id], a) == Confirm && cut > 0
    requires b == w.(rows := w.rows[id := w.rows[id].(status := Broadcast)])
    ensures var r, v := w.rows[id], FillThenBook(b, id, BootEntry(w.rows[id], a, b.positions), cut);
      && v == w.(rows := w.rows[id := r.(status := Filled)], positions := PositionsAfter(r, a, w.positions), counts := v.counts)
      && v.counts.booked[id] == w.counts.booked[id] + |EntriesFor(id, r, a, w.positions)|
  {
    MovesFit(w.rows[id], a, w.positions);
    hide SS.Next, Delta, IsLpRow, Put, Judge, Held;
  }

  lemma WholeBooking(b: World, id: nat, e: Entry, cut: nat)
    requires id < |b.rows| && b.rows[id].status == Broadcast && !e.Moves? && cut > 0
    ensures var v := BookThenFill(b, id, e, cut);
      && v.rows == b.rows[id := b.rows[id].(status := Filled)] && v.positions == b.positions && v.control == b.control
      && v.counts.booked[id] == b.counts.booked[id] + if e.Nothing? then 0 else 1
  {
    hide SS.Next;
  }

  lemma SwapSettled(w: World, b: World, id: nat, a: Answer, cut: nat)
    requires id < |w.rows| && !IsLpRow(w.rows[id]) && Judge(w.rows[id], a) == Confirm && cut > 0
    requires b == w.(rows := w.rows[id := w.rows[id].(status := Broadcast)]) && !Poison(w.rows[id], a)
    ensures var r, v := w.rows[id], BookThenFill(b, id, BootEntry(w.rows[id], a, b.positions), cut);
      && v.rows == w.rows[id := r.(status := Filled)] && v.positions == w.positions && v.control == w.control
      && v.counts.booked[id] == w.counts.booked[id] + |FillsFor(id, r, a)|
  {
    var r := w.rows[id];
    var e := BootEntry(r, a, b.positions);
    assert !e.Moves? && |FillsFor(id, r, a)| == if e.Nothing? then 0 else 1;
    hide BookThenFill, Poison, IsLpRow, Judge, Bookable, BootEntry, FillsFor;
    assert b.rows[id] == r.(status := Broadcast);
    WholeBooking(b, id, e, cut);
    assert b.rows[id].(status := Filled) == r.(status := Filled);
  }

  /** What the pass leaves of a row, its positions, and the entries it adds. */
  predicate SettledAs(w: World, v: World, id: nat, r: Row, a: Answer) {
    && id < |w.rows| && v.control == w.control
    && v.rows == w.rows[id := RowAfter(DeskOf(r), r, a)]
    && v.positions == (if IsLpRow(r) then PositionsAfter(r, a, w.positions) else w.positions)
    && v.counts.booked[id] == w.counts.booked[id]
         + if IsLpRow(r) then |EntriesFor(id, r, a, w.positions)| else |FillsFor(id, r, a)|
  }

  lemma ConfirmSettles(w: World, id: nat, a: Answer, cut: nat)
    requires id < |w.rows| && InFlight(w.rows[id].status) && cut >= 2 && Judge(w.rows[id], a) == Confirm
    ensures SettledAs(w, SettleRow(w, id, a, cut), id, w.rows[id], a)
  {
    var r := w.rows[id];
    assert r.status in {Signed, Broadcast};
    hide SS.Next, BootEntry, BookThenFill, FillThenBook, Poison, PositionsAfter, EntriesFor, FillsFor, IsLpRow, Judge, Mark;
    SeenAsBroadcast(w, id);
    var b := Mark(w, id, Broadcast);
    if IsLpRow(r) {
      LpSettled(w, b, id, a, cut - 1);
    } else if !Poison(r, a) {
      SwapSettled(w, b, id, a, cut - 1);
    } else {
      NoFill(id, r, a);
    }
  }

  lemma OthersSettle(w: World, id: nat, a: Answer, cut: nat)
    requires id < |w.rows| && InFlight(w.rows[id].status) && cut > 0 && Judge(w.rows[id], a) != Confirm
    ensures SettledAs(w, SettleRow(w, id, a, cut), id, w.rows[id], a)
  {
    hide SS.Next, BootEntry, BookThenFill, FillThenBook, Poison, PositionsAfter, EntriesFor, FillsFor, IsLpRow;
    NothingMoves(id, w.rows[id], a, w.positions);
    assert w.rows[id := w.rows[id]] == w.rows;
  }

  /**
   * Settling a row with no death in it is what the reconcilers' pass does with that row: the same table, the same
   * positions, and as many entries.
   */
  lemma SettleIsThePassStep(w: World, id: nat, a: Answer, cut: nat, fills: seq<Fill>, entries: seq<LpEntry>)
    requires id < |w.rows| && InFlight(w.rows[id].status) && cut >= 2
    ensures var r, v := w.rows[id], SettleRow(w, id, a, cut);
      var c := BooksAfter(DeskOf(r), Books(w.rows, fills, w.positions, entries), id, r, a);
      && v.rows == c.rows && v.positions == c.positions && v.control == w.control
      && v.counts.booked[id] == w.counts.booked[id] + (|c.fills| - |fills|) + (|c.entries| - |entries|)
  {
    hide SettleRow, RowAfter, Judge, PositionsAfter, EntriesFor, FillsFor, IsLpRow;
    if Judge(w.rows[id], a) == Confirm {
      ConfirmSettles(w, id, a, cut);
    } else {
      OthersSettle(w, id, a, cut);
    }
  }

  lemma NoFill(id: nat, r: Row, a: Answer)
    requires Poison(r, a)
    ensures FillsFor(id, r, a) == []
  {
  }

  lemma NothingMoves(id: nat, r: Row, a: Answer, positions: map<nat, nat>)
    requires Judge(r, a) != Confirm
    ensures FillsFor(id, r, a) == [] && EntriesFor(id, r, a, positions) == [] && PositionsAfter(r, a, positions) == positions
  {
  }

  // ---------------------------------------------------------------------------
  // Runs from the initial state
  // ---------------------------------------------------------------------------

  function Lift(cs: seq<SS.Event>): seq<Event> {
    if cs == [] then [] else Lift(cs[..|cs| - 1]) + [Control(cs[|cs| - 1])]
  }

  lemma {:induction false} LiftRuns(cs: seq<SS.Event>)
    ensures Run(Lift(cs)) == INITIAL.(control := SS.Run(cs))
  {
    hide SS.Next;
    if cs != [] {
      LiftRuns(cs[..|cs| - 1]);
      Append(Lift(cs[..|cs| - 1]), Control(cs[|cs| - 1]));
    }
  }

  /** LIVE, reconciled, and nothing traded yet. */
  ghost predicate LiveAndIdle(w: World) {
    && w == INITIAL.(control := w.control, open := true)
    && w.control.up && w.control.db.mode == SS.Live && !w.control.db.stop && !w.control.db.pause
  }

  lemma ActivatedControl(s: SS.State)
    requires s.db.installed && SS.ActivatesFrom(s, 0)
    ensures var t := SS.Next(s, SS.Do(SS.Activate, 0, 3));
      t.up && t.db.mode == SS.Live && !t.db.stop && !t.db.pause
  {
    SS.Prefixes(s.db, SS.Activate, s.clock, s.n, 3);
  }

  lemma CanGoLive() returns (es: seq<Event>)
    ensures LiveAndIdle(Run(es))
  {
    var cs := SS.ChecklistCanBeWalked();
    var activate := SS.Do(SS.Activate, 0, 3);
    LiftRuns(cs);
    ActivatedControl(SS.Run(cs));
    hide SS.Next, SS.Run;
    es := Lift(cs) + [Control(activate)];
    Append(Lift(cs), Control(activate));
    Append(es, Open);
    es := es + [Open];
  }

  /** The key is used, the bytes go out, the node takes them, and the transaction lands. */
  ghost predicate AboutToSign(w: World, id: nat, c: Context) {
    && id in w.tasks && id < |w.rows| && w.tasks[id].pc == Preparing && w.rows[id].status == Dispatched
    && !Refused(w.control.db, w.tasks[id].action) && Cleared(DeskOf(w.rows[id]), w.tasks[id].action, c)
    && w.sent == {} && w.chain == map[]
  }

  function Out(w: World, v: World, id: nat, s: Status, pc: Pc): World
    requires id < |w.rows| && id in w.tasks
  {
    w.(signatures := v.signatures, sent := {|w.signatures|},
       rows := w.rows[id := w.rows[id].(status := s, txHash := Some(|w.signatures|))],
       tasks := w.tasks[id := w.tasks[id].(pc := pc)])
  }

  lemma SignsOut(w: World, id: nat, c: Context)
    requires AboutToSign(w, id, c)
    ensures var v := Step(w, Resume(id, Prepared(c, true), 2));
      v == Out(w, v, id, Signed, Broadcasting(|w.signatures|))
  {
    hide SS.Next, Cleared, Refused;
  }

  lemma SendsOut(w: World, v: World, id: nat)
    requires id < |w.rows| && id in w.tasks && v == Out(w, v, id, Signed, Broadcasting(|w.signatures|))
    ensures Step(v, Resume(id, Fine, 1)) == Out(w, v, id, Broadcast, Polling(|w.signatures|))
  {
    hide SS.Next;
    assert v.tasks[id].(pc := Polling(|w.signatures|)) == w.tasks[id].(pc := Polling(|w.signatures|));
  }

  lemma LandsOut(w: World, v: World, id: nat)
    requires id < |w.rows| && id in w.tasks && w.chain == map[]
    requires v == Out(w, v, id, Broadcast, Polling(|w.signatures|))
    ensures Step(v, Land(|w.signatures|, true)) == v.(chain := map[|w.signatures| := true])
  {
  }

  lemma CanLand(es: seq<Event>, id: nat, c: Context) returns (more: seq<Event>)
    requires AboutToSign(Run(es), id, c)
    ensures var w, v := Run(es), Run(es + more);
      v == Out(w, v, id, Broadcast, Polling(|w.signatures|)).(chain := map[|w.signatures| := true])
  {
    var w := Run(es);
    more := [Resume(id, Prepared(c, true), 2), Resume(id, Fine, 1), Land(|w.signatures|, true)];
    hide Run, Step;
    Appends3(es, more[0], more[1], more[2]);
    SignsOut(w, id, c);
    SendsOut(w, Step(w, more[0]), id);
    LandsOut(w, Step(Step(w, more[0]), more[1]), id);
  }

  const PRICES := Prices(Atto(1), Atto(1))
  const SWAP := Row(Swap, false, Allowed, None, 100, Some(90), None, None, None)
  const SWAP_ACTION := Action(SS.Live, Swap, "0xr", "0xt", {}, EvmFee(1, 1), PRICES)
  const LP_ADD := Row(LpAdd, true, Allowed, None, 100, Some(90), None, Some(5), None)
  const LP_ADD_ACTION := Action(SS.Live, LpAdd, "0xr", "0xt", {}, EvmFee(1, 1), PRICES)
  const TO_ROUTER := Evm("0xr", 1, 1)

  lemma RouterIsCleared(desk: Desk, a: Action)
    requires a in {SWAP_ACTION, LP_ADD_ACTION}
    ensures Cleared(desk, a, TO_ROUTER)
  {
    assert FeeInNativeUnits(EvmFee(1, 1)) == 1;
  }

  function AsDispatched(row: Row, a: Action): Row {
    row.(status := Dispatched, quotePrices := if row == SWAP then Some(a.prices) else None)
  }

  predicate Sample(row: Row, a: Action) {
    (row == SWAP && a == SWAP_ACTION) || (row == LP_ADD && a == LP_ADD_ACTION)
  }

  lemma CanDispatch(es: seq<Event>, row: Row, a: Action) returns (more: seq<Event>)
    requires LiveAndIdle(Run(es)) && Sample(row, a)
    ensures Run(es + more) == Run(es).(rows := [AsDispatched(row, a)], tasks := map[0 := Task(a, FirstPc(row))])
  {
    hide SS.Next;
    more := [Propose(row), Start(0, a, 1)];
    Append(es, more[0]);
    Append(es + [more[0]], more[1]);
    assert es + more == es + [more[0]] + [more[1]];
    var w := Run(es);
    hide Run;
    assert Step(w, more[0]) == w.(rows := [row]);
  }

  lemma GoesOn(es: seq<Event>, pc: Pc)
    requires var w := Run(es); 0 in w.tasks && |w.rows| == 1 && w.tasks[0].pc == pc && pc in {Building, Simulating}
    ensures var w := Run(es);
      Run(es + [Resume(0, Fine, 0)]) == w.(tasks := w.tasks[0 := w.tasks[0].(pc := if pc == Building then Simulating else Preparing)])
  {
    hide SS.Next;
    Append(es, Resume(0, Fine, 0));
    hide Run;
  }

  lemma IdleRefusesNone(w: World, row: Row, a: Action)
    requires LiveAndIdle(w) && Sample(row, a)
    ensures !Refused(w.control.db, a) && w == INITIAL.(control := w.control, open := true)
  {
    hide SS.Next;
  }

  /** The row and the task as they stand when the transaction is about to be prepared. */
  lemma CanPrepare(row: Row, a: Action) returns (es: seq<Event>)
    requires Sample(row, a)
    ensures var w := Run(es);
      && w == INITIAL.(control := w.control, open := true, rows := [AsDispatched(row, a)], tasks := map[0 := Task(a, Preparing)])
      && !Refused(w.control.db, a)
  {
    hide Run, SS.Next;
    var idle := CanGoLive();
    IdleRefusesNone(Run(idle), row, a);
    var more := CanDispatch(idle, row, a);
    hide Refused, LiveAndIdle;
    es := idle + more;
    GoesOn(es, FirstPc(row));
    es := es + [Resume(0, Fine, 0)];
    if row == SWAP {
      GoesOn(es, Simulating);
      es := es + [Resume(0, Fine, 0)];
    }
  }

  /** A sample row whose transaction has landed, and the execution that polls for it. */
  ghost predicate Polled(w: World, row: Row, a: Action) {
    && w == INITIAL.(control := w.control, open := w.open, rows := w.rows, tasks := w.tasks,
                     signatures := w.signatures, sent := {0}, chain := map[0 := true])
    && w.rows == [AsDispatched(row, a).(status := Broadcast, txHash := Some(0))]
  }

  lemma CanPoll(row: Row, a: Action) returns (es: seq<Event>)
    requires Sample(row, a)
    ensures var w := Run(es);
      Polled(w, row, a) && w.control.up && w.open && w.tasks == map[0 := Task(a, Polling(0))]
  {
    var ready := CanPrepare(row, a);
    var w := Run(ready);
    EveryRun(ready);
    Facts(w, 0);
    RouterIsCleared(DeskOf(w.rows[0]), a);
    var more := CanLand(ready, 0, TO_ROUTER);
    es := ready + more;
  }

  // ---------------------------------------------------------------------------
  // A fill entered twice
  // ---------------------------------------------------------------------------

  /** A swap execution that is about to learn its priced, recordable transaction confirmed. */
  ghost predicate AboutToBook(w: World, id: nat, a: Answer) {
    && Inv(w) && id in w.tasks && id < |w.rows| && w.tasks[id].pc.Polling?
    && a.Confirmed? && Truthful(w, w.tasks[id].pc.hash, a)
    && w.rows[id].kind == Swap && Bookable(w.rows[id]) && !Poison(w.rows[id], a)
  }

  /** Wherever a run stands so: dying between ledger and mark enters the fill again at the next boot. */
  lemma DyingBooksTwice(w: World, id: nat, a: Answer)
    requires AboutToBook(w, id, a)
    ensures var w1 := Step(w, Resume(id, Receipt(a), 0));
      var w2 := Step(w1, Control(SS.Boot(0, 2)));
      var w3 := Step(w2, SettleOne(id, a, 2));
      && !w1.control.up && w2.control.up && w3.rows[id].status == Filled
      && w3.counts.torn[id] == w.counts.torn[id] + 1 && w3.counts.booked[id] == w.counts.booked[id] + 2
  {
    hide SS.Next, Inv, Cleared, Refused, IsLpRow;
    Dies(w, id, a);
    var w1 := Step(w, Resume(id, Receipt(a), 0));
    KillAndBoot(w.control);
    var w2 := Step(w1, Control(SS.Boot(0, 2)));
    assert w2 == w1.(control := w2.control);
    BooksOnBoot(w2, id, a);
  }

  lemma KillAndBoot(s: SS.State)
    ensures var d := SS.Next(s, SS.Kill(0)); !d.up && SS.Next(d, SS.Boot(0, 2)).up
  {
  }

  lemma BooksOnBoot(w: World, id: nat, a: Answer)
    requires w.control.up && !w.open && id < |w.rows|
    requires w.rows[id].status == Broadcast && w.rows[id].txHash.Some? && w.rows[id].kind == Swap
    requires a.Confirmed? && Truthful(w, w.rows[id].txHash.value, a)
    requires Bookable(w.rows[id]) && !Poison(w.rows[id], a)
    ensures var v := Step(w, SettleOne(id, a, 2));
      && v.rows[id].status == Filled && v.counts.booked[id] == w.counts.booked[id] + 1
      && v.counts.torn == w.counts.torn
  {
    hide SS.Next, Poison, Bookable;
    assert SettleRow(w, id, a, 2) == BookThenFill(w, id, LedgerLine, 1);
    hide SettleRow;
  }

  lemma Dies(w: World, id: nat, a: Answer)
    requires AboutToBook(w, id, a)
    ensures var w1 := Step(w, Resume(id, Receipt(a), 0));
      && w1 == Die(w.(counts := w.counts.(booked := w.counts.booked + multiset{id}, torn := w.counts.torn + multiset{id})))
      && w.rows[id].status == Broadcast && w.rows[id].txHash.Some?
      && Truthful(w, w.rows[id].txHash.value, a)
  {
    hide SS.Next, Inv, Cleared, Refused;
    Facts(w, id);
  }

  lemma PolledIsAboutToBook(w: World)
    requires Inv(w) && Polled(w, SWAP, SWAP_ACTION) && w.tasks == map[0 := Task(SWAP_ACTION, Polling(0))]
    ensures AboutToBook(w, 0, Confirmed(Some(95), None))
  {
    hide Inv;
  }

  lemma Appends3(es: seq<Event>, e1: Event, e2: Event, e3: Event)
    ensures Run(es + [e1, e2, e3]) == Step(Step(Step(Run(es), e1), e2), e3)
  {
    hide Step, Run;
    Append(es, e1);
    Append(es + [e1], e2);
    Append(es + [e1] + [e2], e3);
    assert es + [e1, e2, e3] == es + [e1] + [e2] + [e3];
  }

  /** A run from the initial state that enters one fill twice. */
  lemma TornFillBooksTwice() returns (es: seq<Event>)
    ensures var w := Run(es);
      && |w.rows| > 0 && w.rows[0].status == Filled && w.counts.torn[0] == 1 && w.counts.booked[0] == 2
  {
    hide Step, Run, Inv, AboutToBook;
    var polling := CanPoll(SWAP, SWAP_ACTION);
    var a := Confirmed(Some(95), None);
    EveryRun(polling);
    PolledIsAboutToBook(Run(polling));
    DyingBooksTwice(Run(polling), 0, a);
    Appends3(polling, Resume(0, Receipt(a), 0), Control(SS.Boot(0, 2)), SettleOne(0, a, 2));
    es := polling + [Resume(0, Receipt(a), 0), Control(SS.Boot(0, 2)), SettleOne(0, a, 2)];
  }

  /** The first entry of the sample add, and the death after it. */
  lemma AddDies(w: World, a: Answer)
    requires Inv(w) && Polled(w, LP_ADD, LP_ADD_ACTION) && w.tasks == map[0 := Task(LP_ADD_ACTION, Polling(0))]
    requires a == Confirmed(None, Some(7))
    ensures var v := Step(w, Resume(0, Receipt(a), 0));
      v == Die(w.(positions := map[5 := 7], counts := NO_COUNTS.(booked := multiset{0}, torn := multiset{0})))
  {
    hide SS.Next, Inv, Cleared, Refused;
    assert LiveEntry(w.rows[0], a, w.positions) == Moves(5, 7);
    assert Put(map[], 5, 7) == map[5 := 7];
  }

  /** At the next boot the reconciler marks the row and enters the same tokens again. */
  lemma AddBooksOnBoot(w: World, a: Answer)
    requires w.control.up && !w.open && w.rows == [AsDispatched(LP_ADD, LP_ADD_ACTION).(status := Broadcast, txHash := Some(0))]
    requires a == Confirmed(None, Some(7)) && w.chain == map[0 := true] && w.positions == map[5 := 7]
    ensures var v := Step(w, SettleOne(0, a, 2));
      && |v.rows| == 1 && v.rows[0].status == Filled && IsLpRow(v.rows[0]) && v.positions == map[5 := 14]
      && v.counts == w.counts.(booked := w.counts.booked + multiset{0})
  {
    hide SS.Next;
    assert BootEntry(w.rows[0], a, w.positions) == Moves(5, 7);
    SeenAsBroadcast(w, 0);
    assert SettleRow(w, 0, a, 2) == FillThenBook(Mark(w, 0, Broadcast), 0, Moves(5, 7), 1);
    hide SettleRow, BootEntry;
    assert Put(w.positions, 5, 14) == map[5 := 14];
  }

  /** A run from the initial state that counts the tokens of one add twice. */
  lemma TornAddCountsTwice() returns (es: seq<Event>)
    ensures var w := Run(es);
      && |w.rows| > 0 && w.rows[0].status == Filled && IsLpRow(w.rows[0])
      && w.counts.torn[0] == 1 && w.counts.booked[0] == 2 && w.positions == map[5 := 14]
  {
    var polling := CanPoll(LP_ADD, LP_ADD_ACTION);
    var a := Confirmed(None, Some(7));
    var die, boot, settle := Resume(0, Receipt(a), 0), Control(SS.Boot(0, 2)), SettleOne(0, a, 2);
    es := polling + [die, boot, settle];
    EveryRun(polling);
    AddDies(Run(polling), a);
    Appends3(polling, die, boot, settle);
    var w := Run(polling);
    hide Run, Inv, Polled;
    var dead := Step(w, die);
    KillAndBoot(w.control);
    var up := Step(dead, boot);
    hide SS.Next;
    assert up == dead.(control := up.control);
    AddBooksOnBoot(up, a);
  }

  // ---------------------------------------------------------------------------
  // A fill never entered
  // ---------------------------------------------------------------------------

  /** At boot, an open liquidity row whose confirmed transaction moves a position. */
  ghost predicate Owed(w: World, id: nat, a: Answer) {
    && w.control.up && !w.open && id < |w.rows|
    && IsLpRow(w.rows[id]) && InFlight(w.rows[id].status) && Judge(w.rows[id], a) == Confirm
    && Truthful(w, w.rows[id].txHash.value, a) && Delta(w.rows[id], a, w.positions) != 0
  }

  /** Dying between its mark and its entry fills the row and leaves every count but `lost` where it was. */
  lemma DyingLosesTheEntry(w: World, id: nat, a: Answer)
    requires Owed(w, id, a)
    ensures var v := Step(w, SettleOne(id, a, 1));
      && v.rows[id].status == Filled && v.positions == w.positions
      && v.counts == w.counts.(lost := w.counts.lost + multiset{id})
  {
    hide SS.Next, Delta;
    SeenAsBroadcast(w, id);
    hide IsLpRow;
  }

  /** So a reachable row that is owed an entry is filled, and no later event of any run enters it. */
  lemma TornLpFillIsLost(es: seq<Event>, id: nat, a: Answer, more: seq<Event>)
    requires Owed(Run(es), id, a)
    ensures var w, v := Run(es), Run(es + [SettleOne(id, a, 1)] + more);
      && id < |v.rows| && v.rows[id].status == Filled && v.counts.lost[id] == 1
      && v.counts.booked[id] == w.counts.booked[id] == w.counts.torn[id]
  {
    var e := SettleOne(id, a, 1);
    Append(es, e);
    DyingLosesTheEntry(Run(es), id, a);
    FilledIsFinal(es + [e], more, id);
    EveryRun(es);
    Facts(Run(es), id);
    hide Step, Run;
  }

  lemma DownAndUp(w: World)
    ensures var v := Step(Step(w, Control(SS.Kill(0))), Control(SS.Boot(0, 2)));
      v == w.(control := v.control, open := false, tasks := map[]) && v.control.up
  {
    hide SS.Next;
    KillAndBoot(w.control);
  }

  lemma PolledIsOwed(w: World)
    requires Polled(w, LP_ADD, LP_ADD_ACTION) && w.control.up && !w.open
    ensures Owed(w, 0, Confirmed(None, Some(7)))
  {
  }

  /** A run from the initial state to such a row, so that the fill of an add is in no ledger for good. */
  lemma OwedIsReached() returns (es: seq<Event>)
    ensures Owed(Run(es), 0, Confirmed(None, Some(7))) && Run(es).counts == NO_COUNTS
  {
    var polling := CanPoll(LP_ADD, LP_ADD_ACTION);
    var kill, boot := Control(SS.Kill(0)), Control(SS.Boot(0, 2));
    Append(polling, kill);
    Append(polling + [kill], boot);
    es := polling + [kill] + [boot];
    DownAndUp(Run(polling));
    hide Step, Run, Owed;
    PolledIsOwed(Run(es));
  }

  // ---------------------------------------------------------------------------
  // A decision on a stale row
  // ---------------------------------------------------------------------------

  /**
   * A reconciliation that overlaps an execution decides on the row as it was listed. `listed` is an in-flight
   * status the row had earlier; the store still checks every transition, and a conflict ends the pass.
   */
  function SettleStale(w: World, id: nat, listed: Status, a: Answer): World
    requires id < |w.rows| && InFlight(listed)
  {
    if listed == Dispatched then Mark(w, id, Failed)
    else match a
      case NoAdapter | Silent | Pending | Unknown => w
      case _ =>
        if listed == Signed && Move(w.rows, id, Broadcast).Err? then w
        else
          var b := if listed == Signed then Mark(w, id, Broadcast) else w;
          Mark(b, id, if a.Reverted? then Failed else Filled)
  }

  /** Whatever the chain decides from now on, the row is not left failed with its transaction confirmed. */
  ghost predicate NeverMisjudged(w: World, id: nat)
    requires id < |w.rows|
  {
    var r := w.rows[id];
    r.status == Failed && r.txHash.Some? && r.txHash.value in w.sent ==> r.txHash.value in w.chain && !w.chain[r.txHash.value]
  }

  /**
   * Exactly when a decision on a listed row is safe: unless the row was listed as dispatched and has since been
   * signed and handed to broadcast, with a fate that is not yet a revert.
   */
  lemma StaleDecisionIsSafeIff(w: World, id: nat, listed: Status, a: Answer)
    requires Inv(w) && id < |w.rows| && InFlight(listed) && Rank(listed) <= Rank(w.rows[id].status)
    requires w.rows[id].txHash.Some? ==> Truthful(w, w.rows[id].txHash.value, a)
    requires w.rows[id].txHash.None? ==> !a.Confirmed? && !a.Reverted?
    ensures NeverMisjudged(SettleStale(w, id, listed, a), id) <==>
      !(&& listed == Dispatched && w.rows[id].status in {Signed, Broadcast}
        && w.rows[id].txHash.Some? && w.rows[id].txHash.value in w.sent
        && !(w.rows[id].txHash.value in w.chain && !w.chain[w.rows[id].txHash.value]))
  {
    hide Inv, KeyUse, Named, CountsOk;
    Facts(w, id);
  }
}
