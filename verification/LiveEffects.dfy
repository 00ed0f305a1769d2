/**
 * What each answer does to a LIVE execution, written out: which row it leaves in which state, when the key is used,
 * and which tokens a fill moves. Over runs, a position is the tokens its adds entered less those its removals did.
 */
module LiveEffects {
  import opened Common
  import opened Trades
  import opened Reconcile
  import opened LiveProtocol
  import SS = StateStore

  // ---------------------------------------------------------------------------
  // Answers
  // ---------------------------------------------------------------------------

  /** The row moves to this state and its execution is over; nothing else changes. */
  ghost predicate Ends(w: World, v: World, id: nat, s: Status)
    requires id < |w.rows|
  {
    v == w.(rows := w.rows[id := w.rows[id].(status := s)], tasks := w.tasks - {id})
  }

  /** The execution goes on, and its row may move to this state. */
  ghost predicate GoesOn(w: World, v: World, id: nat, s: Status, pc: Pc)
    requires id < |w.rows| && id in w.tasks
  {
    v == w.(rows := w.rows[id := w.rows[id].(status := s)], tasks := w.tasks[id := w.tasks[id].(pc := pc)])
  }

  lemma SameRow(rows: seq<Row>, id: nat)
    requires id < |rows|
    ensures rows[id := rows[id].(status := rows[id].status)] == rows
  {
    assert rows[id].(status := rows[id].status) == rows[id];
  }

  /**
   * What every answer leads to, but those that let the key be used (`KeyIsUsedIff`) and confirmed receipts
   * (`ConfirmedLeaves`): a failure before the key fails the row, one after it leaves the row for the reconciler, and
   * only a revert fails a row that was broadcast.
   */
  lemma AnswerLeaves(w: World, id: nat, reply: Reply, cut: nat)
    requires Inv(w) && id in w.tasks
    ensures id < |w.rows|
    ensures var v := Step(w, Resume(id, reply, cut));
      match w.tasks[id].pc
      case Building =>
        if reply.Fine? then GoesOn(w, v, id, Dispatched, Simulating) else Ends(w, v, id, Failed)
      case Simulating =>
        if reply.Fine? then GoesOn(w, v, id, Dispatched, Preparing)
        else Ends(w, v, id, if reply.Escapes? then Dispatched else Failed)
      case Preparing => !reply.Prepared? ==> Ends(w, v, id, Failed)
      case Broadcasting(hash) =>
        if reply.Fine? then GoesOn(w, v, id, Broadcast, Polling(hash)) else Ends(w, v, id, Signed)
      case Polling(hash) =>
        && (reply.GaveUp? ==> Ends(w, v, id, Broadcast))
        && (reply.Receipt? && reply.answer.Reverted? ==>
              if hash in w.chain && !w.chain[hash] then Ends(w, v, id, Failed) else v == w)
        && (reply.Receipt? && reply.answer.Confirmed? && !(hash in w.chain && w.chain[hash]) ==> v == w)
        && (!reply.GaveUp? && !(reply.Receipt? && (reply.answer.Reverted? || reply.answer.Confirmed?)) ==> v == w)
  {
    hide Inv, SS.Next, Sign, Book, Cleared, Refused;
    Facts(w, id);
    SameRow(w.rows, id);
    hide RowOk;
  }

  // ---------------------------------------------------------------------------
  // When the key is used
  // ---------------------------------------------------------------------------

  /** The fee and the target, or the programs, are the approved ones. The liquidity desk signs on EVM only. */
  predicate MaySign(r: Row, a: Action, c: Context) {
    match c
    case Evm(to, gas, cap) => WithinFee(gas * cap, a.fee) && MaySendTo(a, to)
    case Solana(None) => false
    case Solana(Some(ids)) =>
      && !(r.kind in {LpAdd, LpRemove, LpClaim, LpRebalance} || (r.kind == Approve && r.lp))
      && a.contract in ids && forall p :: p in ids ==> p in a.programs || p in SOLANA_SYSTEM_PROGRAMS
  }

  lemma ClearedIff(r: Row, a: Action, c: Context)
    ensures Cleared(DeskOf(r), a, c) <==> MaySign(r, a, c)
  {
    hide Targets, FeeInNativeUnits, MaySendTo, WithinFee;
    if c.Evm? {
      FeeIff(c.gas * c.maxFeePerGas, a.fee);
      TargetsIff(a, c.to);
    }
  }

  /** The decision and the runtime are LIVE, and no switch is engaged. */
  predicate SwitchesPass(db: SS.Db, a: Action) {
    a.mode == SS.Live && db.mode == SS.Live && !db.stop && !db.pause
  }

  /** What signing leaves, by how many of its two writes land: the key used, the hash on disk, the bytes out. */
  ghost predicate SignsAs(w: World, v: World, id: nat, c: Context, cut: nat)
    requires id < |w.rows| && id in w.tasks
  {
    var hash, t := |w.signatures|, w.tasks[id];
    var used := w.(signatures := w.signatures + [Signature(id, t.action, c, w.control.db)]);
    var signed := used.(rows := w.rows[id := w.rows[id].(status := Signed, txHash := Some(hash))]);
    if cut == 0 then v == Die(used)
    else if cut == 1 then v == Die(signed)
    else v == signed.(sent := w.sent + {hash}, tasks := w.tasks[id := t.(pc := Broadcasting(hash))])
  }

  lemma SignIs(w: World, id: nat, c: Context, cut: nat)
    requires id < |w.rows| && id in w.tasks && w.rows[id].status == Dispatched
    ensures SignsAs(w, Sign(w, id, w.tasks[id], c, cut), id, c, cut)
  {
    hide SS.Next;
  }

  /**
   * Exactly when the key is used: an execution about to sign gets a prepared transaction, the switches pass as they
   * stand at that moment, fee and target or programs are the approved ones, and the vault answers. Otherwise the row
   * fails and nothing is signed.
   */
  lemma KeyIsUsedIff(w: World, id: nat, reply: Reply, cut: nat)
    requires Inv(w) && id in w.tasks && w.tasks[id].pc == Preparing
    ensures id < |w.rows|
    ensures var v, a := Step(w, Resume(id, reply, cut)), w.tasks[id].action;
      var passes := reply.Prepared? && reply.keyOk && SwitchesPass(w.control.db, a) && MaySign(w.rows[id], a, reply.context);
      if passes then SignsAs(w, v, id, reply.context, cut) && |v.signatures| == |w.signatures| + 1
      else Ends(w, v, id, Failed) && v.signatures == w.signatures
  {
    hide Inv, SS.Next, Sign, Cleared, MaySign;
    Facts(w, id);
    if reply.Prepared? {
      ClearedIff(w.rows[id], w.tasks[id].action, reply.context);
      SignIs(w, id, reply.context, cut);
    }
    hide RowOk;
  }

  lemma DispatchIs(w: World, id: nat, a: Action)
    requires id < |w.rows| && w.rows[id].status == Allowed
    ensures var r := w.rows[id];
      var pc := if IsLpRow(r) then Simulating else if r.kind == Approve then Preparing else Building;
      Dispatch(w, id, a) == w.(rows := w.rows[id := r.(status := Dispatched)], tasks := w.tasks[id := Task(a, pc)])
  {
    hide IsLpRow;
  }

  /**
   * What a start leaves: nothing unless the row is open to one and the switches pass; a swap has its prices on disk
   * before it is dispatched, and is built first, an approval is prepared at once, a liquidity action simulated first.
   */
  lemma StartLeaves(w: World, id: nat, a: Action, cut: nat)
    requires Inv(w)
    ensures var v := Step(w, Start(id, a, cut));
      if !(w.open && id < |w.rows| && id !in w.tasks && w.rows[id].status == Allowed && w.rows[id].kind == a.kind
           && SwitchesPass(w.control.db, a))
      then v == w
      else
        var r := w.rows[id];
        var swap := !IsLpRow(r) && r.kind != Approve;
        var priced := w.(rows := w.rows[id := if swap then r.(quotePrices := Some(a.prices)) else r]);
        if swap && cut == 0 then v == Die(priced)
        else
          var pc := if IsLpRow(r) then Simulating else if swap then Building else Preparing;
          v == priced.(rows := priced.rows[id := priced.rows[id].(status := Dispatched)], tasks := w.tasks[id := Task(a, pc)])
  {
    hide Inv, SS.Next, Dispatch;
    assert id < |w.rows| ==> w.rows[id := w.rows[id]] == w.rows;
    assert id !in w.tasks ==> w.tasks - {id} == w.tasks;
    if id < |w.rows| && w.rows[id].status == Allowed {
      DispatchIs(w, id, a);
      DispatchIs(w.(rows := w.rows[id := w.rows[id].(quotePrices := Some(a.prices))]), id, a);
    }
  }

  // ---------------------------------------------------------------------------
  // Confirmed receipts
  // ---------------------------------------------------------------------------

  /** A polling execution, and what the chain truthfully says of its confirmed transaction. */
  ghost predicate Learns(w: World, id: nat, a: Answer) {
    && Inv(w) && id in w.tasks && id < |w.rows| && w.tasks[id].pc.Polling?
    && a.Confirmed? && Truthful(w, w.tasks[id].pc.hash, a)
  }

  /** The fill is entered: one more entry of the row, these positions, and the row filled unless the process dies first. */
  ghost predicate EntersFill(w: World, v: World, id: nat, positions: map<nat, nat>, cut: nat)
    requires id < |w.rows|
  {
    var once := multiset{id};
    var booked := w.(positions := positions, counts := w.counts.(booked := w.counts.booked + once));
    if cut == 0 then v == Die(booked.(counts := booked.counts.(torn := w.counts.torn + once)))
    else Ends(booked, v, id, Filled)
  }

  /** The row is filled with nothing to enter. */
  ghost predicate FillsBlank(w: World, v: World, id: nat)
    requires id < |w.rows|
  {
    Ends(w.(counts := w.counts.(blank := w.counts.blank + multiset{id})), v, id, Filled)
  }

  lemma FillFirst(w: World, id: nat, e: Entry, cut: nat)
    requires id < |w.rows| && w.rows[id].status == Broadcast
    ensures e.Nothing? ==> FillsBlank(w, BookThenFill(w, id, e, cut), id)
    ensures e.LedgerLine? ==> EntersFill(w, BookThenFill(w, id, e, cut), id, w.positions, cut)
    ensures e.Moves? && Held(w.positions, e.pool) + e.delta >= 0 ==>
      EntersFill(w, BookThenFill(w, id, e, cut), id, Put(w.positions, e.pool, Held(w.positions, e.pool) + e.delta), cut)
  {
    hide SS.Next, Put, Held;
  }

  /** The executor books what it learns. */
  lemma ConfirmedIsBooked(w: World, id: nat, a: Answer, cut: nat)
    requires Learns(w, id, a)
    ensures w.rows[id].status == Broadcast
    ensures Step(w, Resume(id, Receipt(a), cut)) == Book(w, id, w.tasks[id], a, cut)
    ensures !IsLpRow(w.rows[id]) && w.rows[id].kind != Approve ==> w.rows[id].quotePrices == Some(w.tasks[id].action.prices)
  {
    hide Inv, SS.Next, Book;
    Facts(w, id);
  }

  lemma BookIs(w: World, id: nat, t: Task, a: Answer, cut: nat)
    requires id < |w.rows| && a.Confirmed?
    ensures var r, v := w.rows[id], Book(w, id, t, a, cut);
      var priced := Priced(Some(t.action.prices));
      if r.kind == Approve then v == BookThenFill(w, id, Nothing, cut)
      else if IsLpRow(r) then
        v == if LpRefused(r, a, t.action.prices, w.positions) then Drop(w, id)
             else BookThenFill(w, id, LiveEntry(r, a, w.positions), cut)
      else
        v == if priced && !Recordable(r.amountIn, ReceivedOut(r, a), t.action.prices) then Drop(w, id)
             else BookThenFill(w, id, if priced then LedgerLine else Nothing, cut)
  {
    hide BookThenFill, LpRefused, LiveEntry, IsLpRow;
  }

  lemma DropIs(w: World, id: nat)
    requires id < |w.rows| && w.rows[id].status == Broadcast
    ensures Ends(w, Drop(w, id), id, Broadcast)
  {
    SameRow(w.rows, id);
  }

  /**
   * A confirmed swap or approval: a swap whose fill the ledger refuses stays open for the reconciler, one with
   * prices enters one line, and one without, like an approval, is filled with no line. No position moves.
   */
  lemma ConfirmedSwapLeaves(w: World, id: nat, a: Answer, cut: nat)
    requires Learns(w, id, a) && !IsLpRow(w.rows[id])
    ensures var r, v := w.rows[id], Step(w, Resume(id, Receipt(a), cut));
      if r.kind == Approve || !WithPrices(r) then FillsBlank(w, v, id)
      else if Unbookable(r, a) then Ends(w, v, id, Broadcast)
      else EntersFill(w, v, id, w.positions, cut)
  {
    ConfirmedIsBooked(w, id, a, cut);
    hide Step, Learns, SS.Next, Book, BookThenFill, Drop, LpRefused, LiveEntry, IsLpRow, Ends, EntersFill, FillsBlank;
    BookIs(w, id, w.tasks[id], a, cut);
    DropIs(w, id);
    FillFirst(w, id, Nothing, cut);
    FillFirst(w, id, LedgerLine, cut);
    if w.rows[id].kind != Approve {
      SwapRefusedIff(w.rows[id], a, w.tasks[id].action.prices);
    }
    hide Priced, Recordable, WithPrices, Unbookable, ReceivedOut;
  }

  lemma SwapRefusedIff(r: Row, a: Answer, prices: Prices)
    requires r.quotePrices == Some(prices) && a.Confirmed?
    ensures Priced(Some(prices)) <==> WithPrices(r)
    ensures WithPrices(r) ==> (Unbookable(r, a) <==> !Recordable(r.amountIn, ReceivedOut(r, a), prices))
  {
  }

  /** The position with so many tokens more; a pool without one starts from none. */
  function Plus(positions: map<nat, nat>, pool: nat, tokens: nat): map<nat, nat> {
    positions[pool := (if pool in positions then positions[pool] else 0) + tokens]
  }

  /** The position with so many tokens less; one that reaches zero is deleted. */
  function Less(positions: map<nat, nat>, pool: nat, tokens: nat): map<nat, nat>
    requires pool in positions && tokens <= positions[pool]
  {
    if tokens == positions[pool] then positions - {pool} else positions[pool := positions[pool] - tokens]
  }

  lemma PutIs(positions: map<nat, nat>, pool: nat, tokens: nat)
    ensures tokens > 0 ==> Put(positions, pool, Held(positions, pool) + tokens) == Plus(positions, pool, tokens)
    ensures pool in positions && tokens <= positions[pool] ==>
      Put(positions, pool, Held(positions, pool) - tokens) == Less(positions, pool, tokens)
  {
  }

  /** The executor values both tokens of a liquidity fill before it books it. */
  predicate BothValued(p: Prices) {
    p.tokenIn.Atto? && p.tokenIn.value > 0 && p.tokenOut.Atto? && p.tokenOut.value > 0
  }

  /** The row's burn of a position that holds it. */
  predicate BurnsHeld(r: Row, positions: map<nat, nat>) {
    && r.kind == LpRemove && r.pool.Some? && r.burn.Some?
    && r.pool.value in positions && r.burn.value <= positions[r.pool.value]
  }

  /** The LP tokens an add minted: what the receipt shows, and only if it shows none the quote's minimum. */
  function MintedTokens(r: Row, a: Answer): nat
    requires a.Confirmed?
  {
    match (a.minted, r.minOut)
    case (Some(shown), _) => shown
    case (None, Some(least)) => least
    case (None, None) => 0
  }

  /**
   * A confirmed liquidity action. An add or a rebalance raises its pool's position by the tokens minted, a removal
   * lowers it by the row's burn, every other pool stays; without both values, or with nothing minted or burned, the row
   * stays open; a burn of more than is held, and a claim, fill the row and move nothing.
   */
  lemma ConfirmedLpLeaves(w: World, id: nat, a: Answer, cut: nat)
    requires Learns(w, id, a) && IsLpRow(w.rows[id])
    ensures var r, v := w.rows[id], Step(w, Resume(id, Receipt(a), cut));
      var ps := w.positions;
      if r.kind == Approve then FillsBlank(w, v, id)
      else if !BothValued(w.tasks[id].action.prices) then Ends(w, v, id, Broadcast)
      else if r.kind in {LpAdd, LpRebalance} && r.pool.Some? then
        if MintedTokens(r, a) == 0 then Ends(w, v, id, Broadcast)
        else EntersFill(w, v, id, Plus(ps, r.pool.value, MintedTokens(r, a)), cut)
      else if BurnsHeld(r, ps) then
        if r.burn.value == 0 then Ends(w, v, id, Broadcast)
        else EntersFill(w, v, id, Less(ps, r.pool.value, r.burn.value), cut)
      else FillsBlank(w, v, id)
  {
    ConfirmedIsBooked(w, id, a, cut);
    ConfirmedIsBooked(w, id, a, cut);
    hide Step, Learns, SS.Next, Book, BookThenFill, Drop, IsLpRow, Ends, EntersFill, FillsBlank, Put, Held, Plus, Less;
    hide LpRefused, LiveEntry, BurnsHeld, MintedTokens, BothValued;
    var r, ps := w.rows[id], w.positions;
    BookIs(w, id, w.tasks[id], a, cut);
    LpRefusedIff(r, a, w.tasks[id].action.prices, ps);
    DropIs(w, id);
    FillFirst(w, id, Nothing, cut);
    LpFillFirst(w, id, a, cut);
  }

  /** What an entry that is not refused leaves. */
  lemma LpFillFirst(w: World, id: nat, a: Answer, cut: nat)
    requires id < |w.rows| && w.rows[id].status == Broadcast && a.Confirmed?
    ensures var r, v := w.rows[id], BookThenFill(w, id, LiveEntry(w.rows[id], a, w.positions), cut);
      if r.kind in {LpAdd, LpRebalance} && r.pool.Some? then
        MintedTokens(r, a) > 0 ==> EntersFill(w, v, id, Plus(w.positions, r.pool.value, MintedTokens(r, a)), cut)
      else if BurnsHeld(r, w.positions) then EntersFill(w, v, id, Less(w.positions, r.pool.value, r.burn.value), cut)
      else FillsBlank(w, v, id)
  {
    hide BookThenFill, EntersFill, FillsBlank, Put, Held, Plus, Less, LiveEntry, MintedTokens, BurnsHeld;
    var r, ps := w.rows[id], w.positions;
    LiveEntryIs(r, a, ps);
    FillFirst(w, id, LiveEntry(r, a, ps), cut);
    if r.kind in {LpAdd, LpRebalance} && r.pool.Some? {
      PutIs(ps, r.pool.value, MintedTokens(r, a));
    } else if BurnsHeld(r, ps) {
      BurnIs(r, ps);
      PutIs(ps, r.pool.value, r.burn.value);
      HeldIs(ps, r.pool.value);
    }
  }

  lemma BurnIs(r: Row, positions: map<nat, nat>)
    requires BurnsHeld(r, positions)
    ensures r.pool.Some? && r.burn.Some? && r.pool.value in positions && r.burn.value <= positions[r.pool.value]
  {
  }

  lemma LpRefusedIff(r: Row, a: Answer, prices: Prices, positions: map<nat, nat>)
    requires a.Confirmed?
    ensures LpRefused(r, a, prices, positions) <==>
      || !BothValued(prices)
      || (r.kind in {LpAdd, LpRebalance} && r.pool.Some? && MintedTokens(r, a) == 0)
      || (BurnsHeld(r, positions) && r.burn.value == 0)
  {
  }

  lemma LiveEntryIs(r: Row, a: Answer, positions: map<nat, nat>)
    requires a.Confirmed?
    ensures LiveEntry(r, a, positions) ==
      if r.kind in {LpAdd, LpRebalance} && r.pool.Some? then Moves(r.pool.value, MintedTokens(r, a))
      else if BurnsHeld(r, positions) then Moves(r.pool.value, 0 - r.burn.value)
      else Nothing
  {
  }

  lemma HeldIs(positions: map<nat, nat>, pool: nat)
    ensures Held(positions, pool) == if pool in positions then positions[pool] else 0
  {
  }

  // ---------------------------------------------------------------------------
  // At boot
  // ---------------------------------------------------------------------------

  /** The row alone moves. */
  function Marked(w: World, id: nat, s: Status): World
    requires id < |w.rows|
  {
    w.(rows := w.rows[id := w.rows[id].(status := s)])
  }

  /** The reconciler may settle this row, and the chain's answer about its transaction is true. */
  ghost predicate Settles(w: World, id: nat, a: Answer) {
    && Inv(w) && w.control.up && !w.open && id < |w.rows| && InFlight(w.rows[id].status)
    && (w.rows[id].txHash.Some? ==> Truthful(w, w.rows[id].txHash.value, a))
  }

  /**
   * Settling a row that has no confirmed transaction: one that was never signed fails, a reverted one fails, and one
   * the chain says nothing final about stays as it is. Nothing is entered.
   */
  lemma UnconfirmedLeaves(w: World, id: nat, a: Answer, cut: nat)
    requires Settles(w, id, a) && (w.rows[id].status == Dispatched || !a.Confirmed?)
    ensures var v := Step(w, SettleOne(id, a, cut));
      if w.rows[id].status == Dispatched then v == Marked(w, id, Failed)
      else if a.Reverted? then v == if cut == 0 then Die(Marked(w, id, Broadcast)) else Marked(w, id, Failed)
      else v == w
  {
    hide Inv, SS.Next, BookThenFill, FillThenBook, BootEntry, Poison, IsLpRow;
    Facts(w, id);
    hide RowOk;
  }

  /** A death right after the row was marked as seen by the chain leaves just that mark. */
  lemma DiesSeen(w: World, id: nat, a: Answer)
    requires Settles(w, id, a) && w.rows[id].status != Dispatched && a.Confirmed?
    ensures Step(w, SettleOne(id, a, 0)) == Die(Marked(w, id, Broadcast))
  {
    hide Inv, SS.Next, BookThenFill, FillThenBook, BootEntry, Poison, IsLpRow;
    Facts(w, id);
    SeenIs(w, id);
    hide RowOk;
  }

  /** How a confirmed row is entered at boot: the entry and its death, the mark, or the mark alone. */
  ghost predicate EntersAtBoot(w: World, v: World, id: nat, positions: map<nat, nat>, cut: nat)
    requires id < |w.rows|
  {
    var once := multiset{id};
    var booked := w.(positions := positions, counts := w.counts.(booked := w.counts.booked + once));
    if cut == 1 then v == Die(Marked(booked.(counts := booked.counts.(torn := w.counts.torn + once)), id, Broadcast))
    else v == Marked(booked, id, Filled)
  }

  /**
   * A confirmed swap at boot: a fill the ledger refuses leaves it open, priced ones are entered and then filled, the
   * others only filled.
   */
  lemma SwapAtBootLeaves(w: World, id: nat, a: Answer, cut: nat)
    requires Settles(w, id, a) && w.rows[id].status != Dispatched && a.Confirmed? && !IsLpRow(w.rows[id]) && cut > 0
    ensures var r, v := w.rows[id], Step(w, SettleOne(id, a, cut));
      if r.kind == Approve || !WithPrices(r)
      then v == Marked(w.(counts := w.counts.(blank := w.counts.blank + multiset{id})), id, Filled)
      else if Unbookable(r, a) then v == Marked(w, id, Broadcast)
      else EntersAtBoot(w, v, id, w.positions, cut)
  {
    hide Inv, SS.Next, FillThenBook, IsLpRow, Mark, Poison;
    Facts(w, id);
    NoTasks(w);
    var r := w.rows[id];
    OneFill(id, r, a);
    SeenIs(w, id);
    hide RowOk;
    BootFillFirst(w, Marked(w, id, Broadcast), id, BootEntry(r, a, w.positions), cut - 1);
    hide BookThenFill, EntersAtBoot;
  }

  lemma NoTasks(w: World)
    requires Inv(w) && !w.open
    ensures w.tasks == map[]
  {
  }

  lemma SeenIs(w: World, id: nat)
    requires id < |w.rows| && w.rows[id].status in {Signed, Broadcast}
    ensures Mark(w, id, Broadcast) == Marked(w, id, Broadcast)
  {
    SameRow(w.rows, id);
  }

  lemma BootFillFirst(w: World, b: World, id: nat, e: Entry, cut: nat)
    requires id < |w.rows| && b == Marked(w, id, Broadcast) && w.tasks == map[] && !e.Moves?
    ensures var v := BookThenFill(b, id, e, cut);
      if e.Nothing? then v == Marked(w.(counts := w.counts.(blank := w.counts.blank + multiset{id})), id, Filled)
      else EntersAtBoot(w, v, id, w.positions, cut + 1)
  {
    hide SS.Next;
    assert b.tasks - {id} == w.tasks;
  }

  /** The row is filled first; with a death then, an entry that was due is lost. */
  ghost predicate MarksFirst(w: World, v: World, id: nat, positions: Option<map<nat, nat>>, cut: nat)
    requires id < |w.rows|
  {
    var once := multiset{id};
    var f := Marked(w, id, Filled);
    match positions
    case None =>
      var blank := f.(counts := w.counts.(blank := w.counts.blank + once));
      v == if cut == 1 then Die(blank) else blank
    case Some(ps) =>
      if cut == 1 then v == Die(f.(counts := w.counts.(lost := w.counts.lost + once)))
      else v == f.(positions := ps, counts := w.counts.(booked := w.counts.booked + once))
  }

  /** What the reconciler does to the positions: it has the receipt's mint and the row's burn, and no minimum. */
  function Rebooked(r: Row, a: Answer, positions: map<nat, nat>): Option<map<nat, nat>> {
    if r.kind == LpAdd && r.pool.Some? && a.Confirmed? && a.minted.Some? && a.minted.value > 0
    then Some(Plus(positions, r.pool.value, a.minted.value))
    else if BurnsHeld(r, positions) && r.burn.value > 0 then Some(Less(positions, r.pool.value, r.burn.value))
    else None
  }

  lemma LpAtBootLeaves(w: World, id: nat, a: Answer, cut: nat)
    requires Settles(w, id, a) && w.rows[id].status != Dispatched && a.Confirmed? && IsLpRow(w.rows[id]) && cut > 0
    ensures MarksFirst(w, Step(w, SettleOne(id, a, cut)), id, Rebooked(w.rows[id], a, w.positions), cut)
  {
    hide Inv, SS.Next, BookThenFill, IsLpRow, Mark, FillThenBook;
    Facts(w, id);
    var r := w.rows[id];
    SeenIs(w, id);
    hide RowOk;
    var b := Marked(w, id, Broadcast);
    RebookedIs(r, a, w.positions);
    BootMarkFirst(w, b, id, BootEntry(r, a, w.positions), Rebooked(r, a, w.positions), cut - 1);
    hide MarksFirst, Rebooked, BootEntry;
  }

  lemma RebookedIs(r: Row, a: Answer, positions: map<nat, nat>)
    requires IsLpRow(r) && Judge(r, a) == Confirm
    ensures EntryGives(BootEntry(r, a, positions), positions, Rebooked(r, a, positions))
  {
    hide Put, Plus, Less;
    if r.pool.Some? {
      HeldIs(positions, r.pool.value);
      if a.Confirmed? && a.minted.Some? {
        PutIs(positions, r.pool.value, a.minted.value);
      }
      if r.burn.Some? {
        PutIs(positions, r.pool.value, r.burn.value);
      }
    }
  }

  predicate EntryGives(e: Entry, positions: map<nat, nat>, after: Option<map<nat, nat>>) {
    match e
    case Nothing => after == None
    case LedgerLine => false
    case Moves(pool, delta) =>
      Held(positions, pool) + delta >= 0 && after == Some(Put(positions, pool, Held(positions, pool) + delta))
  }

  lemma BootMarkFirst(w: World, b: World, id: nat, e: Entry, after: Option<map<nat, nat>>, cut: nat)
    requires id < |w.rows| && b == Marked(w, id, Broadcast) && EntryGives(e, w.positions, after)
    ensures MarksFirst(w, FillThenBook(b, id, e, cut), id, after, cut + 1)
  {
    FilledIs(w, b, id);
    hide SS.Next, Held, Put, Mark;
  }

  lemma FilledIs(w: World, b: World, id: nat)
    requires id < |w.rows| && b == Marked(w, id, Broadcast)
    ensures Mark(b, id, Filled) == Marked(w, id, Filled)
  {
  }

  // ---------------------------------------------------------------------------
  // Positions over a run
  // ---------------------------------------------------------------------------

  function Tokens(positions: map<nat, nat>, pool: nat): nat {
    if pool in positions then positions[pool] else 0
  }

  /** The event enters a fill of the row. */
  predicate Enters(w: World, e: Event, id: nat) {
    Step(w, e).counts.booked[id] > w.counts.booked[id]
  }

  /** The row and the chain's answer an event is about. */
  function Learned(e: Event): Option<(nat, Answer)> {
    match e
    case Resume(id, Receipt(a), _) => Some((id, a))
    case SettleOne(id, a, _) => Some((id, a))
    case _ => None
  }

  /** LP tokens the event enters into the pool's position, for an add or a rebalance. */
  function TokensIn(w: World, e: Event, pool: nat): nat {
    match Learned(e)
    case None => 0
    case Some((id, a)) =>
      if id < |w.rows| && Enters(w, e, id) && a.Confirmed?
         && w.rows[id].kind in {LpAdd, LpRebalance} && w.rows[id].pool == Some(pool)
      then MintedTokens(w.rows[id], a) else 0
  }

  /** LP tokens the event takes out of it, for a removal. */
  function TokensOut(w: World, e: Event, pool: nat): nat {
    match Learned(e)
    case None => 0
    case Some((id, _)) =>
      if id < |w.rows| && Enters(w, e, id)
         && w.rows[id].kind == LpRemove && w.rows[id].pool == Some(pool) && w.rows[id].burn.Some?
      then w.rows[id].burn.value else 0
  }

  predicate NoZeroes(positions: map<nat, nat>) {
    forall pool :: pool in positions ==> positions[pool] > 0
  }

  /** The positions are as they were, or one pool's moved by what the event enters. */
  ghost predicate MovesBy(w: World, v: World, pool: nat, tokensIn: nat, tokensOut: nat) {
    && Tokens(v.positions, pool) == Tokens(w.positions, pool) + tokensIn - tokensOut
    && (NoZeroes(w.positions) ==> NoZeroes(v.positions))
  }

  ghost predicate Untouched(w: World, v: World) {
    v.positions == w.positions && v.counts.booked == w.counts.booked
  }

  /** The event tells an execution, or the reconciler, that a transaction confirmed. */
  ghost predicate TellsConfirmed(w: World, e: Event) {
    match e
    case Resume(id, Receipt(a), _) => Learns(w, id, a)
    case SettleOne(id, a, cut) => Settles(w, id, a) && w.rows[id].status != Dispatched && a.Confirmed? && cut > 0
    case _ => false
  }

  lemma Shows(w: World, v: World, id: nat, positions: map<nat, nat>, cut: nat)
    requires id < |w.rows|
    ensures EntersFill(w, v, id, positions, cut) || EntersAtBoot(w, v, id, positions, cut) ==>
      v.positions == positions && v.counts.booked == w.counts.booked + multiset{id}
    ensures FillsBlank(w, v, id) ==> Untouched(w, v)
    ensures forall s :: Ends(w, v, id, s) ==> Untouched(w, v)
  {
    hide SS.Next;
  }

  lemma ShowsNothing(w: World, v: World, id: nat)
    requires id < |w.rows| && id in w.tasks
    ensures forall s, pc :: GoesOn(w, v, id, s, pc) ==> Untouched(w, v)
    ensures forall c, n: nat :: SignsAs(w, v, id, c, n) ==> Untouched(w, v)
  {
    hide SS.Next;
  }

  lemma ShowsAtBoot(w: World, v: World, id: nat, after: Option<map<nat, nat>>, cut: nat)
    requires id < |w.rows| && MarksFirst(w, v, id, after, cut)
    ensures if after.Some? && cut != 1 then v.positions == after.value && v.counts.booked == w.counts.booked + multiset{id}
            else Untouched(w, v)
  {
    hide SS.Next;
  }

  lemma ContinueUntouched(w: World, id: nat, reply: Reply, cut: nat)
    requires Inv(w) && id in w.tasks && id < |w.rows| && !TellsConfirmed(w, Resume(id, reply, cut))
    ensures Untouched(w, Step(w, Resume(id, reply, cut)))
  {
    AnswerLeaves(w, id, reply, cut);
    if w.tasks[id].pc == Preparing {
      KeyIsUsedIff(w, id, reply, cut);
    }
    Shows(w, Step(w, Resume(id, reply, cut)), id, w.positions, cut);
    ShowsNothing(w, Step(w, Resume(id, reply, cut)), id);
    hide Inv, Step, SS.Next, MaySign, SwitchesPass, Ends, GoesOn, SignsAs, EntersFill, EntersAtBoot, FillsBlank, Untouched;
  }

  lemma SettleUntouched(w: World, id: nat, a: Answer, cut: nat)
    requires Settles(w, id, a) && !TellsConfirmed(w, SettleOne(id, a, cut))
    ensures Untouched(w, SettleRow(w, id, a, cut))
  {
    hide Inv, SS.Next, BookThenFill, FillThenBook, BootEntry, Poison;
    Facts(w, id);
  }

  lemma OthersUntouched(w: World, e: Event)
    requires Inv(w) && !TellsConfirmed(w, e)
    ensures Untouched(w, Step(w, e))
  {
    hide SS.Next, Continue, SettleRow, Truthful, Inv;
    match e
    case Start(id, a, cut) => StartLeaves(w, id, a, cut);
    case Resume(id, reply, cut) => if id in w.tasks && id < |w.rows| { ContinueUntouched(w, id, reply, cut); }
    case SettleOne(id, a, cut) => if Settles(w, id, a) { SettleUntouched(w, id, a, cut); }
    case _ =>
  }

  lemma PlusMoves(positions: map<nat, nat>, at: nat, tokens: nat, pool: nat)
    ensures Tokens(Plus(positions, at, tokens), pool) == Tokens(positions, pool) + if pool == at then tokens else 0
    ensures NoZeroes(positions) && tokens > 0 ==> NoZeroes(Plus(positions, at, tokens))
  {
  }

  lemma LessMoves(positions: map<nat, nat>, at: nat, tokens: nat, pool: nat)
    requires at in positions && tokens <= positions[at]
    ensures Tokens(Less(positions, at, tokens), pool) == Tokens(positions, pool) - if pool == at then tokens else 0
    ensures NoZeroes(positions) ==> NoZeroes(Less(positions, at, tokens))
  {
  }

  lemma LearnedMoves(w: World, id: nat, a: Answer, cut: nat, pool: nat)
    requires Learns(w, id, a)
    ensures var e := Resume(id, Receipt(a), cut); MovesBy(w, Step(w, e), pool, TokensIn(w, e, pool), TokensOut(w, e, pool))
  {
    hide Inv, Step, Plus, Less, Tokens, NoZeroes;
    assert id < |w.rows| && a.Confirmed?;
    hide Learns, Ends, EntersFill, FillsBlank, GoesOn, SignsAs, EntersAtBoot;
    var r, v := w.rows[id], Step(w, Resume(id, Receipt(a), cut));
    Shows(w, v, id, w.positions, cut);
    if !IsLpRow(r) {
      ConfirmedSwapLeaves(w, id, a, cut);
    } else {
      ConfirmedLpLeaves(w, id, a, cut);
      if r.pool.Some? {
        PlusMoves(w.positions, r.pool.value, MintedTokens(r, a), pool);
        Shows(w, v, id, Plus(w.positions, r.pool.value, MintedTokens(r, a)), cut);
        if BurnsHeld(r, w.positions) {
          LessMoves(w.positions, r.pool.value, r.burn.value, pool);
          Shows(w, v, id, Less(w.positions, r.pool.value, r.burn.value), cut);
        }
      }
    }
    hide MintedTokens, WithPrices, Unbookable, BothValued, SS.Next;
  }

  lemma SettledMoves(w: World, id: nat, a: Answer, cut: nat, pool: nat)
    requires Settles(w, id, a) && w.rows[id].status != Dispatched && a.Confirmed? && cut > 0
    ensures var e := SettleOne(id, a, cut); MovesBy(w, Step(w, e), pool, TokensIn(w, e, pool), TokensOut(w, e, pool))
  {
    hide Inv, Step, Plus, Less, Tokens, NoZeroes;
    assert id < |w.rows|;
    hide Settles, EntersAtBoot, MarksFirst, Ends, EntersFill, FillsBlank, GoesOn, SignsAs;
    var r, v := w.rows[id], Step(w, SettleOne(id, a, cut));
    Shows(w, v, id, w.positions, cut);
    if !IsLpRow(r) {
      SwapAtBootLeaves(w, id, a, cut);
    } else {
      LpAtBootLeaves(w, id, a, cut);
      ShowsAtBoot(w, v, id, Rebooked(r, a, w.positions), cut);
      if r.pool.Some? {
        PlusMoves(w.positions, r.pool.value, MintedTokens(r, a), pool);
        if BurnsHeld(r, w.positions) {
          LessMoves(w.positions, r.pool.value, r.burn.value, pool);
        }
      }
    }
    hide WithPrices, Unbookable, SS.Next;
  }

  lemma StepMoves(w: World, e: Event, pool: nat)
    requires Inv(w)
    ensures MovesBy(w, Step(w, e), pool, TokensIn(w, e, pool), TokensOut(w, e, pool))
  {
    hide Inv, Step, Learns, Settles;
    if TellsConfirmed(w, e) {
      match e
      case Resume(id, Receipt(a), cut) => LearnedMoves(w, id, a, cut, pool);
      case SettleOne(id, a, cut) => SettledMoves(w, id, a, cut, pool);
    } else {
      OthersUntouched(w, e);
    }
  }

  function InOver(es: seq<Event>, pool: nat): nat {
    if es == [] then 0 else InOver(es[..|es| - 1], pool) + TokensIn(Run(es[..|es| - 1]), es[|es| - 1], pool)
  }

  function OutOver(es: seq<Event>, pool: nat): nat {
    if es == [] then 0 else OutOver(es[..|es| - 1], pool) + TokensOut(Run(es[..|es| - 1]), es[|es| - 1], pool)
  }

  /**
   * Over every run, deaths included, a pool's position is the tokens adds and rebalances entered, as their receipts or
   * quotes give them, less the tokens removals entered; and no position of zero tokens is kept.
   */
  lemma {:induction false} PositionsAreAddsLessRemovals(es: seq<Event>, pool: nat)
    ensures Tokens(Run(es).positions, pool) == InOver(es, pool) - OutOver(es, pool)
    ensures NoZeroes(Run(es).positions)
  {
    hide Step, TokensIn, TokensOut;
    if es != [] {
      var k := |es| - 1;
      PositionsAreAddsLessRemovals(es[..k], pool);
      EveryRun(es[..k]);
      StepMoves(Run(es[..k]), es[k], pool);
    }
  }
}
