/**
 * Settling the rows a previous process left in flight.
 *
 * Two reconcilers share the trade table: the swap executor's and the liquidity executor's.
 * Each asks the chain about every in-flight row of its own and books what landed.
 */
module Reconcile {
  import opened Common
  import opened Trades

  /** What the adapter says about a row's transaction when it is asked. */
  datatype Answer =
    | NoAdapter
    | Silent                       // the receipt call threw
    | Pending
    | Unknown
    | Reverted
    | Confirmed(amountOut: Option<nat>, minted: Option<nat>)

  datatype Fill = Fill(id: nat, amountIn: nat, amountOut: nat, prices: Prices)

  /** A change to an LP position, keyed by pool. */
  datatype LpEntry = LpEntry(id: nat, pool: nat, delta: int)

  datatype Books = Books(rows: seq<Row>, fills: seq<Fill>, positions: map<nat, nat>, entries: seq<LpEntry>)

  datatype Report = Report(checked: nat, filled: nat, failed: nat, stillPending: nat)

  const EMPTY_REPORT := Report(0, 0, 0, 0)

  datatype Desk = SwapDesk | LpDesk

  predicate Owns(desk: Desk, r: Row) {
    IsLpRow(r) == desk.LpDesk?
  }

  datatype Verdict = Abandon | Wait | Revert | Confirm

  function Judge(r: Row, a: Answer): Verdict {
    if r.status == Dispatched || r.txHash.None? then Abandon
    else match a
      case NoAdapter | Silent | Pending | Unknown => Wait
      case Reverted => Revert
      case Confirmed(_, _) => Confirm
  }

  function ReceivedOut(r: Row, a: Answer): nat
    requires a.Confirmed?
  {
    if a.amountOut.Some? then a.amountOut.value else if r.minOut.Some? then r.minOut.value else 0
  }

  /** There are prices to book with: neither side is the literal "0". */
  predicate Priced(p: Option<Prices>) {
    p.Some? && p.value.tokenIn.Atto? && p.value.tokenOut.Atto?
  }

  /** What `recordFill` accepts; anything else throws before it writes. */
  predicate Recordable(amountIn: nat, amountOut: nat, p: Prices) {
    && amountIn > 0 && amountOut > 0
    && p.tokenIn.Atto? && p.tokenIn.value > 0
    && p.tokenOut.Atto? && p.tokenOut.value > 0
  }

  predicate Bookable(r: Row) {
    r.kind != Approve && Priced(r.quotePrices)
  }

  /** Neither price is the literal "0". */
  predicate WithPrices(r: Row) {
    r.quotePrices.Some? && !r.quotePrices.value.tokenIn.ZeroLiteral? && !r.quotePrices.value.tokenOut.ZeroLiteral?
  }

  /**
   * The fill moves nothing in, nothing out, or has a price of zero. What it moves out is what the receipt reports,
   * and only when that reports nothing what the quote promised at least.
   */
  predicate Unbookable(r: Row, a: Answer)
    requires WithPrices(r) && a.Confirmed?
  {
    || r.amountIn == 0
    || a.amountOut == Some(0) || (a.amountOut.None? && (r.minOut.None? || r.minOut == Some(0)))
    || r.quotePrices.value.tokenIn == Atto(0) || r.quotePrices.value.tokenOut == Atto(0)
  }

  /** The ledger's line for a confirmed row: the amount out is the receipt's whenever it reports one. */
  predicate IsFillOf(f: Fill, id: nat, r: Row, a: Answer) {
    && f.id == id && f.amountIn == r.amountIn && Some(f.prices) == r.quotePrices
    && a.Confirmed?
    && (a.amountOut.Some? ==> f.amountOut == a.amountOut.value)
    && (a.amountOut.None? ==> r.minOut == Some(f.amountOut))
  }

  /** A confirmed swap whose fill the ledger refuses: booking it throws out of the whole pass. */
  predicate Poison(r: Row, a: Answer) {
    && Judge(r, a) == Confirm
    && Bookable(r)
    && !Recordable(r.amountIn, ReceivedOut(r, a), r.quotePrices.value)
  }

  // ---------------------------------------------------------------------------
  // One row
  // ---------------------------------------------------------------------------

  datatype Pass = Pass(books: Books, report: Report, threw: bool)

  predicate BurnsFrom(r: Row, positions: map<nat, nat>) {
    r.kind == LpRemove && r.pool.Some? && r.burn.Some? && r.pool.value in positions
    && positions[r.pool.value] >= r.burn.value
  }

  predicate MintsInto(r: Row, a: Answer) {
    r.kind == LpAdd && r.pool.Some? && a.Confirmed? && a.minted.Some? && a.minted.value > 0
  }

  function Held(positions: map<nat, nat>, pool: nat): nat {
    if pool in positions then positions[pool] else 0
  }

  /** A position that reaches zero has no row. */
  function Put(positions: map<nat, nat>, pool: nat, held: nat): map<nat, nat> {
    if held == 0 then positions - {pool} else positions[pool := held]
  }

  /** Where a listed row ends. A poisoned swap has been marked broadcast by the time it throws. */
  function RowAfter(desk: Desk, r: Row, a: Answer): Row {
    match Judge(r, a)
    case Abandon => r.(status := Failed)
    case Wait => r
    case Revert => r.(status := Failed)
    case Confirm => r.(status := if desk.SwapDesk? && Poison(r, a) then Broadcast else Filled)
  }

  function FillsFor(id: nat, r: Row, a: Answer): seq<Fill> {
    if Judge(r, a) == Confirm && Bookable(r) && !Poison(r, a)
    then [Fill(id, r.amountIn, ReceivedOut(r, a), r.quotePrices.value)] else []
  }

  /** The LP tokens a confirmed row adds to its pool's position, or takes out of it. */
  function Delta(r: Row, a: Answer, positions: map<nat, nat>): int {
    if Judge(r, a) != Confirm then 0
    else if MintsInto(r, a) then a.minted.value
    else if BurnsFrom(r, positions) then 0 - r.burn.value
    else 0
  }

  function EntriesFor(id: nat, r: Row, a: Answer, positions: map<nat, nat>): seq<LpEntry> {
    if Delta(r, a, positions) != 0 then [LpEntry(id, r.pool.value, Delta(r, a, positions))] else []
  }

  function PositionsAfter(r: Row, a: Answer, positions: map<nat, nat>): map<nat, nat> {
    if Delta(r, a, positions) == 0 then positions
    else Put(positions, r.pool.value, Held(positions, r.pool.value) + Delta(r, a, positions))
  }

  /** Booking a poisoned fill throws; so does burning nothing, after the row was marked filled. */
  predicate Throws(desk: Desk, r: Row, a: Answer, positions: map<nat, nat>) {
    if desk.SwapDesk? then Poison(r, a)
    else Judge(r, a) == Confirm && BurnsFrom(r, positions) && r.burn.value == 0
  }

  function Counted(rep: Report, v: Verdict, threw: bool): Report {
    Report(rep.checked + 1,
           rep.filled + (if v == Confirm && !threw then 1 else 0),
           rep.failed + (if v == Abandon || v == Revert then 1 else 0),
           rep.stillPending + (if v == Wait then 1 else 0))
  }

  function BooksAfter(desk: Desk, b: Books, id: nat, r: Row, a: Answer): Books
    requires id < |b.rows|
  {
    var rows := b.rows[id := RowAfter(desk, r, a)];
    if desk.SwapDesk? then Books(rows, b.fills + FillsFor(id, r, a), b.positions, b.entries)
    else Books(rows, b.fills, PositionsAfter(r, a, b.positions), b.entries + EntriesFor(id, r, a, b.positions))
  }

  /** Settling one row; `r` is the row as it was listed when the pass began. */
  function Settle(desk: Desk, p: Pass, id: nat, r: Row, a: Answer): (q: Pass)
    requires id < |p.books.rows|
    ensures |q.books.rows| == |p.books.rows|
  {
    var threw := Throws(desk, r, a, p.books.positions);
    Pass(BooksAfter(desk, p.books, id, r, a), Counted(p.report, Judge(r, a), threw), threw)
  }

  // ---------------------------------------------------------------------------
  // One pass
  // ---------------------------------------------------------------------------

  predicate Listed(desk: Desk, r: Row) {
    InFlight(r.status) && Owns(desk, r)
  }

  /** The first n rows of the table, in proposal order; a throw ends the pass. */
  function Upto(desk: Desk, b: Books, n: nat, oracle: nat -> Answer): (p: Pass)
    requires n <= |b.rows|
    ensures |p.books.rows| == |b.rows|
  {
    if n == 0 then Pass(b, EMPTY_REPORT, false)
    else
      var p := Upto(desk, b, n - 1, oracle);
      var r := b.rows[n - 1];
      if p.threw || !Listed(desk, r) then p else Settle(desk, p, n - 1, r, oracle(n - 1))
  }

  lemma UptoNext(desk: Desk, b: Books, n: nat, oracle: nat -> Answer)
    requires n < |b.rows| && !Upto(desk, b, n, oracle).threw
    ensures Upto(desk, b, n + 1, oracle)
         == if Listed(desk, b.rows[n]) then Settle(desk, Upto(desk, b, n, oracle), n, b.rows[n], oracle(n))
            else Upto(desk, b, n, oracle)
  {
    hide Settle;
  }

  /** The whole pass over an unchanging chain. */
  function Reconciled(desk: Desk, b: Books, oracle: nat -> Answer): (p: Pass)
    ensures |p.books.rows| == |b.rows|
  {
    Upto(desk, b, |b.rows|, oracle)
  }

  /** Once a prefix of the pass has thrown, or holds nothing more of the desk's, going on changes nothing. */
  lemma {:induction false} NothingLeft(desk: Desk, b: Books, m: nat, n: nat, oracle: nat -> Answer)
    requires m <= n <= |b.rows|
    requires Upto(desk, b, m, oracle).threw || forall i :: m <= i < n ==> !Listed(desk, b.rows[i])
    ensures Upto(desk, b, n, oracle) == Upto(desk, b, m, oracle)
  {
    hide Settle;
    if m < n {
      NothingLeft(desk, b, m, n - 1, oracle);
    }
  }

  // ---------------------------------------------------------------------------
  // The reconcilers as they run
  // ---------------------------------------------------------------------------

  class Ledger {
    var fills: seq<Fill>

    constructor ()
      ensures fills == []
    {
      fills := [];
    }

    /** Throws on a fill that moves nothing or has no price. */
    method RecordFill(f: Fill) returns (r: Result<()>)
      modifies this
      ensures r.Ok? <==> Recordable(f.amountIn, f.amountOut, f.prices)
      ensures fills == if r.Ok? then old(fills) + [f] else old(fills)
    {
      if f.amountIn == 0 || f.amountOut == 0 {
        return Err(Invalid);
      }
      if !(f.prices.tokenIn.Atto? && f.prices.tokenIn.value > 0) {
        return Err(Invalid);
      }
      if !(f.prices.tokenOut.Atto? && f.prices.tokenOut.value > 0) {
        return Err(Invalid);
      }
      fills := fills + [f];
      return Ok(());
    }
  }

  class LpStore {
    var positions: map<nat, nat>
    var entries: seq<LpEntry>

    constructor ()
      ensures positions == map[] && entries == []
    {
      positions, entries := map[], [];
    }

    method BookAdd(id: nat, pool: nat, minted: nat) returns (r: Result<()>)
      modifies this
      ensures r.Ok? <==> minted > 0
      ensures r.Ok? ==> positions == Put(old(positions), pool, Held(old(positions), pool) + minted)
                        && entries == old(entries) + [LpEntry(id, pool, minted)]
      ensures r.Err? ==> positions == old(positions) && entries == old(entries)
    {
      if minted == 0 {
        return Err(Invalid);
      }
      var held := if pool in positions then positions[pool] else 0;
      positions := positions[pool := held + minted];
      entries := entries + [LpEntry(id, pool, minted)];
      return Ok(());
    }

    method BookRemove(id: nat, pool: nat, burned: nat) returns (r: Result<()>)
      modifies this
      ensures r.Ok? <==> pool in old(positions) && 0 < burned <= old(positions)[pool]
      ensures r.Ok? ==> positions == Put(old(positions), pool, old(positions)[pool] - burned)
                        && entries == old(entries) + [LpEntry(id, pool, 0 - burned)]
      ensures r.Err? ==> positions == old(positions) && entries == old(entries)
    {
      if pool !in positions {
        return Err(Conflict);
      }
      var held := positions[pool];
      if burned == 0 || burned > held {
        return Err(Conflict);
      }
      if burned == held {
        positions := positions - {pool};
      } else {
        positions := positions[pool := held - burned];
      }
      entries := entries + [LpEntry(id, pool, 0 - burned)];
      return Ok(());
    }
  }

  class SwapReconciler {
    const trades: TradeStore
    const ledger: Ledger

    constructor (trades: TradeStore, ledger: Ledger)
      ensures this.trades == trades && this.ledger == ledger
    {
      this.trades, this.ledger := trades, ledger;
    }

    method BookFill(id: nat, trade: Row, a: Answer) returns (r: Result<()>)
      requires id < |trades.rows| && CanMove(trades.rows[id].status, Filled) && a.Confirmed?
      requires trade.status != Dispatched && trade.txHash.Some?
      modifies trades, ledger
      ensures r.Err? <==> trade.kind != Approve && WithPrices(trade) && Unbookable(trade, a)
      ensures trades.rows == if r.Ok? then old(trades.rows)[id := old(trades.rows)[id].(status := Filled)]
                             else old(trades.rows)
      ensures if r.Ok? && trade.kind != Approve && WithPrices(trade) then
                && |ledger.fills| == |old(ledger.fills)| + 1 && old(ledger.fills) <= ledger.fills
                && IsFillOf(ledger.fills[|old(ledger.fills)|], id, trade, a)
              else ledger.fills == old(ledger.fills)
    {
      if trade.kind == Approve {
        r := trades.Transition(id, Filled);
        return;
      }
      var amountOut := ReceivedOut(trade, a);
      if Priced(trade.quotePrices) {
        r := ledger.RecordFill(Fill(id, trade.amountIn, amountOut, trade.quotePrices.value));
        if r.Err? {
          return;
        }
      }
      r := trades.Transition(id, Filled);
    }

    method SettleRow(id: nat, trade: Row, receipt: Answer, before: Report)
      returns (report: Report, threw: bool)
      requires id < |trades.rows| && trades.rows[id] == trade && InFlight(trade.status)
      modifies trades, ledger
      ensures trades.rows == old(trades.rows)[id := RowAfter(SwapDesk, trade, receipt)]
      ensures ledger.fills == old(ledger.fills) + FillsFor(id, trade, receipt)
      ensures threw == Poison(trade, receipt)
      ensures report == Counted(before, Judge(trade, receipt), threw)
    {
      report, threw := before.(checked := before.checked + 1), false;
      if trade.status == Dispatched {
        var _ := trades.Transition(id, Failed);
        report := report.(failed := report.failed + 1);
        return;
      }
      if trade.txHash.None? {
        var _ := trades.Transition(id, Failed);
        report := report.(failed := report.failed + 1);
        return;
      }
      if receipt.NoAdapter? || receipt.Silent? || receipt.Pending? || receipt.Unknown? {
        report := report.(stillPending := report.stillPending + 1);
        return;
      }
      // a transaction the chain knows must have been sent
      if trade.status == Signed {
        var _ := trades.Transition(id, Broadcast);
      }
      if receipt.Reverted? {
        var _ := trades.Transition(id, Failed);
        report := report.(failed := report.failed + 1);
        return;
      }
      var booked := BookFill(id, trade, receipt);
      if booked.Err? {
        threw := true;
      } else {
        report := report.(filled := report.filled + 1);
      }
    }

    method Reconcile(oracle: nat -> Answer, ghost positions: map<nat, nat>, ghost entries: seq<LpEntry>)
      returns (report: Report, threw: bool)
      modifies trades, ledger
      ensures Pass(Books(trades.rows, ledger.fills, positions, entries), report, threw)
           == Reconciled(SwapDesk, old(Books(trades.rows, ledger.fills, positions, entries)), oracle)
    {
      hide Upto, Poison, Counted, Judge, RowAfter, FillsFor;
      ghost var before := Books(trades.rows, ledger.fills, positions, entries);
      report := EMPTY_REPORT;
      var listed := trades.rows;
      var ids := trades.ListInFlight();
      ghost var p := NoneListed(SwapDesk, before, oracle);
      for k := 0 to |ids|
        invariant |trades.rows| == |listed|
        invariant After(ids, k) <= |listed|
        invariant forall j :: After(ids, k) <= j < |listed| ==> trades.rows[j] == listed[j]
        invariant p == Upto(SwapDesk, before, After(ids, k), oracle)
        invariant !p.threw && p.report == report
        invariant p.books == Books(trades.rows, ledger.fills, positions, entries)
      {
        var id := ids[k];
        p := NextListed(SwapDesk, before, k, oracle);
        var trade := listed[id];
        if IsLpRow(trade) {
          continue;
        }
        report, threw := SettleRow(id, trade, oracle(id), report);
        if threw {
          return;
        }
      }
      threw := false;
      LastListed(SwapDesk, before, oracle);
    }
  }

  class LpReconciler {
    const trades: TradeStore
    const store: LpStore

    constructor (trades: TradeStore, store: LpStore)
      ensures this.trades == trades && this.store == store
    {
      this.trades, this.store := trades, store;
    }

    /** The row is marked before the position is booked; a refusal by the store therefore loses the booking. */
    method BookReconciled(id: nat, trade: Row, a: Answer) returns (r: Result<()>)
      requires id < |trades.rows| && CanMove(trades.rows[id].status, Filled) && a.Confirmed?
      modifies trades, store
      ensures trades.rows == old(trades.rows)[id := old(trades.rows)[id].(status := Filled)]
      ensures r.Err? <==> BurnsFrom(trade, old(store.positions)) && trade.burn.value == 0
      ensures if MintsInto(trade, a) then
                var pool, minted := trade.pool.value, a.minted.value;
                && store.positions == Put(old(store.positions), pool, Held(old(store.positions), pool) + minted)
                && store.entries == old(store.entries) + [LpEntry(id, pool, minted)]
              else if BurnsFrom(trade, old(store.positions)) && trade.burn.value > 0 then
                var pool, burned := trade.pool.value, trade.burn.value;
                && store.positions == Put(old(store.positions), pool, old(store.positions)[pool] - burned)
                && store.entries == old(store.entries) + [LpEntry(id, pool, 0 - burned)]
              else store.positions == old(store.positions) && store.entries == old(store.entries)
    {
      r := trades.Transition(id, Filled);
      if trade.kind == LpAdd && trade.pool.Some? {
        if a.minted.Some? && a.minted.value > 0 {
          r := store.BookAdd(id, trade.pool.value, a.minted.value);
        }
      } else if trade.kind == LpRemove && trade.pool.Some? {
        if BurnsFrom(trade, store.positions) {
          r := store.BookRemove(id, trade.pool.value, trade.burn.value);
        }
      }
    }

    method SettleRow(id: nat, trade: Row, receipt: Answer, before: Report)
      returns (report: Report, threw: bool)
      requires id < |trades.rows| && trades.rows[id] == trade && InFlight(trade.status)
      modifies trades, store
      ensures trades.rows == old(trades.rows)[id := RowAfter(LpDesk, trade, receipt)]
      ensures store.positions == PositionsAfter(trade, receipt, old(store.positions))
      ensures store.entries == old(store.entries) + EntriesFor(id, trade, receipt, old(store.positions))
      ensures threw == Throws(LpDesk, trade, receipt, old(store.positions))
      ensures report == Counted(before, Judge(trade, receipt), threw)
    {
      hide Put, IsLpRow;
      report, threw := before.(checked := before.checked + 1), false;
      if trade.status == Dispatched {
        var _ := trades.Transition(id, Failed);
        report := report.(failed := report.failed + 1);
        return;
      }
      if trade.txHash.None? {
        var _ := trades.Transition(id, Failed);
        report := report.(failed := report.failed + 1);
        return;
      }
      if receipt.NoAdapter? || receipt.Silent? || receipt.Pending? || receipt.Unknown? {
        report := report.(stillPending := report.stillPending + 1);
        return;
      }
      // a transaction the chain knows must have been sent
      if trade.status == Signed {
        var _ := trades.Transition(id, Broadcast);
      }
      if receipt.Reverted? {
        var _ := trades.Transition(id, Failed);
        report := report.(failed := report.failed + 1);
        return;
      }
      var booked := BookReconciled(id, trade, receipt);
      if booked.Err? {
        threw := true;
      } else {
        report := report.(filled := report.filled + 1);
      }
    }

    method Reconcile(oracle: nat -> Answer, ghost fills: seq<Fill>) returns (report: Report, threw: bool)
      modifies trades, store
      ensures Pass(Books(trades.rows, fills, store.positions, store.entries), report, threw)
           == Reconciled(LpDesk, old(Books(trades.rows, fills, store.positions, store.entries)), oracle)
    {
      hide Upto, Throws, Counted, Judge, RowAfter, PositionsAfter, EntriesFor;
      ghost var before := Books(trades.rows, fills, store.positions, store.entries);
      report := EMPTY_REPORT;
      var listed := trades.rows;
      var ids := trades.ListInFlight();
      ghost var p := NoneListed(LpDesk, before, oracle);
      for k := 0 to |ids|
        invariant |trades.rows| == |listed|
        invariant After(ids, k) <= |listed|
        invariant forall j :: After(ids, k) <= j < |listed| ==> trades.rows[j] == listed[j]
        invariant p == Upto(LpDesk, before, After(ids, k), oracle)
        invariant !p.threw && p.report == report
        invariant p.books == Books(trades.rows, fills, store.positions, store.entries)
      {
        var id := ids[k];
        p := NextListed(LpDesk, before, k, oracle);
        var trade := listed[id];
        if !IsLpRow(trade) {
          continue;
        }
        report, threw := SettleRow(id, trade, oracle(id), report);
        if threw {
          return;
        }
      }
      threw := false;
      LastListed(LpDesk, before, oracle);
    }
  }

  /** Where the table has been read to once the first k listed rows are settled. */
  function After(ids: seq<nat>, k: nat): nat
    requires k <= |ids|
  {
    if k == 0 then 0 else ids[k - 1] + 1
  }

  lemma Between(rows: seq<Row>, k: nat)
    requires k <= |InFlightIds(rows)|
    ensures var ids := InFlightIds(rows);
      && (k < |ids| ==> After(ids, k) <= ids[k] < |rows| && InFlight(rows[ids[k]].status))
      && After(ids, k) <= |rows|
      && forall i :: After(ids, k) <= i < (if k < |ids| then ids[k] else |rows|) ==> !InFlight(rows[i].status)
  {
    var ids := InFlightIds(rows);
    InFlightIdsAre(rows);
    assert k < |ids| ==> ids[k] in ids;
    forall i | After(ids, k) <= i < (if k < |ids| then ids[k] else |rows|) ensures !InFlight(rows[i].status) {
      assert forall x :: k <= x < |ids| ==> ids[k] <= ids[x];
      assert forall x :: 0 <= x < k ==> ids[x] <= ids[k - 1];
    }
  }

  lemma NoneListed(desk: Desk, b: Books, oracle: nat -> Answer) returns (p: Pass)
    ensures p == Upto(desk, b, 0, oracle) == Pass(b, EMPTY_REPORT, false)
  {
    p := Upto(desk, b, 0, oracle);
  }

  lemma NextListed(desk: Desk, b: Books, k: nat, oracle: nat -> Answer) returns (q: Pass)
    requires k < |InFlightIds(b.rows)| && After(InFlightIds(b.rows), k) <= |b.rows|
    requires !Upto(desk, b, After(InFlightIds(b.rows), k), oracle).threw
    ensures var ids := InFlightIds(b.rows);
      var id := ids[k];
      && After(ids, k) <= id < |b.rows| && InFlight(b.rows[id].status)
      && q == Upto(desk, b, id + 1, oracle)
      && var p := Upto(desk, b, After(ids, k), oracle);
      && (!Owns(desk, b.rows[id]) ==> q == p)
      && (Owns(desk, b.rows[id]) ==>
            && q.threw == Throws(desk, b.rows[id], oracle(id), p.books.positions)
            && q.report == Counted(p.report, Judge(b.rows[id], oracle(id)), q.threw)
            && q.books == BooksAfter(desk, p.books, id, b.rows[id], oracle(id)))
      && (q.threw ==> Reconciled(desk, b, oracle) == q)
  {
    hide Upto, Throws, BooksAfter, Counted, Judge;
    var ids := InFlightIds(b.rows);
    Between(b.rows, k);
    NothingLeft(desk, b, After(ids, k), ids[k], oracle);
    UptoNext(desk, b, ids[k], oracle);
    q := Upto(desk, b, ids[k] + 1, oracle);
    if q.threw {
      NothingLeft(desk, b, ids[k] + 1, |b.rows|, oracle);
    }
  }

  lemma LastListed(desk: Desk, b: Books, oracle: nat -> Answer)
    ensures var ids := InFlightIds(b.rows);
      After(ids, |ids|) <= |b.rows| && Reconciled(desk, b, oracle) == Upto(desk, b, After(ids, |ids|), oracle)
  {
    var ids := InFlightIds(b.rows);
    Between(b.rows, |ids|);
    NothingLeft(desk, b, After(ids, |ids|), |b.rows|, oracle);
  }

  // ---------------------------------------------------------------------------
  // What one pass does, row by row
  // ---------------------------------------------------------------------------

  /** How many of the first n rows are the desk's and got one of the verdicts. */
  function Tally(desk: Desk, rows: seq<Row>, n: nat, oracle: nat -> Answer, v: set<Verdict>): nat
    requires n <= |rows|
  {
    if n == 0 then 0
    else Tally(desk, rows, n - 1, oracle, v)
         + if Listed(desk, rows[n - 1]) && Judge(rows[n - 1], oracle(n - 1)) in v then 1 else 0
  }

  /** What one more row adds to a pass. */
  lemma PassStep(desk: Desk, b: Books, n: nat, oracle: nat -> Answer)
    requires 0 < n <= |b.rows|
    ensures var p, q := Upto(desk, b, n - 1, oracle), Upto(desk, b, n, oracle);
      var r := b.rows[n - 1];
      if p.threw || !Listed(desk, r) then q == p
      else
        && q.books == BooksAfter(desk, p.books, n - 1, r, oracle(n - 1))
        && q.books.rows == p.books.rows[n - 1 := RowAfter(desk, r, oracle(n - 1))]
        && q.threw == Throws(desk, r, oracle(n - 1), p.books.positions)
  {
    hide Judge, RowAfter, Throws, Counted, FillsFor, PositionsAfter, EntriesFor, IsLpRow;
  }

  lemma NoRows(desk: Desk, b: Books, oracle: nat -> Answer)
    ensures Upto(desk, b, 0, oracle) == Pass(b, EMPTY_REPORT, false)
  {
  }

  /** A row before the n-th is settled once, if listed, as it stood when the pass began; every other row stays. */
  lemma {:induction false} UptoRow(desk: Desk, b: Books, n: nat, i: nat, oracle: nat -> Answer)
    requires n <= |b.rows| && i < |b.rows|
    ensures var p := Upto(desk, b, n, oracle);
      && (n <= i || !Listed(desk, b.rows[i]) ==> p.books.rows[i] == b.rows[i])
      && (!p.threw && i < n && Listed(desk, b.rows[i]) ==> p.books.rows[i] == RowAfter(desk, b.rows[i], oracle(i)))
  {
    if n == 0 {
      NoRows(desk, b, oracle);
    } else {
      hide Upto, BooksAfter, Listed, RowAfter, Throws;
      UptoRow(desk, b, n - 1, i, oracle);
      PassStep(desk, b, n, oracle);
    }
  }

  lemma UptoRows(desk: Desk, b: Books, n: nat, oracle: nat -> Answer)
    requires n <= |b.rows|
    ensures var rows := Upto(desk, b, n, oracle).books.rows;
      && (forall i :: n <= i < |b.rows| ==> rows[i] == b.rows[i])
      && (forall i :: 0 <= i < |b.rows| && !Listed(desk, b.rows[i]) ==> rows[i] == b.rows[i])
      && (!Upto(desk, b, n, oracle).threw ==>
            forall i :: 0 <= i < n && Listed(desk, b.rows[i]) ==> rows[i] == RowAfter(desk, b.rows[i], oracle(i)))
  {
    hide Upto, Listed, RowAfter;
    forall i | 0 <= i < |b.rows|
      ensures var p := Upto(desk, b, n, oracle);
        && (n <= i || !Listed(desk, b.rows[i]) ==> p.books.rows[i] == b.rows[i])
        && (!p.threw && i < n && Listed(desk, b.rows[i]) ==> p.books.rows[i] == RowAfter(desk, b.rows[i], oracle(i)))
    {
      UptoRow(desk, b, n, i, oracle);
    }
  }

  /** The desk's in-flight rows: liquidity actions and approvals for them on one side, every other row on the other. */
  predicate ForDesk(desk: Desk, r: Row) {
    && r.status in {Dispatched, Signed, Broadcast}
    && (desk.LpDesk? <==> r.kind in {LpAdd, LpRemove, LpClaim, LpRebalance} || (r.kind == Approve && r.lp))
  }

  /** It never got a transaction: it died before it was signed. */
  predicate NeverSigned(r: Row) {
    r.status == Dispatched || r.txHash.None?
  }

  lemma ForDeskIff(desk: Desk, r: Row)
    ensures Listed(desk, r) <==> ForDesk(desk, r)
  {
  }

  lemma JudgeIff(r: Row, a: Answer)
    ensures Judge(r, a) == Abandon <==> NeverSigned(r)
    ensures Judge(r, a) == Revert <==> !NeverSigned(r) && a.Reverted?
    ensures Judge(r, a) == Confirm <==> !NeverSigned(r) && a.Confirmed?
  {
  }

  /**
   * A pass that ends settles each row of its desk on its own: one that was never signed or whose transaction reverted
   * is failed, a confirmed one is filled, and one the chain says nothing final about stays. Every other row stays.
   */
  lemma PassRows(desk: Desk, b: Books, oracle: nat -> Answer)
    requires !Reconciled(desk, b, oracle).threw
    ensures forall i :: 0 <= i < |b.rows| ==>
      var r, after := b.rows[i], Reconciled(desk, b, oracle).books.rows[i];
      after ==
        if !ForDesk(desk, r) then r
        else if NeverSigned(r) || oracle(i).Reverted? then r.(status := Failed)
        else if oracle(i).Confirmed? then r.(status := Filled)
        else r
  {
    UptoRows(desk, b, |b.rows|, oracle);
    forall i | 0 <= i < |b.rows| && ForDesk(desk, b.rows[i]) && desk.SwapDesk? ensures !Poison(b.rows[i], oracle(i)) {
      ForDeskIff(desk, b.rows[i]);
      if Blocks(b.rows[i], oracle(i)) {
        SwapPassEndsIff(b, |b.rows|, oracle);
      }
    }
    forall i | 0 <= i < |b.rows|
      ensures Listed(desk, b.rows[i]) <==> ForDesk(desk, b.rows[i])
      ensures Listed(desk, b.rows[i]) ==>
        && (NeverSigned(b.rows[i]) || oracle(i).Reverted? ==>
              RowAfter(desk, b.rows[i], oracle(i)) == b.rows[i].(status := Failed))
        && (!NeverSigned(b.rows[i]) && oracle(i).Confirmed? ==>
              RowAfter(desk, b.rows[i], oracle(i)) == b.rows[i].(status := Filled))
        && (!NeverSigned(b.rows[i]) && !oracle(i).Reverted? && !oracle(i).Confirmed? ==>
              RowAfter(desk, b.rows[i], oracle(i)) == b.rows[i])
    {
      ForDeskIff(desk, b.rows[i]);
      hide Upto, Poison, Listed, ForDesk;
    }
    hide Upto, Listed, RowAfter, NeverSigned, ForDesk;
  }

  /** A pass leaves the other desk's ledger as it found it. */
  lemma {:induction false} UptoLedgers(desk: Desk, b: Books, n: nat, oracle: nat -> Answer)
    requires n <= |b.rows|
    ensures var c := Upto(desk, b, n, oracle).books;
      && (desk.SwapDesk? ==> c.positions == b.positions && c.entries == b.entries)
      && (desk.LpDesk? ==> c.fills == b.fills)
  {
    if n > 0 {
      UptoLedgers(desk, b, n - 1, oracle);
    }
  }

  /** The rows that give the ledger a line: the swap desk's confirmed ones with prices that are no approvals. */
  predicate GivesLine(r: Row, a: Answer) {
    InFlight(r.status) && !IsLpRow(r) && r.kind != Approve && Judge(r, a) == Confirm && WithPrices(r)
  }

  lemma OneFill(id: nat, r: Row, a: Answer)
    ensures Poison(r, a) <==> r.kind != Approve && Judge(r, a) == Confirm && WithPrices(r) && Unbookable(r, a)
    ensures var fs := FillsFor(id, r, a);
      if r.kind != Approve && Judge(r, a) == Confirm && WithPrices(r) && !Unbookable(r, a)
      then |fs| == 1 && IsFillOf(fs[0], id, r, a) else fs == []
  {
  }

  /** Each line is a fill of a row that books, in the order of the rows, and each row that books has one. */
  ghost predicate LinesOf(lines: seq<Fill>, rows: seq<Row>, n: nat, oracle: nat -> Answer)
    requires n <= |rows|
  {
    && (forall k :: 0 <= k < |lines| ==>
          && lines[k].id < n && GivesLine(rows[lines[k].id], oracle(lines[k].id))
          && IsFillOf(lines[k], lines[k].id, rows[lines[k].id], oracle(lines[k].id)))
    && (forall j, k :: 0 <= j < k < |lines| ==> lines[j].id < lines[k].id)
    && (forall i :: 0 <= i < n && GivesLine(rows[i], oracle(i)) ==> HasLine(lines, i))
  }

  predicate HasLine(lines: seq<Fill>, i: nat) {
    exists k :: 0 <= k < |lines| && lines[k].id == i
  }

  lemma LineAdded(lines: seq<Fill>, f: Fill, rows: seq<Row>, n: nat, oracle: nat -> Answer)
    requires n < |rows| && LinesOf(lines, rows, n, oracle)
    requires GivesLine(rows[n], oracle(n)) && IsFillOf(f, n, rows[n], oracle(n))
    ensures LinesOf(lines + [f], rows, n + 1, oracle)
  {
    hide GivesLine, IsFillOf;
    assert f.id == n by {
      assert IsFillOf(f, n, rows[n], oracle(n));
      OfRow(f, n, rows[n], oracle(n));
    }
    var more := lines + [f];
    forall i | 0 <= i < n + 1 && GivesLine(rows[i], oracle(i)) ensures HasLine(more, i) {
      if i < n {
        var k :| 0 <= k < |lines| && lines[k].id == i;
        assert more[k].id == i;
      } else {
        assert more[|lines|].id == i;
      }
    }
  }

  lemma OfRow(f: Fill, id: nat, r: Row, a: Answer)
    requires IsFillOf(f, id, r, a)
    ensures f.id == id
  {
  }

  lemma NoLineAdded(lines: seq<Fill>, rows: seq<Row>, n: nat, oracle: nat -> Answer)
    requires n < |rows| && LinesOf(lines, rows, n, oracle) && !GivesLine(rows[n], oracle(n))
    ensures LinesOf(lines, rows, n + 1, oracle)
  {
    hide GivesLine, IsFillOf, HasLine;
  }

  lemma NoLines(rows: seq<Row>, oracle: nat -> Answer)
    ensures LinesOf([], rows, 0, oracle)
  {
  }

  /**
   * The swap ledger gains one line for each confirmed, priced row of the desk that is no approval, in row order and
   * with the amounts the receipt and the row give, and nothing else.
   */
  lemma {:induction false} UptoFills(b: Books, n: nat, oracle: nat -> Answer) returns (lines: seq<Fill>)
    requires n <= |b.rows| && !Upto(SwapDesk, b, n, oracle).threw
    ensures Upto(SwapDesk, b, n, oracle).books.fills == b.fills + lines
    ensures LinesOf(lines, b.rows, n, oracle)
  {
    if n == 0 {
      lines := [];
      NoRows(SwapDesk, b, oracle);
      NoLines(b.rows, oracle);
      hide Upto, LinesOf;
    } else {
      hide LinesOf, GivesLine, IsFillOf, Upto, FillsFor;
      var more := FillsAdded(b, n, oracle);
      lines := UptoFills(b, n - 1, oracle);
      if GivesLine(b.rows[n - 1], oracle(n - 1)) {
        LineAdded(lines, more[0], b.rows, n - 1, oracle);
        lines := lines + [more[0]];
      } else {
        NoLineAdded(lines, b.rows, n - 1, oracle);
      }
    }
  }

  lemma FillsAdded(b: Books, n: nat, oracle: nat -> Answer) returns (more: seq<Fill>)
    requires 0 < n <= |b.rows| && !Upto(SwapDesk, b, n, oracle).threw
    ensures var p, r, a := Upto(SwapDesk, b, n - 1, oracle), b.rows[n - 1], oracle(n - 1);
      && !p.threw && Upto(SwapDesk, b, n, oracle).books.fills == p.books.fills + more
      && (if GivesLine(r, a) then |more| == 1 && IsFillOf(more[0], n - 1, r, a) && more == [more[0]] else more == [])
  {
    var r, a := b.rows[n - 1], oracle(n - 1);
    FillsStep(b, n, oracle);
    OneFill(n - 1, r, a);
    hide Upto, FillsFor, IsFillOf, Unbookable, Poison, Judge;
    more := if Listed(SwapDesk, r) then FillsFor(n - 1, r, a) else [];
  }

  lemma FillsStep(b: Books, n: nat, oracle: nat -> Answer)
    requires 0 < n <= |b.rows| && !Upto(SwapDesk, b, n, oracle).threw
    ensures var p, r := Upto(SwapDesk, b, n - 1, oracle), b.rows[n - 1];
      && !p.threw && (Listed(SwapDesk, r) ==> !Poison(r, oracle(n - 1)))
      && Upto(SwapDesk, b, n, oracle).books.fills
           == p.books.fills + if Listed(SwapDesk, r) then FillsFor(n - 1, r, oracle(n - 1)) else []
  {
    hide FillsFor, Poison, Judge, RowAfter, Counted;
  }

  lemma {:induction false} UptoReport(desk: Desk, b: Books, n: nat, oracle: nat -> Answer)
    requires n <= |b.rows| && !Upto(desk, b, n, oracle).threw
    ensures Upto(desk, b, n, oracle).report
         == Report(Tally(desk, b.rows, n, oracle, {Confirm, Abandon, Revert, Wait}),
                   Tally(desk, b.rows, n, oracle, {Confirm}),
                   Tally(desk, b.rows, n, oracle, {Abandon, Revert}),
                   Tally(desk, b.rows, n, oracle, {Wait}))
  {
    hide BooksAfter, Judge, Poison;
    if n > 0 {
      UptoReport(desk, b, n - 1, oracle);
    }
  }

  lemma {:induction false} TallyPartition(desk: Desk, rows: seq<Row>, n: nat, oracle: nat -> Answer)
    requires n <= |rows|
    ensures Tally(desk, rows, n, oracle, {Confirm, Abandon, Revert, Wait})
         == Tally(desk, rows, n, oracle, {Confirm}) + Tally(desk, rows, n, oracle, {Abandon, Revert})
            + Tally(desk, rows, n, oracle, {Wait})
  {
    if n > 0 {
      TallyPartition(desk, rows, n - 1, oracle);
    }
  }

  /** checked = filled + failed + stillPending for every pass that ends, at either desk. */
  lemma ReportBalances(desk: Desk, b: Books, oracle: nat -> Answer)
    requires !Reconciled(desk, b, oracle).threw
    ensures var r := Reconciled(desk, b, oracle).report;
      r.checked == r.filled + r.failed + r.stillPending
  {
    UptoReport(desk, b, |b.rows|, oracle);
    TallyPartition(desk, b.rows, |b.rows|, oracle);
  }

  // ---------------------------------------------------------------------------
  // The two desks together
  // ---------------------------------------------------------------------------

  /** Two tables that differ only in rows a desk does not list give it the same pass. */
  lemma {:induction false} UptoFrame(desk: Desk, b: Books, c: Books, n: nat, oracle: nat -> Answer)
    requires |b.rows| == |c.rows| && n <= |b.rows|
    requires forall i :: 0 <= i < n ==> Listed(desk, b.rows[i]) == Listed(desk, c.rows[i])
    requires forall i :: 0 <= i < n && Listed(desk, b.rows[i]) ==> b.rows[i] == c.rows[i]
    requires desk.SwapDesk? ==> b.fills == c.fills
    requires desk.LpDesk? ==> b.positions == c.positions && b.entries == c.entries
    ensures var p, q := Upto(desk, b, n, oracle), Upto(desk, c, n, oracle);
      && p.report == q.report && p.threw == q.threw
      && (desk.SwapDesk? ==> p.books.fills == q.books.fills)
      && (desk.LpDesk? ==> p.books.positions == q.books.positions && p.books.entries == q.books.entries)
  {
    hide Judge, RowAfter, Poison;
    if n > 0 {
      UptoFrame(desk, b, c, n - 1, oracle);
    }
  }

  /** A row keeps its desk, and one the desk does not list stays as it is, thrown or not. */
  lemma {:induction false} UptoKeepsOther(desk: Desk, b: Books, n: nat, i: nat, oracle: nat -> Answer)
    requires n <= |b.rows| && i < |b.rows|
    ensures var r := Upto(desk, b, n, oracle).books.rows[i];
      && IsLpRow(r) == IsLpRow(b.rows[i])
      && (!Listed(desk, b.rows[i]) ==> r == b.rows[i])
  {
    if n == 0 {
      NoRows(desk, b, oracle);
    } else {
      hide Upto, BooksAfter, Throws, Listed;
      UptoKeepsOther(desk, b, n - 1, i, oracle);
      PassStep(desk, b, n, oracle);
      SameDesk(desk, b.rows[n - 1], oracle(n - 1));
      hide RowAfter, IsLpRow;
    }
  }

  /** No pass moves a row from one desk to the other, and none takes a row off the other's list. */
  lemma UptoKeepsOthers(desk: Desk, other: Desk, b: Books, n: nat, oracle: nat -> Answer)
    requires desk != other && n <= |b.rows|
    ensures var c := Upto(desk, b, n, oracle).books;
      forall i :: 0 <= i < |b.rows| ==>
        && Listed(other, c.rows[i]) == Listed(other, b.rows[i])
        && (Listed(other, b.rows[i]) ==> c.rows[i] == b.rows[i])
  {
    hide Upto, IsLpRow, InFlight;
    forall i | 0 <= i < |b.rows|
      ensures var r := Upto(desk, b, n, oracle).books.rows[i];
        Listed(other, r) == Listed(other, b.rows[i]) && (Listed(other, b.rows[i]) ==> r == b.rows[i])
    {
      UptoKeepsOther(desk, b, n, i, oracle);
    }
  }

  lemma SameDesk(desk: Desk, r: Row, a: Answer)
    ensures IsLpRow(RowAfter(desk, r, a)) == IsLpRow(r)
  {
  }

  /** Two tables that agree on the rows a desk lists give each of them the same end. */
  lemma {:induction false} UptoFrameRow(desk: Desk, b: Books, c: Books, n: nat, i: nat, oracle: nat -> Answer)
    requires |b.rows| == |c.rows| && n <= |b.rows| && i < |b.rows| && Listed(desk, b.rows[i])
    requires forall j :: 0 <= j < |b.rows| ==> Listed(desk, b.rows[j]) == Listed(desk, c.rows[j])
    requires forall j :: 0 <= j < |b.rows| && Listed(desk, b.rows[j]) ==> b.rows[j] == c.rows[j]
    requires desk.SwapDesk? ==> b.fills == c.fills
    requires desk.LpDesk? ==> b.positions == c.positions && b.entries == c.entries
    ensures Upto(desk, b, n, oracle).books.rows[i] == Upto(desk, c, n, oracle).books.rows[i]
  {
    hide Upto, Listed, RowAfter, BooksAfter, Throws;
    if n == 0 {
      NoRows(desk, b, oracle);
      NoRows(desk, c, oracle);
    } else {
      UptoFrameRow(desk, b, c, n - 1, i, oracle);
      UptoFrame(desk, b, c, n - 1, oracle);
      PassStep(desk, b, n, oracle);
      PassStep(desk, c, n, oracle);
    }
  }

  /** One desk's pass, thrown or not, leaves the other desk exactly the work it had. */
  lemma OtherDeskUnaffected(desk: Desk, other: Desk, b: Books, oracle: nat -> Answer)
    requires desk != other
    ensures var c, p := Reconciled(desk, b, oracle).books, Reconciled(other, b, oracle);
      var q := Reconciled(other, c, oracle);
      && q.report == p.report && q.threw == p.threw
      && (other.SwapDesk? ==> q.books.fills == p.books.fills)
      && (other.LpDesk? ==> q.books.positions == p.books.positions && q.books.entries == p.books.entries)
      && (forall i :: 0 <= i < |b.rows| ==>
            q.books.rows[i] == if Listed(other, b.rows[i]) then p.books.rows[i] else c.rows[i])
  {
    var c := Reconciled(desk, b, oracle).books;
    UptoKeepsOthers(desk, other, b, |b.rows|, oracle);
    UptoLedgers(desk, b, |b.rows|, oracle);
    UptoFrame(other, b, c, |b.rows|, oracle);
    UptoRows(other, c, |b.rows|, oracle);
    forall i | 0 <= i < |b.rows| && Listed(other, b.rows[i])
      ensures Reconciled(other, c, oracle).books.rows[i] == Reconciled(other, b, oracle).books.rows[i]
    {
      UptoFrameRow(other, b, c, |b.rows|, i, oracle);
    }
    hide Upto, Listed;
  }

  /**
   * The two reconcilers split the in-flight rows with no gap and no overlap, and whichever runs first, also when
   * either throws: the same rows, the same ledgers, the same two reports and the same throws.
   */
  lemma DesksCommute(b: Books, oracle: nat -> Answer)
    ensures forall i :: 0 <= i < |b.rows| && InFlight(b.rows[i].status) ==>
      Listed(SwapDesk, b.rows[i]) != Listed(LpDesk, b.rows[i])
    ensures var s, l := Reconciled(SwapDesk, b, oracle), Reconciled(LpDesk, b, oracle);
      var sl, ls := Reconciled(LpDesk, s.books, oracle), Reconciled(SwapDesk, l.books, oracle);
      && sl.books == ls.books
      && sl.report == l.report && ls.report == s.report
      && sl.threw == l.threw && ls.threw == s.threw
  {
    hide Upto;
    var s, l := Reconciled(SwapDesk, b, oracle), Reconciled(LpDesk, b, oracle);
    var sl, ls := Reconciled(LpDesk, s.books, oracle), Reconciled(SwapDesk, l.books, oracle);
    OtherDeskUnaffected(SwapDesk, LpDesk, b, oracle);
    OtherDeskUnaffected(LpDesk, SwapDesk, b, oracle);
    UptoRows(SwapDesk, b, |b.rows|, oracle);
    UptoRows(LpDesk, b, |b.rows|, oracle);
    UptoLedgers(SwapDesk, b, |b.rows|, oracle);
    UptoLedgers(LpDesk, b, |b.rows|, oracle);
    UptoLedgers(LpDesk, s.books, |b.rows|, oracle);
    UptoLedgers(SwapDesk, l.books, |b.rows|, oracle);
    assert sl.books.rows == ls.books.rows;
  }

  // ---------------------------------------------------------------------------
  // The boot
  // ---------------------------------------------------------------------------

  /** One pass, then the other; a throw out of the first ends the boot's settling. */
  function BootWith(first: Desk, second: Desk, b: Books, oracle: nat -> Answer): (c: Books)
    ensures |c.rows| == |b.rows|
  {
    var p := Reconciled(first, b, oracle);
    if p.threw then p.books else Reconciled(second, p.books, oracle).books
  }

  /** The order the services start in: the swap desk settles first. */
  function Boot(b: Books, oracle: nat -> Answer): (c: Books)
    ensures |c.rows| == |b.rows|
  {
    BootWith(SwapDesk, LpDesk, b, oracle)
  }

  /** The pass gets to row i before anything throws, lists it, and does not leave it as it is. */
  predicate Changes(desk: Desk, b: Books, i: nat, oracle: nat -> Answer)
    requires i < |b.rows|
  {
    !Upto(desk, b, i, oracle).threw && Listed(desk, b.rows[i]) && RowAfter(desk, b.rows[i], oracle(i)) != b.rows[i]
  }

  /** Nothing enters a ledger or moves a position without its row moving too. */
  lemma StillRowStillBooks(desk: Desk, b: Books, id: nat, r: Row, a: Answer)
    requires id < |b.rows| && b.rows[id] == r && InFlight(r.status) && RowAfter(desk, r, a) == r
    ensures BooksAfter(desk, b, id, r, a) == b
  {
    assert b.rows[id := r] == b.rows;
    hide IsLpRow, Recordable, Priced;
  }

  /** What one more row does to the books, against where the pass began. */
  lemma ChangeStep(desk: Desk, b: Books, n: nat, oracle: nat -> Answer)
    requires 0 < n <= |b.rows|
    ensures var p, q := Upto(desk, b, n - 1, oracle).books, Upto(desk, b, n, oracle).books;
      && |p.rows| == |q.rows| == |b.rows|
      && (forall i :: 0 <= i < n - 1 ==> q.rows[i] == p.rows[i])
      && (Changes(desk, b, n - 1, oracle) ==> q.rows[n - 1] != b.rows[n - 1])
      && (!Changes(desk, b, n - 1, oracle) && p == b ==> q == b)
  {
    var p, r, a := Upto(desk, b, n - 1, oracle), b.rows[n - 1], oracle(n - 1);
    PassStep(desk, b, n, oracle);
    if !p.threw && Listed(desk, r) && RowAfter(desk, r, a) == r && p.books == b {
      StillRowStillBooks(desk, b, n - 1, r, a);
    }
    hide Upto, BooksAfter, RowAfter, Throws;
  }

  /** A row the pass changed stays changed. */
  lemma {:induction false} ChangedStays(desk: Desk, b: Books, i: nat, n: nat, oracle: nat -> Answer)
    requires i < n <= |b.rows| && Changes(desk, b, i, oracle)
    ensures Upto(desk, b, n, oracle).books.rows[i] != b.rows[i]
  {
    hide Changes, Upto;
    ChangeStep(desk, b, n, oracle);
    if i < n - 1 {
      ChangedStays(desk, b, i, n - 1, oracle);
    }
  }

  lemma {:induction false} StillWithoutChanges(desk: Desk, b: Books, n: nat, oracle: nat -> Answer)
    requires n <= |b.rows| && forall i :: 0 <= i < n ==> !Changes(desk, b, i, oracle)
    ensures Upto(desk, b, n, oracle).books == b
  {
    hide Changes, Upto;
    if n == 0 {
      NoRows(desk, b, oracle);
    } else {
      StillWithoutChanges(desk, b, n - 1, oracle);
      ChangeStep(desk, b, n, oracle);
    }
  }

  /** A pass changes the books if and only if it changes some row it gets to. */
  lemma PassChangesIff(desk: Desk, b: Books, n: nat, oracle: nat -> Answer)
    requires n <= |b.rows|
    ensures Upto(desk, b, n, oracle).books != b <==> exists i :: 0 <= i < n && Changes(desk, b, i, oracle)
    ensures forall i :: 0 <= i < n && Changes(desk, b, i, oracle) ==> Upto(desk, b, n, oracle).books.rows[i] != b.rows[i]
  {
    hide Changes, Upto;
    forall i | 0 <= i < n && Changes(desk, b, i, oracle) ensures Upto(desk, b, n, oracle).books.rows[i] != b.rows[i] {
      ChangedStays(desk, b, i, n, oracle);
    }
    if forall i :: 0 <= i < n ==> !Changes(desk, b, i, oracle) {
      StillWithoutChanges(desk, b, n, oracle);
    }
  }

  /** What a pass changed is still changed after the other one, and the other one alone does not change it. */
  lemma EachChangesOnlyItsOwn(desk: Desk, other: Desk, b: Books, oracle: nat -> Answer)
    requires desk != other
    ensures var p, q := Reconciled(desk, b, oracle), Reconciled(other, b, oracle);
      p.books != b ==> p.books != q.books && Reconciled(other, p.books, oracle).books != q.books
    ensures var p, q := Reconciled(desk, b, oracle), Reconciled(other, b, oracle);
      p.books == b ==> Reconciled(other, p.books, oracle).books == q.books
  {
    var p, q := Reconciled(desk, b, oracle), Reconciled(other, b, oracle);
    if p.books != b {
      PassChangesIff(desk, b, |b.rows|, oracle);
      var i :| 0 <= i < |b.rows| && Changes(desk, b, i, oracle);
      OtherDeskUnaffected(desk, other, b, oracle);
      UptoRows(other, b, |b.rows|, oracle);
      hide Upto, RowAfter;
      assert q.books.rows[i] == b.rows[i];
      assert p.books.rows[i] != b.rows[i];
    }
  }

  // ---------------------------------------------------------------------------
  // A second pass
  // ---------------------------------------------------------------------------

  lemma WaitingStays(desk: Desk, p: Pass, id: nat, r: Row, a: Answer)
    requires id < |p.books.rows| && p.books.rows[id] == r && Judge(r, a) == Wait
    ensures Settle(desk, p, id, r, a) == Pass(p.books, Counted(p.report, Wait, false), false)
  {
    assert p.books.rows[id := r] == p.books.rows;
  }

  lemma {:induction false} OnlyWaiting(desk: Desk, b: Books, n: nat, oracle: nat -> Answer)
    requires n <= |b.rows|
    requires forall i :: 0 <= i < n && Listed(desk, b.rows[i]) ==> Judge(b.rows[i], oracle(i)) == Wait
    ensures var k := Tally(desk, b.rows, n, oracle, {Wait});
      Upto(desk, b, n, oracle) == Pass(b, Report(k, 0, 0, k), false)
  {
    hide Settle, Judge;
    if n > 0 {
      OnlyWaiting(desk, b, n - 1, oracle);
      if Listed(desk, b.rows[n - 1]) {
        WaitingStays(desk, Upto(desk, b, n - 1, oracle), n - 1, b.rows[n - 1], oracle(n - 1));
      }
    }
  }

  lemma {:induction false} SameWaiting(desk: Desk, a: seq<Row>, b: seq<Row>, n: nat, oracle: nat -> Answer)
    requires |a| == |b| && n <= |a|
    requires forall i :: 0 <= i < n ==>
      ((Listed(desk, a[i]) && Judge(a[i], oracle(i)) == Wait) <==> (Listed(desk, b[i]) && Judge(b[i], oracle(i)) == Wait))
    ensures Tally(desk, a, n, oracle, {Wait}) == Tally(desk, b, n, oracle, {Wait})
  {
    hide Judge;
    if n > 0 {
      SameWaiting(desk, a, b, n - 1, oracle);
    }
  }

  /** A second pass over an unchanged chain changes nothing and checks exactly the rows the first left pending. */
  lemma SecondPassIsIdle(desk: Desk, b: Books, oracle: nat -> Answer)
    requires !Reconciled(desk, b, oracle).threw
    ensures var p := Reconciled(desk, b, oracle);
      var n := p.report.stillPending;
      Reconciled(desk, p.books, oracle) == Pass(p.books, Report(n, 0, 0, n), false)
  {
    var c := Reconciled(desk, b, oracle).books;
    UptoRows(desk, b, |b.rows|, oracle);
    UptoReport(desk, b, |b.rows|, oracle);
    if desk.SwapDesk? {
      SwapPassEndsIff(b, |b.rows|, oracle);
    }
    forall i | 0 <= i < |b.rows|
      ensures Listed(desk, c.rows[i]) <==> (Listed(desk, b.rows[i]) && Judge(b.rows[i], oracle(i)) == Wait)
      ensures Listed(desk, c.rows[i]) ==> c.rows[i] == b.rows[i]
    {
      assert c.rows[i] == if Listed(desk, b.rows[i]) then RowAfter(desk, b.rows[i], oracle(i)) else b.rows[i];
    }
    OnlyWaiting(desk, c, |b.rows|, oracle);
    SameWaiting(desk, b.rows, c.rows, |b.rows|, oracle);
  }

  // ---------------------------------------------------------------------------
  // When a pass does not end
  // ---------------------------------------------------------------------------

  predicate Blocks(r: Row, a: Answer) {
    Listed(SwapDesk, r) && Poison(r, a)
  }

  /** The swap pass ends exactly when it lists no poisoned row. */
  lemma {:induction false} SwapPassEndsIff(b: Books, n: nat, oracle: nat -> Answer)
    requires n <= |b.rows|
    ensures Upto(SwapDesk, b, n, oracle).threw <==> exists z :: 0 <= z < n && Blocks(b.rows[z], oracle(z))
  {
    hide BooksAfter, Poison, Judge, Counted;
    if n > 0 {
      SwapPassEndsIff(b, n - 1, oracle);
    }
  }

  /** The positions the liquidity pass has reached after n rows. */
  function PositionsUpto(rows: seq<Row>, positions: map<nat, nat>, n: nat, oracle: nat -> Answer): map<nat, nat>
    requires n <= |rows|
  {
    if n == 0 then positions
    else
      var before := PositionsUpto(rows, positions, n - 1, oracle);
      if Listed(LpDesk, rows[n - 1]) then PositionsAfter(rows[n - 1], oracle(n - 1), before) else before
  }

  /** A confirmed removal of no tokens, from a pool that then has a position. */
  predicate BurnsNothing(r: Row, a: Answer, positions: map<nat, nat>) {
    && Listed(LpDesk, r) && Judge(r, a) == Confirm
    && r.kind == LpRemove && r.burn == Some(0) && r.pool.Some? && r.pool.value in positions
  }

  lemma LpThrowsIff(r: Row, a: Answer, positions: map<nat, nat>)
    requires Listed(LpDesk, r)
    ensures Throws(LpDesk, r, a, positions) <==> BurnsNothing(r, a, positions)
  {
  }

  /** Row z is one, with the positions as the rows before it leave them. */
  predicate Stumbles(b: Books, z: nat, oracle: nat -> Answer)
    requires z < |b.rows|
  {
    BurnsNothing(b.rows[z], oracle(z), PositionsUpto(b.rows, b.positions, z, oracle))
  }

  lemma LpStep(b: Books, n: nat, oracle: nat -> Answer)
    requires 0 < n <= |b.rows|
    ensures var p, q := Upto(LpDesk, b, n - 1, oracle), Upto(LpDesk, b, n, oracle);
      var held := PositionsUpto(b.rows, b.positions, n - 1, oracle);
      && (p.threw ==> q.threw)
      && (!p.threw && p.books.positions == held ==>
            && (q.threw <==> Stumbles(b, n - 1, oracle))
            && q.books.positions == PositionsUpto(b.rows, b.positions, n, oracle))
  {
    PassStep(LpDesk, b, n, oracle);
    hide Upto;
    var r, held := b.rows[n - 1], PositionsUpto(b.rows, b.positions, n - 1, oracle);
    if Listed(LpDesk, r) {
      LpThrowsIff(r, oracle(n - 1), held);
    }
    assert BurnsNothing(r, oracle(n - 1), held) ==> Listed(LpDesk, r);
    hide Listed, RowAfter, PositionsAfter, EntriesFor, BurnsNothing, Throws;
  }

  lemma NoPositions(rows: seq<Row>, positions: map<nat, nat>, oracle: nat -> Answer)
    ensures PositionsUpto(rows, positions, 0, oracle) == positions
  {
  }

  /** The liquidity pass ends exactly when it meets no confirmed removal of zero tokens from a held position. */
  lemma {:induction false} LpPassEndsIff(b: Books, n: nat, oracle: nat -> Answer)
    requires n <= |b.rows|
    ensures Upto(LpDesk, b, n, oracle).threw <==> exists z :: 0 <= z < n && Stumbles(b, z, oracle)
    ensures !Upto(LpDesk, b, n, oracle).threw ==>
      Upto(LpDesk, b, n, oracle).books.positions == PositionsUpto(b.rows, b.positions, n, oracle)
  {
    hide Upto, PositionsUpto, Stumbles;
    if n == 0 {
      NoRows(LpDesk, b, oracle);
      NoPositions(b.rows, b.positions, oracle);
    } else {
      LpPassEndsIff(b, n - 1, oracle);
      LpStep(b, n, oracle);
    }
  }

  // ---------------------------------------------------------------------------
  // When the order of the passes matters
  // ---------------------------------------------------------------------------

  /** A row the desk settles, whatever else it lists: anything but a wait ends it. */
  predicate Ends(desk: Desk, r: Row, a: Answer) {
    Listed(desk, r) && Judge(r, a) != Wait
  }

  /** A swap row with no poisoned row before it that its settling moves. */
  predicate SwapMoves(b: Books, i: nat, oracle: nat -> Answer)
    requires i < |b.rows|
  {
    && Listed(SwapDesk, b.rows[i]) && RowAfter(SwapDesk, b.rows[i], oracle(i)) != b.rows[i]
    && forall z :: 0 <= z < i ==> !Blocks(b.rows[z], oracle(z))
  }

  lemma SwapChangesIff(b: Books, i: nat, oracle: nat -> Answer)
    requires i < |b.rows|
    ensures Changes(SwapDesk, b, i, oracle) <==> SwapMoves(b, i, oracle)
  {
    SwapPassEndsIff(b, i, oracle);
    hide Upto, Blocks, Listed, RowAfter;
  }

  lemma EndedMoves(r: Row, a: Answer)
    requires Ends(LpDesk, r, a)
    ensures RowAfter(LpDesk, r, a) != r
  {
  }

  lemma StumblingEnds(b: Books, z: nat, oracle: nat -> Answer)
    requires z < |b.rows|
    ensures Stumbles(b, z, oracle) ==> Ends(LpDesk, b.rows[z], oracle(z))
  {
  }

  /** The first row a desk ends, if it ends any. */
  lemma {:induction false} FirstEnded(desk: Desk, b: Books, n: nat, oracle: nat -> Answer) returns (i: nat)
    requires n <= |b.rows| && exists k :: 0 <= k < n && Ends(desk, b.rows[k], oracle(k))
    ensures i < n && Ends(desk, b.rows[i], oracle(i))
    ensures forall k :: 0 <= k < i ==> !Ends(desk, b.rows[k], oracle(k))
  {
    hide Ends;
    if exists k :: 0 <= k < n - 1 && Ends(desk, b.rows[k], oracle(k)) {
      i := FirstEnded(desk, b, n - 1, oracle);
    } else {
      i := n - 1;
    }
  }

  /** The liquidity pass changes something exactly when it lists a row that does not wait: it gets to the first. */
  lemma LpChangesIff(b: Books, oracle: nat -> Answer)
    ensures (exists i :: 0 <= i < |b.rows| && Changes(LpDesk, b, i, oracle))
       <==> exists i :: 0 <= i < |b.rows| && Ends(LpDesk, b.rows[i], oracle(i))
  {
    if exists i :: 0 <= i < |b.rows| && Ends(LpDesk, b.rows[i], oracle(i)) {
      hide Ends, Stumbles;
      var i := FirstEnded(LpDesk, b, |b.rows|, oracle);
      LpPassEndsIff(b, i, oracle);
      forall z | 0 <= z < i ensures !Stumbles(b, z, oracle) {
        StumblingEnds(b, z, oracle);
      }
      EndedMoves(b.rows[i], oracle(i));
      LpEndedIsListed(b.rows[i], oracle(i));
      hide Upto;
      assert Changes(LpDesk, b, i, oracle);
    }
    forall i | 0 <= i < |b.rows| ensures Changes(LpDesk, b, i, oracle) ==> Ends(LpDesk, b.rows[i], oracle(i)) {
      hide Upto;
    }
  }

  lemma LpEndedIsListed(r: Row, a: Answer)
    requires Ends(LpDesk, r, a)
    ensures Listed(LpDesk, r)
  {
  }

  /**
   * Exactly when the order of the two passes matters at a boot: when a poisoned swap row is listed and some
   * liquidity row would end, or the liquidity pass meets a removal of nothing and some swap row would move.
   */
  lemma BootOrderMattersIff(b: Books, oracle: nat -> Answer)
    ensures BootWith(SwapDesk, LpDesk, b, oracle) != BootWith(LpDesk, SwapDesk, b, oracle) <==>
      || ((exists z :: 0 <= z < |b.rows| && Blocks(b.rows[z], oracle(z)))
          && exists i :: 0 <= i < |b.rows| && Ends(LpDesk, b.rows[i], oracle(i)))
      || ((exists z :: 0 <= z < |b.rows| && Stumbles(b, z, oracle))
          && exists i :: 0 <= i < |b.rows| && SwapMoves(b, i, oracle))
  {
    forall i | 0 <= i < |b.rows| ensures Changes(SwapDesk, b, i, oracle) <==> SwapMoves(b, i, oracle) {
      SwapChangesIff(b, i, oracle);
    }
    hide Upto, Changes, Blocks, Stumbles, Ends, SwapMoves;
    DesksCommute(b, oracle);
    SwapPassEndsIff(b, |b.rows|, oracle);
    LpPassEndsIff(b, |b.rows|, oracle);
    LpChangesIff(b, oracle);
    PassChangesIff(SwapDesk, b, |b.rows|, oracle);
    PassChangesIff(LpDesk, b, |b.rows|, oracle);
    EachChangesOnlyItsOwn(SwapDesk, LpDesk, b, oracle);
    EachChangesOnlyItsOwn(LpDesk, SwapDesk, b, oracle);
  }

  /** A chain that gives every row the same answer. */
  function Always(a: Answer): nat -> Answer {
    (id: nat) => a
  }

  /** A table where it does: a poisoned swap, and a liquidity row that died before it was signed. */
  lemma BootOrderMatters(hash: Hash, amountIn: nat, p: Prices, add: Row)
    requires Priced(Some(p)) && add.kind == LpAdd && add.status == Dispatched
    ensures var b := Books([Row(Swap, false, Broadcast, Some(hash), amountIn, None, Some(p), None, None), add], [], map[], []);
      var oracle := Always(Confirmed(None, None));
      BootWith(SwapDesk, LpDesk, b, oracle) != BootWith(LpDesk, SwapDesk, b, oracle)
  {
    var oracle := Always(Confirmed(None, None));
    var b := Books([Row(Swap, false, Broadcast, Some(hash), amountIn, None, Some(p), None, None), add], [], map[], []);
    PoisonExists(0, hash, amountIn, p);
    assert Ends(LpDesk, b.rows[1], oracle(1)) && Blocks(b.rows[0], oracle(0));
    BootOrderMattersIff(b, oracle);
  }

  /**
   * What a proposal must hold to be allowed: a swap moves something, has a quote with a minimum above zero, and its
   * prices are above zero; a removal burns something.
   */
  predicate Decided(r: Row) {
    && (r.kind == Swap ==>
          && r.amountIn > 0 && r.minOut.Some? && r.minOut.value > 0
          && (r.quotePrices.Some? ==> Positive(r.quotePrices.value.tokenIn) && Positive(r.quotePrices.value.tokenOut)))
    && (r.kind == LpRemove ==> r.burn != Some(0))
  }

  predicate Positive(p: Price) {
    p.Atto? ==> p.value > 0
  }

  /** The adapters report an amount received only when it is above zero. */
  predicate Reported(a: Answer) {
    a.Confirmed? && a.amountOut.Some? ==> a.amountOut.value > 0
  }

  lemma DecidedRowsSettle(r: Row, a: Answer, positions: map<nat, nat>)
    requires Decided(r) && Reported(a)
    ensures !Blocks(r, a) && !BurnsNothing(r, a, positions)
  {
  }

  /** While every row in flight was allowed on those terms, neither pass throws and a boot settles in any order. */
  lemma DecidedTablesSettle(b: Books, oracle: nat -> Answer)
    requires forall i :: 0 <= i < |b.rows| ==> InFlight(b.rows[i].status) ==> Decided(b.rows[i]) && Reported(oracle(i))
    ensures !Reconciled(SwapDesk, b, oracle).threw && !Reconciled(LpDesk, b, oracle).threw
    ensures BootWith(SwapDesk, LpDesk, b, oracle) == BootWith(LpDesk, SwapDesk, b, oracle)
  {
    SwapPassEndsIff(b, |b.rows|, oracle);
    LpPassEndsIff(b, |b.rows|, oracle);
    forall z | 0 <= z < |b.rows| ensures !Blocks(b.rows[z], oracle(z)) && !Stumbles(b, z, oracle) {
      if InFlight(b.rows[z].status) {
        hide Blocks, BurnsNothing, Decided, Reported;
        DecidedRowsSettle(b.rows[z], oracle(z), PositionsUpto(b.rows, b.positions, z, oracle));
      }
    }
    hide Upto, Blocks, Stumbles, Decided, Reported, BurnsNothing;
    BootOrderMattersIff(b, oracle);
  }

  lemma PoisonStays(r: Row, a: Answer)
    requires Blocks(r, a)
    ensures Blocks(RowAfter(SwapDesk, r, a), a)
  {
  }

  lemma {:induction false} UptoStops(b: Books, n: nat, z: nat, oracle: nat -> Answer)
    requires z < |b.rows| && n <= |b.rows| && Blocks(b.rows[z], oracle(z))
    ensures var p := Upto(SwapDesk, b, n, oracle);
      && Blocks(p.books.rows[z], oracle(z))
      && (z < n ==> p.threw)
      && forall i :: z < i < |b.rows| ==> p.books.rows[i] == b.rows[i]
  {
    hide Judge, Poison, FillsFor, Counted, RowAfter;
    if n > 0 {
      UptoStops(b, n - 1, z, oracle);
      UptoRows(SwapDesk, b, n - 1, oracle);
      PoisonStays(b.rows[z], oracle(z));
    }
  }

  /** So many boots, each with the chain as it then is. */
  function Boots(k: nat, b: Books, oracles: nat -> nat -> Answer): (c: Books)
    ensures |c.rows| == |b.rows|
  {
    if k == 0 then b else Boot(Boots(k - 1, b, oracles), oracles(k - 1))
  }

  /**
   * One poisoned row stops every boot, however the chain moves on: no later swap row and no liquidity row at all
   * is ever settled, and no position moves.
   */
  lemma {:induction false} PoisonBlocksEveryBoot(k: nat, b: Books, z: nat, oracles: nat -> nat -> Answer)
    requires z < |b.rows| && Blocks(b.rows[z], oracles(0)(z))
    requires forall m :: 0 <= m <= k ==> oracles(m)(z) == oracles(0)(z)
    ensures var c := Boots(k, b, oracles);
      && Blocks(c.rows[z], oracles(0)(z))
      && Reconciled(SwapDesk, c, oracles(k)).threw
      && (forall i :: 0 <= i < |b.rows| && (z < i || Listed(LpDesk, b.rows[i])) ==> c.rows[i] == b.rows[i])
      && c.positions == b.positions && c.entries == b.entries
  {
    if k > 0 {
      PoisonBlocksEveryBoot(k - 1, b, z, oracles);
      var c := Boots(k - 1, b, oracles);
      UptoStops(c, |b.rows|, z, oracles(k - 1));
      UptoKeepsOthers(SwapDesk, LpDesk, c, |b.rows|, oracles(k - 1));
      UptoLedgers(SwapDesk, c, |b.rows|, oracles(k - 1));
    }
    UptoStops(Boots(k, b, oracles), |b.rows|, z, oracles(k));
    hide Upto, Blocks;
  }

  /** A confirmed swap whose receipt exposes no amount and whose quote carried no minimum is one. */
  lemma PoisonExists(id: nat, hash: Hash, amountIn: nat, p: Prices)
    requires Priced(Some(p))
    ensures Blocks(Row(Swap, false, Broadcast, Some(hash), amountIn, None, Some(p), None, None), Confirmed(None, None))
  {
  }
}
