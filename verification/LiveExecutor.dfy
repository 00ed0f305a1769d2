/**
 * The two LIVE executors as they run: fields and trade rows updated step by step. Each method is one segment of
 * the source between two awaits, or the part of one that a helper holds, and leaves exactly the state the
 * protocol's step function gives, so everything proved of its runs holds of these methods.
 */
module LiveExecutor {
  import opened Common
  import opened Trades
  import opened Reconcile
  import opened LiveProtocol
  import SS = StateStore

  class Executor {
    const trades: TradeStore
    var control: SS.State
    var open: bool
    var tasks: map<nat, Task>
    var signatures: seq<Signature>
    var sent: set<Hash>
    var chain: map<Hash, bool>
    var positions: map<nat, nat>
    var counts: Counts

    function View(): World
      reads this, trades
    {
      World(control, open, trades.rows, tasks, signatures, sent, chain, positions, counts)
    }

    constructor ()
      ensures View() == INITIAL && fresh(trades)
    {
      trades := new TradeStore([]);
      control, open, tasks, signatures := SS.INITIAL, false, map[], [];
      sent, chain, positions, counts := {}, map[], map[], NO_COUNTS;
    }

    /** The process dies: what is in memory goes, what is on disk stays. */
    method Perish()
      modifies this
      ensures View() == Die(old(View()))
    {
      control, open, tasks := SS.Next(control, SS.Kill(0)), false, map[];
    }

    /** A refused transition is swallowed; the execution returns its failure either way. */
    method FailTrade(id: nat)
      modifies this`tasks, trades
      ensures View() == Fail(old(View()), id)
    {
      var _ := trades.Transition(id, Failed);
      tasks := tasks - {id};
    }

    /** `execute` and `executeApprove` up to their first await; a swap's prices are on disk before it is dispatched. */
    method Execute(id: nat, action: Action, cut: nat)
      modifies this, trades
      ensures View() == Begin(old(View()), id, action, cut)
    {
      hide SS.Next, Move;
      if !open || id >= |trades.rows| || id in tasks || trades.rows[id].status != Allowed || trades.rows[id].kind != action.kind {
        return;
      }
      if Refused(control.db, action) {
        FailTrade(id);
        return;
      }
      var row := trades.rows[id];
      if !IsLpRow(row) && action.kind != Approve {
        trades.rows := trades.rows[id := row.(quotePrices := Some(action.prices))];
        if cut == 0 {
          Perish();
          return;
        }
      }
      var _ := trades.Transition(id, Dispatched);
      tasks := tasks[id := Task(action, FirstPc(row))];
    }

    /**
     * From the answer of `prepareSigning` to the call of `broadcast`: the switches again, the fee, the target or
     * the programs, then the key, the hash on disk, and the bytes out. `cut` durable writes land.
     */
    method SignAndSend(id: nat, c: Context, keyOk: bool, cut: nat)
      requires id in tasks && id < |trades.rows| && tasks[id].pc.Preparing?
      modifies this, trades
      ensures View() == Continue(old(View()), id, Prepared(c, keyOk), cut)
    {
      hide SS.Next, Move, Cleared, Refused, Sign;
      var t := tasks[id];
      if Refused(control.db, t.action) {
        FailTrade(id);
        return;
      }
      if !Cleared(DeskOf(trades.rows[id]), t.action, c) {
        FailTrade(id);
        return;
      }
      if !keyOk {
        FailTrade(id);
        return;
      }
      UseKey(id, c, cut);
    }

    /** The key, the hash on disk, the bytes out: nothing awaits in between. */
    method UseKey(id: nat, c: Context, cut: nat)
      requires id in tasks && id < |trades.rows|
      modifies this, trades
      ensures View() == Sign(old(View()), id, old(tasks)[id], c, cut)
    {
      hide SS.Next, Move;
      var t := tasks[id];
      var hash := |signatures|;
      signatures := signatures + [Signature(id, t.action, c, control.db)];
      if cut == 0 {
        Perish();
        return;
      }
      var marked := trades.MarkSigned(id, hash);
      if marked.Err? {
        tasks := tasks - {id};
        return;
      }
      if cut == 1 {
        Perish();
        return;
      }
      sent := sent + {hash};
      tasks := tasks[id := t.(pc := Broadcasting(hash))];
    }

    /** One line of the swap ledger, or one change of a position. */
    method Enter(id: nat, e: Entry)
      modifies this`positions, this`counts
      ensures View() == Entered(old(View()), id, e)
    {
      match e {
        case Nothing =>
        case LedgerLine =>
          counts := counts.(booked := counts.booked + multiset{id});
        case Moves(pool, delta) =>
          if Held(positions, pool) + delta >= 0 {
            positions := Put(positions, pool, Held(positions, pool) + delta);
            counts := counts.(booked := counts.booked + multiset{id});
          }
      }
    }

    /** `blank` remembers a mark that has no entry. */
    method MarkTrade(id: nat, e: Entry)
      modifies trades, this`counts
      ensures View() == MarkFilled(old(View()), id, e)
    {
      hide Move;
      var _ := trades.Transition(id, Filled);
      if e.Nothing? {
        counts := counts.(blank := counts.blank + multiset{id});
      }
    }

    /** The entry, then the mark, with room for a death in between. */
    method BookAndMark(id: nat, e: Entry, cut: nat)
      modifies this, trades
      ensures View() == BookThenFill(old(View()), id, e, cut)
    {
      hide SS.Next, Entered, MarkFilled;
      Enter(id, e);
      if !e.Nothing? && cut == 0 {
        counts := counts.(torn := counts.torn + multiset{id});
        Perish();
        return;
      }
      MarkTrade(id, e);
      tasks := tasks - {id};
    }

    /** A confirmed receipt: an approval moves nothing, an LP fill goes to the LP store, a priced swap to the ledger. */
    method BookFill(id: nat, t: Task, receipt: Answer, cut: nat)
      requires id < |trades.rows| && receipt.Confirmed?
      modifies this, trades
      ensures View() == Book(old(View()), id, t, receipt, cut)
    {
      hide BookThenFill, LpRefused, LiveEntry;
      var row := trades.rows[id];
      if row.kind == Approve {
        BookAndMark(id, Nothing, cut);
        return;
      }
      if IsLpRow(row) {
        if LpRefused(row, receipt, t.action.prices, positions) {
          tasks := tasks - {id};
          return;
        }
        BookAndMark(id, LiveEntry(row, receipt, positions), cut);
        return;
      }
      var priced := Priced(Some(t.action.prices));
      if priced && !Recordable(row.amountIn, ReceivedOut(row, receipt), t.action.prices) {
        tasks := tasks - {id};
        return;
      }
      BookAndMark(id, if priced then LedgerLine else Nothing, cut);
    }

    /** An await answers, and the execution goes on to the next one. */
    method Resume(id: nat, reply: Reply, cut: nat)
      requires id in tasks && id < |trades.rows|
      modifies this, trades
      ensures View() == Continue(old(View()), id, reply, cut)
    {
      hide SS.Next, Move, Cleared, Refused, Truthful, Book, Sign;
      var t := tasks[id];
      match t.pc {
        case Building =>
          if reply.Fine? {
            tasks := tasks[id := t.(pc := Simulating)];
          } else {
            FailTrade(id);
          }
        case Simulating =>
          if reply.Fine? {
            tasks := tasks[id := t.(pc := Preparing)];
          } else if reply.Escapes? {
            tasks := tasks - {id};
          } else {
            FailTrade(id);
          }
        case Preparing =>
          if reply.Prepared? {
            SignAndSend(id, reply.context, reply.keyOk, cut);
          } else {
            FailTrade(id);
          }
        case Broadcasting(hash) =>
          if reply.Fine? {
            var _ := trades.Transition(id, Broadcast);
            tasks := tasks[id := t.(pc := Polling(hash))];
          } else {
            tasks := tasks - {id};
          }
        case Polling(hash) =>
          if reply.GaveUp? {
            tasks := tasks - {id};
          } else if reply.Receipt? && Truthful(View(), hash, reply.answer) {
            if reply.answer.Confirmed? {
              BookFill(id, t, reply.answer, cut);
            } else if reply.answer.Reverted? {
              FailTrade(id);
            }
          }
      }
    }

    /** The mark, then the entry, with room for a death in between. */
    method MarkAndBook(id: nat, e: Entry, cut: nat)
      modifies this, trades
      ensures View() == FillThenBook(old(View()), id, e, cut)
    {
      hide SS.Next, Entered, MarkFilled;
      MarkTrade(id, e);
      if cut > 0 {
        Enter(id, e);
        return;
      }
      if !e.Nothing? {
        counts := counts.(lost := counts.lost + multiset{id});
      }
      Perish();
    }

    /** A transaction the chain knows must have been sent: a signed row catches up. */
    method MarkSeen(id: nat)
      requires id < |trades.rows| && trades.rows[id].status in {Signed, Broadcast}
      modifies trades
      ensures View() == Mark(old(View()), id, Broadcast)
    {
      if trades.rows[id].status == Signed {
        var _ := trades.Transition(id, Broadcast);
      }
    }

    method MarkFailed(id: nat)
      modifies trades
      ensures View() == Mark(old(View()), id, Failed)
    {
      hide Move;
      var _ := trades.Transition(id, Failed);
    }

    /** One row at boot. The liquidity reconciler marks before it books, the swap one after. */
    method Settle(id: nat, receipt: Answer, cut: nat)
      requires id < |trades.rows| && InFlight(trades.rows[id].status)
      modifies this, trades
      ensures View() == SettleRow(old(View()), id, receipt, cut)
    {
      hide SS.Next, Move, Mark, Poison, BootEntry, BookThenFill, FillThenBook;
      var row := trades.rows[id];
      if row.status == Dispatched || row.txHash.None? {
        MarkFailed(id);
        return;
      }
      if receipt.NoAdapter? || receipt.Silent? || receipt.Pending? || receipt.Unknown? {
        return;
      }
      MarkSeen(id);
      if cut == 0 {
        Perish();
        return;
      }
      if receipt.Reverted? {
        MarkFailed(id);
        return;
      }
      if IsLpRow(row) {
        MarkAndBook(id, BootEntry(row, receipt, positions), cut - 1);
      } else if !Poison(row, receipt) {
        BookAndMark(id, BootEntry(row, receipt, positions), cut - 1);
      }
    }

    /** The event loop: one event of the environment, the operator or an execution. */
    method Handle(e: Event)
      modifies this, trades
      ensures View() == Step(old(View()), e)
    {
      hide SS.Next, Begin, Continue, SettleRow, Truthful;
      match e {
        case Control(c) =>
          control := SS.Next(control, c);
          if !control.up {
            open, tasks := false, map[];
          }
        case Open =>
          if control.up {
            open := true;
          }
        case Propose(row) =>
          if Proposable(row) {
            trades.rows := trades.rows + [row.(status := Allowed, txHash := None, quotePrices := None)];
          }
        case Start(id, action, cut) => Execute(id, action, cut);
        case Resume(id, reply, cut) =>
          if id in tasks && id < |trades.rows| {
            Resume(id, reply, cut);
          }
        case Land(hash, ok) =>
          if hash in sent && hash !in chain {
            chain := chain[hash := ok];
          }
        case SettleOne(id, receipt, cut) =>
          if control.up && !open && id < |trades.rows| && InFlight(trades.rows[id].status)
             && (trades.rows[id].txHash.Some? ==> Truthful(View(), trades.rows[id].txHash.value, receipt)) {
            Settle(id, receipt, cut);
          }
      }
    }
  }

  /** Whatever happens in whatever order, the executor stays in the protocol's runs and so keeps its invariant. */
  method Live(es: seq<Event>) returns (x: Executor)
    ensures fresh(x) && x.View() == Run(es) && Inv(x.View())
  {
    x := new Executor();
    for i := 0 to |es|
      invariant fresh(x) && fresh(x.trades) && x.View() == Run(es[..i])
    {
      assert es[..i + 1][..i] == es[..i];
      x.Handle(es[i]);
    }
    assert es[..|es|] == es;
    EveryRun(es);
  }
}
