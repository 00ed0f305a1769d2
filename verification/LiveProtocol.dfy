/**
 * Sign, record, broadcast, reconcile: both LIVE executors as one state machine.
 *
 * Every event is the code between two awaits. The environment chooses what each await answers,
 * which transactions land, which operator switch moves, and where a process dies; a death may
 * also fall between the durable writes of the segments that have more than one.
 */
module LiveProtocol {
  import opened Common
  import opened Trades
  import opened Reconcile
  import SS = StateStore

  // ---------------------------------------------------------------------------
  // What the risk engine approved and what the adapter asks to be signed
  // ---------------------------------------------------------------------------

  datatype Fee =
    | EvmFee(gasLimit: nat, maxFeePerGas: nat)
    | SolanaFee(signatures: nat, computeUnits: nat, microLamports: nat, rentLamports: nat)

  const SOLANA_SIGNATURE_LAMPORTS := 5_000

  function FeeInNativeUnits(f: Fee): nat {
    match f
    case EvmFee(gas, cap) => gas * cap
    case SolanaFee(sigs, units, price, rent) =>
      SOLANA_SIGNATURE_LAMPORTS * sigs + (units * price + 999_999) / 1_000_000 + rent
  }

  const SOLANA_SYSTEM_PROGRAMS: set<string> := {
    "11111111111111111111111111111111",
    "TokenkegQfeZyiNwAJbNbGKPFXCWuBvf9Ss623VQ5DA",
    "TokenzQdBNbLqP5VEhdkAS6EPFLC1PHnBqCXEpPxuEb",
    "ATokenGPvbdGVxr1b2hvZbsiqW5xWH25efTNsLJA8knL",
    "ComputeBudget111111111111111111111111111111",
    "AddressLookupTab1e1111111111111111111111111"}

  datatype Action = Action(
    mode: SS.Mode,
    kind: Kind,
    contract: string,
    tokenIn: string,
    programs: set<string>,
    fee: Fee,
    prices: Prices)

  datatype Context =
    | Evm(to: string, gas: nat, maxFeePerGas: nat)
    | Solana(programs: Option<seq<string>>)  // None: the message could not be decoded

  function LowerChar(c: char): char {
    if 'A' <= c <= 'Z' then 'a' + (c - 'A') else c
  }

  function Lower(s: string): string {
    seq(|s|, i requires 0 <= i < |s| => LowerChar(s[i]))
  }

  predicate Refused(db: SS.Db, a: Action) {
    a.mode != SS.Live || db.mode != SS.Live || db.stop || db.pause
  }

  /** The approved contract, or the token itself for an approval. */
  predicate Targets(a: Action, to: string) {
    Lower(to) == Lower(a.contract) || (a.kind == Approve && Lower(to) == a.tokenIn)
  }

  predicate Cleared(desk: Desk, a: Action, c: Context) {
    match c
    case Evm(to, gas, cap) => gas * cap <= FeeInNativeUnits(a.fee) && Targets(a, to)
    case Solana(None) => false
    case Solana(Some(ids)) =>
      desk.SwapDesk? && a.contract in ids
      && forall p :: p in ids ==> p in a.programs || p in SOLANA_SYSTEM_PROGRAMS
  }

  // ---------------------------------------------------------------------------
  // State
  // ---------------------------------------------------------------------------

  datatype Pc =
    | Building | Simulating | Preparing
    | Broadcasting(hash: Hash)
    | Polling(hash: Hash)

  datatype Task = Task(action: Action, pc: Pc)

  /** One use of the signing key. The transaction's hash is its position in the log: a fresh name. */
  datatype Signature = Signature(id: nat, action: Action, context: Context, db: SS.Db)

  datatype World = World(
    control: SS.State,
    open: bool,                // reconciliation is over and the executors may start
    rows: seq<Row>,
    tasks: map<nat, Task>,     // executions in progress, by row
    signatures: seq<Signature>,
    sent: set<Hash>,           // handed to broadcast
    chain: map<Hash, bool>,    // landed: confirmed or reverted, for good
    positions: map<nat, nat>,  // the LP store: tokens held, by pool
    counts: Counts)

  /** What happened to each row's fill. A multiset holds a row once for every time. */
  datatype Counts = Counts(
    booked: multiset<nat>,     // entries in the swap ledger or the LP store
    torn: multiset<nat>,       // deaths between an entry and the mark after it
    lost: multiset<nat>,       // deaths between a mark and the entry after it
    blank: multiset<nat>)      // marks with nothing to enter

  const NO_COUNTS := Counts(multiset{}, multiset{}, multiset{}, multiset{})

  const INITIAL := World(SS.INITIAL, false, [], map[], [], {}, map[], map[], NO_COUNTS)

  datatype Reply =
    | Fine
    | Error                                    // the call answered no, or threw where a throw is caught
    | Escapes                                  // it threw where nothing catches it
    | Prepared(context: Context, keyOk: bool)  // keyOk: the vault did not throw
    | Receipt(answer: Answer)
    | GaveUp

  datatype Event =
    | Control(e: SS.Event)
    | Open
    | Propose(row: Row)
    | Start(id: nat, action: Action, cut: nat)  // cut: durable writes that land before a death, if fewer than there are
    | Resume(id: nat, reply: Reply, cut: nat)
    | Land(hash: Hash, ok: bool)
    | SettleOne(id: nat, answer: Answer, cut: nat)

  function DeskOf(r: Row): Desk {
    if IsLpRow(r) then LpDesk else SwapDesk
  }

  function Die(w: World): (v: World)
    ensures |v.rows| == |w.rows|
  {
    w.(control := SS.Next(w.control, SS.Kill(0)), open := false, tasks := map[])
  }

  function Drop(w: World, id: nat): (v: World)
    ensures |v.rows| == |w.rows|
  {
    w.(tasks := w.tasks - {id})
  }

  /** A transition the store refuses leaves the row; the callers below swallow or propagate the conflict. */
  function Mark(w: World, id: nat, to: Status): (v: World)
    ensures |v.rows| == |w.rows|
  {
    match Move(w.rows, id, to)
    case Ok(rows) => w.(rows := rows)
    case Err(_) => w
  }

  function Fail(w: World, id: nat): (v: World)
    ensures |v.rows| == |w.rows|
  {
    Drop(Mark(w, id, Failed), id)
  }

  function At(w: World, id: nat, t: Task, pc: Pc): (v: World)
    ensures |v.rows| == |w.rows|
  {
    w.(tasks := w.tasks[id := t.(pc := pc)])
  }

  // ---------------------------------------------------------------------------
  // The segments
  // ---------------------------------------------------------------------------

  function FirstPc(r: Row): Pc {
    if IsLpRow(r) then Simulating else if r.kind == Approve then Preparing else Building
  }

  /** `execute` and `executeApprove` up to their first await. A swap writes its prices before it is dispatched. */
  function Begin(w: World, id: nat, a: Action, cut: nat): (v: World)
    ensures |v.rows| == |w.rows|
  {
    if !w.open || id >= |w.rows| || id in w.tasks || w.rows[id].status != Allowed || w.rows[id].kind != a.kind then w
    else if Refused(w.control.db, a) then Fail(w, id)
    else if IsLpRow(w.rows[id]) || a.kind == Approve then Dispatch(w, id, a)
    else
      var priced := w.(rows := w.rows[id := w.rows[id].(quotePrices := Some(a.prices))]);
      if cut == 0 then Die(priced) else Dispatch(priced, id, a)
  }

  function Dispatch(w: World, id: nat, a: Action): (v: World)
    requires id < |w.rows|
    ensures |v.rows| == |w.rows|
  {
    At(Mark(w, id, Dispatched), id, Task(a, Building), FirstPc(w.rows[id]))
  }

  /** Use the key, write the hash, hand the bytes over: nothing awaits in between. */
  function Sign(w: World, id: nat, t: Task, c: Context, cut: nat): (v: World)
    requires id < |w.rows|
    ensures |v.rows| == |w.rows|
  {
    var hash := |w.signatures|;
    var used := w.(signatures := w.signatures + [Signature(id, t.action, c, w.control.db)]);
    if cut == 0 then Die(used)
    else match Move(used.rows, id, Signed)
      case Err(_) => Drop(used, id)
      case Ok(rows) =>
        var signed := used.(rows := rows[id := rows[id].(txHash := Some(hash))]);
        if cut == 1 then Die(signed)
        else At(signed.(sent := w.sent + {hash}), id, t, Broadcasting(hash))
  }

  /** What a fill enters: one line of the swap ledger, a change of an LP position, or nothing. */
  datatype Entry = Nothing | LedgerLine | Moves(pool: nat, delta: int)

  function Entered(w: World, id: nat, e: Entry): (v: World)
    ensures v.rows == w.rows
  {
    match e
    case Nothing => w
    case LedgerLine => w.(counts := OneMore(w.counts, id))
    case Moves(pool, delta) =>
      if Held(w.positions, pool) + delta < 0 then w
      else w.(positions := Put(w.positions, pool, Held(w.positions, pool) + delta), counts := OneMore(w.counts, id))
  }

  function OneMore(c: Counts, id: nat): Counts {
    c.(booked := c.booked + multiset{id})
  }

  function MarkFilled(w: World, id: nat, e: Entry): (v: World)
    ensures |v.rows| == |w.rows|
  {
    var f := Mark(w, id, Filled);
    if e.Nothing? then f.(counts := f.counts.(blank := f.counts.blank + multiset{id})) else f
  }

  /** Enter, then mark filled. A death after the first write is what `torn` counts. */
  function BookThenFill(w: World, id: nat, e: Entry, cut: nat): (v: World)
    ensures |v.rows| == |w.rows|
  {
    var b := Entered(w, id, e);
    if !e.Nothing? && cut == 0 then Die(b.(counts := b.counts.(torn := b.counts.torn + multiset{id})))
    else Drop(MarkFilled(b, id, e), id)
  }

  /** The liquidity reconciler marks first. A death after the mark, with an entry due, is what `lost` counts. */
  function FillThenBook(w: World, id: nat, e: Entry, cut: nat): (v: World)
    ensures |v.rows| == |w.rows|
  {
    var f := MarkFilled(w, id, e);
    if cut > 0 then Entered(f, id, e)
    else if e.Nothing? then Die(f)
    else Die(f.(counts := f.counts.(lost := f.counts.lost + multiset{id})))
  }

  /** LP tokens an execution books for an add: what the receipt shows, or the minimum the quote enforced. */
  function LiveMinted(r: Row, a: Answer): nat
    requires a.Confirmed?
  {
    if a.minted.Some? then a.minted.value else if r.minOut.Some? then r.minOut.value else 0
  }

  predicate Adds(r: Row) {
    r.kind in {LpAdd, LpRebalance} && r.pool.Some?
  }

  /** The executor's own booking values both tokens, and the store refuses an add or a burn of nothing. */
  predicate LpRefused(r: Row, a: Answer, prices: Prices, positions: map<nat, nat>)
    requires a.Confirmed?
  {
    || !(prices.tokenIn.Atto? && prices.tokenIn.value > 0 && prices.tokenOut.Atto? && prices.tokenOut.value > 0)
    || (Adds(r) && LiveMinted(r, a) == 0)
    || (BurnsFrom(r, positions) && r.burn.value == 0)
  }

  function LiveEntry(r: Row, a: Answer, positions: map<nat, nat>): Entry
    requires a.Confirmed?
  {
    if Adds(r) then Moves(r.pool.value, LiveMinted(r, a))
    else if BurnsFrom(r, positions) then Moves(r.pool.value, 0 - r.burn.value)
    else Nothing
  }

  /** The reconciler has only the row and the receipt: no minimum stands in, and a rebalance moves nothing. */
  function BootEntry(r: Row, a: Answer, positions: map<nat, nat>): Entry {
    if !IsLpRow(r) then if Bookable(r) then LedgerLine else Nothing
    else if Delta(r, a, positions) != 0 then Moves(r.pool.value, Delta(r, a, positions))
    else Nothing
  }

  function Book(w: World, id: nat, t: Task, a: Answer, cut: nat): (v: World)
    requires id < |w.rows| && a.Confirmed?
    ensures |v.rows| == |w.rows|
  {
    var r := w.rows[id];
    if r.kind == Approve then BookThenFill(w, id, Nothing, cut)
    else if IsLpRow(r) then
      if LpRefused(r, a, t.action.prices, w.positions) then Drop(w, id)
      else BookThenFill(w, id, LiveEntry(r, a, w.positions), cut)
    else
      var priced := Priced(Some(t.action.prices));
      if priced && !Recordable(r.amountIn, ReceivedOut(r, a), t.action.prices) then Drop(w, id)
      else BookThenFill(w, id, if priced then LedgerLine else Nothing, cut)
  }

  /** The chain is never misquoted: a final answer is the transaction's fate. */
  predicate Truthful(w: World, hash: Hash, a: Answer) {
    && (a.Confirmed? ==> hash in w.chain && w.chain[hash])
    && (a.Reverted? ==> hash in w.chain && !w.chain[hash])
  }

  function Continue(w: World, id: nat, reply: Reply, cut: nat): (v: World)
    requires id in w.tasks && id < |w.rows|
    ensures |v.rows| == |w.rows|
  {
    var t := w.tasks[id];
    match (t.pc, reply)
    case (Building, Fine) => At(w, id, t, Simulating)
    case (Building, _) => Fail(w, id)
    case (Simulating, Fine) => At(w, id, t, Preparing)
    case (Simulating, Escapes) => Drop(w, id)
    case (Simulating, _) => Fail(w, id)
    case (Preparing, Prepared(c, keyOk)) =>
      if Refused(w.control.db, t.action) || !Cleared(DeskOf(w.rows[id]), t.action, c) || !keyOk then Fail(w, id)
      else Sign(w, id, t, c, cut)
    case (Preparing, _) => Fail(w, id)
    case (Broadcasting(h), Fine) => At(Mark(w, id, Broadcast), id, t, Polling(h))
    case (Broadcasting(_), _) => Drop(w, id)
    case (Polling(h), Receipt(a)) =>
      if !Truthful(w, h, a) then w
      else if a.Confirmed? then Book(w, id, t, a, cut)
      else if a.Reverted? then Fail(w, id)
      else w
    case (Polling(_), GaveUp) => Drop(w, id)
    case (Polling(_), _) => w
  }

  /**
   * One row of a reconciliation at boot: no execution is in progress. `cut` counts the writes after the row was
   * marked as seen by the chain; zero is a death right there.
   */
  function SettleRow(w: World, id: nat, a: Answer, cut: nat): (v: World)
    requires id < |w.rows| && InFlight(w.rows[id].status)
    ensures |v.rows| == |w.rows|
  {
    var r := w.rows[id];
    match Judge(r, a)
    case Abandon => Mark(w, id, Failed)
    case Wait => w
    case Revert => if cut == 0 then Die(Mark(w, id, Broadcast)) else Mark(Mark(w, id, Broadcast), id, Failed)
    case Confirm =>
      var b := Mark(w, id, Broadcast);
      if cut == 0 then Die(b)
      else if IsLpRow(r) then FillThenBook(b, id, BootEntry(r, a, b.positions), cut - 1)
      else if Poison(r, a) then b
      else BookThenFill(b, id, BootEntry(r, a, b.positions), cut - 1)
  }

  /** What a proposal puts on a liquidity row: the pool always, the burned amount on a removal. */
  predicate Proposable(r: Row) {
    && (IsLpRow(r) && r.kind != Approve ==> r.pool.Some?)
    && (r.kind == LpRemove ==> r.burn.Some?)
    && (r.kind in {LpAdd, LpRebalance} ==> r.minOut.Some?)
  }

  function Step(w: World, e: Event): (v: World)
    ensures |v.rows| >= |w.rows|
  {
    match e
    case Control(c) =>
      var control := SS.Next(w.control, c);
      if control.up then w.(control := control) else w.(control := control, open := false, tasks := map[])
    case Open => if w.control.up then w.(open := true) else w
    case Propose(row) =>
      if Proposable(row) then w.(rows := w.rows + [row.(status := Allowed, txHash := None, quotePrices := None)]) else w
    case Start(id, a, cut) => Begin(w, id, a, cut)
    case Resume(id, reply, cut) => if id in w.tasks && id < |w.rows| then Continue(w, id, reply, cut) else w
    case Land(h, ok) => if h in w.sent && h !in w.chain then w.(chain := w.chain[h := ok]) else w
    case SettleOne(id, a, cut) =>
      if w.control.up && !w.open && id < |w.rows| && InFlight(w.rows[id].status)
         && (w.rows[id].txHash.Some? ==> Truthful(w, w.rows[id].txHash.value, a))
      then SettleRow(w, id, a, cut) else w
  }

  function Run(es: seq<Event>): World {
    if es == [] then INITIAL else Step(Run(es[..|es| - 1]), es[|es| - 1])
  }

  // ---------------------------------------------------------------------------
  // The invariant
  // ---------------------------------------------------------------------------

  ghost predicate Unsigned(w: World, id: nat) {
    forall h :: 0 <= h < |w.signatures| ==> w.signatures[h].id != id
  }

  ghost predicate RowOk(w: World, id: nat)
    requires id < |w.rows|
  {
    var r := w.rows[id];
    && (r.txHash.Some? ==> r.txHash.value < |w.signatures| && w.signatures[r.txHash.value].id == id)
    && (r.status in {Signed, Broadcast, Filled} ==> r.txHash.Some?)
    && (r.status in {Allowed, Dispatched} ==> r.txHash.None?)
    && (r.status == Allowed ==> Unsigned(w, id))
    && (r.status == Failed && r.txHash.Some? ==> r.txHash.value in w.chain && !w.chain[r.txHash.value])
    && (r.status == Filled ==> r.txHash.value in w.chain && w.chain[r.txHash.value])
    && CountsOk(w.counts, id, r)
    && r.status in {Allowed, Dispatched, Signed, Broadcast, Filled, Failed}
  }

  /**
   * Every entry of a row is owed to a final mark or to a death before one; a final mark has its entry unless a
   * death cut it off or there was nothing to enter. At the swap desk only an unpriced row has nothing to enter.
   */
  predicate CountsOk(c: Counts, id: nat, r: Row) {
    && c.booked[id] + c.lost[id] + c.blank[id] == c.torn[id] + (if r.status == Filled then 1 else 0)
    && c.lost[id] + c.blank[id] <= (if r.status == Filled then 1 else 0)
    && (!IsLpRow(r) ==> c.lost[id] == 0 && c.blank[id] == if r.status == Filled && !Bookable(r) then 1 else 0)
    && ((!IsLpRow(r) && !Bookable(r)) || r.status in {Allowed, Dispatched} ==> c.torn[id] == 0)
  }

  predicate Uncounted(c: Counts, id: nat) {
    c.booked[id] == 0 && c.torn[id] == 0 && c.lost[id] == 0 && c.blank[id] == 0
  }

  predicate SameCounts(c: Counts, d: Counts, id: nat) {
    c.booked[id] == d.booked[id] && c.torn[id] == d.torn[id] && c.lost[id] == d.lost[id] && c.blank[id] == d.blank[id]
  }

  ghost predicate TaskOk(w: World, id: nat)
    requires id in w.tasks
  {
    && id < |w.rows|
    && var t, r := w.tasks[id], w.rows[id];
    && t.action.kind == r.kind
    && (!IsLpRow(r) && r.kind != Approve ==> r.quotePrices == Some(t.action.prices))
    && (match t.pc
        case Broadcasting(h) => r.status == Signed && r.txHash == Some(h)
        case Polling(h) => r.status == Broadcast && r.txHash == Some(h)
        case _ => r.status == Dispatched && Unsigned(w, id))
  }

  /** The hash of everything handed to broadcast stands in its own trade row. */
  ghost predicate Named(w: World, h: Hash) {
    && h < |w.signatures|
    && w.signatures[h].id < |w.rows|
    && w.rows[w.signatures[h].id].txHash == Some(h)
  }

  /**
   * The spend is within the approved fee: gas times its cap on EVM; on Solana 5000 lamports for each signature, the
   * priority fee in micro-lamports rounded up to a lamport, and rent.
   */
  predicate WithinFee(spend: nat, f: Fee) {
    match f
    case EvmFee(gas, cap) => spend <= gas * cap
    case SolanaFee(sigs, units, price, rent) => 1_000_000 * (spend - 5_000 * sigs - rent) < units * price + 1_000_000
  }

  predicate SameLetter(c: char, d: char) {
    c == d || ('A' <= c <= 'Z' && d as int == c as int + 32) || ('A' <= d <= 'Z' && c as int == d as int + 32)
  }

  predicate SameIgnoringCase(s: string, t: string) {
    |s| == |t| && forall i :: 0 <= i < |s| ==> SameLetter(s[i], t[i])
  }

  /** t is s with its capital letters turned small. */
  predicate InSmallLetters(s: string, t: string) {
    |s| == |t| && forall i :: 0 <= i < |s| ==> if 'A' <= s[i] <= 'Z' then t[i] as int == s[i] as int + 32 else t[i] == s[i]
  }

  /** The approved contract whoever acts, or for an approval alone the token it approves. */
  predicate MaySendTo(a: Action, to: string) {
    SameIgnoringCase(to, a.contract) || (a.kind == Approve && InSmallLetters(to, a.tokenIn))
  }

  /** What held when the key was used. */
  ghost predicate KeyUse(s: Signature) {
    && s.action.mode == SS.Live && s.db.mode == SS.Live && !s.db.stop && !s.db.pause
    && (s.context.Evm? ==> WithinFee(s.context.gas * s.context.maxFeePerGas, s.action.fee) && MaySendTo(s.action, s.context.to))
    && (s.context.Solana? ==> s.context.programs.Some? && s.action.contract in s.context.programs.value
                              && forall p :: p in s.context.programs.value ==>
                                   p in s.action.programs || p in SOLANA_SYSTEM_PROGRAMS)
  }

  ghost predicate Inv(w: World) {
    && (forall id :: 0 <= id < |w.rows| ==> RowOk(w, id))
    && (forall id :: id in w.tasks ==> TaskOk(w, id))
    && (forall h :: h in w.sent ==> Named(w, h))
    && w.chain.Keys <= w.sent
    && (forall h, k :: 0 <= h < k < |w.signatures| ==> w.signatures[h].id != w.signatures[k].id)
    && (forall h :: 0 <= h < |w.signatures| ==> w.signatures[h].id < |w.rows| && KeyUse(w.signatures[h]))
    && (forall id :: id >= |w.rows| ==> Uncounted(w.counts, id))
    && (w.tasks != map[] ==> w.open)
    && (w.open ==> w.control.up)
  }

  // ---------------------------------------------------------------------------
  // Every event keeps it
  // ---------------------------------------------------------------------------

  /** Only row `id` moved, and only its own task and counts with it. */
  ghost predicate OnlyRow(w: World, v: World, id: nat) {
    && id < |w.rows| && |v.rows| == |w.rows|
    && (forall j :: 0 <= j < |w.rows| && j != id ==> v.rows[j] == w.rows[j])
    && v.signatures == w.signatures && v.sent == w.sent && v.chain == w.chain
    && (forall j :: j != id ==> SameCounts(w.counts, v.counts, j))
    && (forall j :: j in v.tasks && j != id ==> j in w.tasks && v.tasks[j] == w.tasks[j])
    && (w.rows[id].txHash.Some? ==> v.rows[id].txHash == w.rows[id].txHash)
    && (v.tasks != map[] ==> v.open) && (v.open ==> v.control.up)
  }

  lemma OneRowMoved(w: World, v: World, id: nat)
    requires Inv(w) && OnlyRow(w, v, id)
    requires RowOk(v, id) && (id in v.tasks ==> TaskOk(v, id))
    ensures Inv(v)
  {
    forall j | 0 <= j < |v.rows| ensures RowOk(v, j) {
      if j != id {
        assert RowOk(w, j) && SameCounts(w.counts, v.counts, j);
      }
    }
    forall j | j in v.tasks ensures TaskOk(v, j) {
      if j != id {
        assert TaskOk(w, j);
      }
    }
    forall h | h in v.sent ensures Named(v, h) {
      assert Named(w, h);
    }
    forall j | j >= |v.rows| ensures Uncounted(v.counts, j) {
      assert SameCounts(w.counts, v.counts, j) && Uncounted(w.counts, j);
    }
  }

  lemma Facts(w: World, id: nat)
    requires Inv(w) && (id < |w.rows| || id in w.tasks)
    ensures id < |w.rows| && RowOk(w, id) && (id in w.tasks ==> TaskOk(w, id))
    ensures (w.tasks != map[] ==> w.open) && (w.open ==> w.control.up)
  {
    assert id in w.tasks ==> TaskOk(w, id);
  }

  lemma BeginKeeps(w: World, id: nat, a: Action, cut: nat)
    requires Inv(w)
    ensures Inv(Begin(w, id, a, cut))
  {
    hide Inv, KeyUse, Named, SS.Next, RowOk, TaskOk, Dispatch;
    if w.open && id < |w.rows| && id !in w.tasks && w.rows[id].status == Allowed && w.rows[id].kind == a.kind {
      if Refused(w.control.db, a) {
        // allowed -> failed is no transition: the row stays allowed
        assert Fail(w, id) == Drop(w, id);
        DropKeeps(w, id);
      } else if IsLpRow(w.rows[id]) || a.kind == Approve {
        DispatchKeeps(w, id, a);
      } else {
        var priced := PricedKeeps(w, id, a);
        DeathKeeps(priced);
        DispatchKeeps(priced, id, a);
      }
    }
  }

  lemma PricedKeeps(w: World, id: nat, a: Action) returns (v: World)
    requires Inv(w) && id < |w.rows| && id !in w.tasks && w.rows[id].status == Allowed
    ensures v == w.(rows := w.rows[id := w.rows[id].(quotePrices := Some(a.prices))]) && Inv(v)
  {
    hide Inv, KeyUse, Named;
    v := w.(rows := w.rows[id := w.rows[id].(quotePrices := Some(a.prices))]);
    Facts(w, id);
    assert RowOk(v, id);
    OneRowMoved(w, v, id);
  }

  lemma DeathKeeps(w: World)
    requires Inv(w)
    ensures Inv(Die(w))
  {
    hide RowOk, TaskOk, Named, KeyUse, SS.Next;
    EnvironmentKeeps(w, Die(w));
  }

  lemma DispatchKeeps(w: World, id: nat, a: Action)
    requires Inv(w) && w.open && id < |w.rows| && id !in w.tasks
    requires w.rows[id].status == Allowed && w.rows[id].kind == a.kind
    requires !IsLpRow(w.rows[id]) && a.kind != Approve ==> w.rows[id].quotePrices == Some(a.prices)
    ensures Inv(Dispatch(w, id, a))
  {
    hide Inv, KeyUse, Named, SS.Next;
    var v := Dispatch(w, id, a);
    Facts(w, id);
    assert RowOk(v, id);
    assert TaskOk(v, id);
    OneRowMoved(w, v, id);
  }

  lemma FailKeeps(w: World, id: nat)
    requires Inv(w) && id in w.tasks && w.tasks[id].pc in {Building, Simulating, Preparing}
    ensures Inv(Fail(w, id))
  {
    hide Inv, KeyUse, Named, SS.Next;
    Facts(w, id);
    OneRowMoved(w, Fail(w, id), id);
  }

  /** The log gains a signature for row `id`, and nothing else about the other rows moves. */
  ghost predicate LogGrew(w: World, v: World, id: nat) {
    && |v.signatures| == |w.signatures| + 1 && w.signatures <= v.signatures
    && v.signatures[|w.signatures|].id == id
    && id < |w.rows| && |v.rows| == |w.rows|
    && (forall j :: 0 <= j < |w.rows| && j != id ==> v.rows[j] == w.rows[j])
    && v.chain == w.chain && v.counts == w.counts
    && (forall j :: j in v.tasks && j != id ==> j in w.tasks && v.tasks[j] == w.tasks[j])
  }

  lemma OtherUnsigned(w: World, v: World, id: nat, j: nat)
    requires LogGrew(w, v, id) && j != id && Unsigned(w, j)
    ensures Unsigned(v, j)
  {
    forall h | 0 <= h < |v.signatures| ensures v.signatures[h].id != j {
      assert h < |w.signatures| ==> v.signatures[h] == w.signatures[h];
    }
  }

  lemma OtherRow(w: World, v: World, id: nat, j: nat)
    requires LogGrew(w, v, id) && j != id && j < |w.rows| && RowOk(w, j)
    ensures RowOk(v, j)
  {
    hide Unsigned, IsLpRow, Bookable;
    if Unsigned(w, j) {
      OtherUnsigned(w, v, id, j);
    }
  }

  lemma OtherTask(w: World, v: World, id: nat, j: nat)
    requires LogGrew(w, v, id) && j != id && j in v.tasks && TaskOk(w, j)
    ensures TaskOk(v, j)
  {
    hide Unsigned, IsLpRow;
    if Unsigned(w, j) {
      OtherUnsigned(w, v, id, j);
    }
  }

  /** The signature is the first of a dispatched row; the row may or may not have its hash yet. */
  lemma SignedLog(w: World, v: World, id: nat)
    requires Inv(w) && id in w.tasks && w.tasks[id].pc == Preparing
    requires LogGrew(w, v, id) && KeyUse(v.signatures[|w.signatures|])
    requires RowOk(v, id) && (id in v.tasks ==> TaskOk(v, id))
    requires v.sent == w.sent || (v.sent == w.sent + {|w.signatures|} && v.rows[id].txHash == Some(|w.signatures|))
    requires (v.tasks != map[] ==> v.open) && (v.open ==> v.control.up)
    ensures Inv(v)
  {
    hide RowOk, KeyUse;
    assert TaskOk(w, id);
    forall j | 0 <= j < |v.rows| ensures RowOk(v, j) {
      if j != id {
        OtherRow(w, v, id, j);
      }
    }
    forall j | j in v.tasks ensures TaskOk(v, j) {
      if j != id {
        OtherTask(w, v, id, j);
      }
    }
    forall h | h in v.sent ensures Named(v, h) {
      if h in w.sent {
        assert Named(w, h);
        assert v.signatures[h] == w.signatures[h];
        NotYetHashed(w, id, h);
      }
    }
    forall h | 0 <= h < |v.signatures| ensures v.signatures[h].id < |v.rows| && KeyUse(v.signatures[h]) {
      assert h < |w.signatures| ==> v.signatures[h] == w.signatures[h];
    }
    forall h, k | 0 <= h < k < |v.signatures| ensures v.signatures[h].id != v.signatures[k].id {
      assert v.signatures[h] == w.signatures[h];
      assert k < |w.signatures| ==> v.signatures[k] == w.signatures[k];
    }
  }

  lemma NotYetHashed(w: World, id: nat, h: Hash)
    requires id in w.tasks && w.tasks[id].pc == Preparing && TaskOk(w, id) && Named(w, h)
    ensures w.signatures[h].id != id
  {
  }

  lemma FeeIff(spend: nat, f: Fee)
    ensures spend <= FeeInNativeUnits(f) <==> WithinFee(spend, f)
  {
  }

  lemma LowerIff(s: string, t: string)
    ensures Lower(s) == Lower(t) <==> SameIgnoringCase(s, t)
    ensures Lower(s) == t <==> InSmallLetters(s, t)
  {
    if |s| == |t| {
      forall i | 0 <= i < |s|
        ensures LowerChar(s[i]) == LowerChar(t[i]) <==> SameLetter(s[i], t[i])
      {
      }
      if SameIgnoringCase(s, t) {
        assert Lower(s) == Lower(t);
      } else {
        var i :| 0 <= i < |s| && !SameLetter(s[i], t[i]);
        assert Lower(s)[i] != Lower(t)[i];
      }
      if InSmallLetters(s, t) {
        assert Lower(s) == t;
      } else {
        var i :| 0 <= i < |s| && !(if 'A' <= s[i] <= 'Z' then t[i] as int == s[i] as int + 32 else t[i] == s[i]);
        assert Lower(s)[i] != t[i];
      }
    } else {
      assert |Lower(s)| == |s| && |Lower(t)| == |t|;
    }
  }

  lemma TargetsIff(a: Action, to: string)
    ensures Targets(a, to) <==> MaySendTo(a, to)
  {
    LowerIff(to, a.contract);
    LowerIff(to, a.tokenIn);
    hide Lower, SameIgnoringCase, InSmallLetters;
  }

  lemma ClearedIsKeyUse(desk: Desk, id: nat, a: Action, c: Context, db: SS.Db)
    requires !Refused(db, a) && Cleared(desk, a, c)
    ensures KeyUse(Signature(id, a, c, db))
  {
    hide Targets, FeeInNativeUnits, MaySendTo, WithinFee;
    if c.Evm? {
      FeeIff(c.gas * c.maxFeePerGas, a.fee);
      TargetsIff(a, c.to);
    }
  }

  lemma SignKeeps(w: World, id: nat, c: Context, cut: nat)
    requires Inv(w) && id in w.tasks && w.tasks[id].pc == Preparing
    requires id < |w.rows| && !Refused(w.control.db, w.tasks[id].action)
    requires Cleared(DeskOf(w.rows[id]), w.tasks[id].action, c)
    ensures Inv(Sign(w, id, w.tasks[id], c, cut))
  {
    hide Inv, Named, KeyUse, Cleared, Refused, SS.Next;
    Facts(w, id);
    ClearedIsKeyUse(DeskOf(w.rows[id]), id, w.tasks[id].action, c, w.control.db);
    hide CountsOk;
    var v := Sign(w, id, w.tasks[id], c, cut);
    SignedCounts(w.counts, id, w.rows[id], v.rows[id]);
    SignedLog(w, v, id);
  }

  lemma SignedCounts(c: Counts, id: nat, r: Row, s: Row)
    requires CountsOk(c, id, r) && r.status == Dispatched && s.status in {Dispatched, Signed}
    requires s == r.(status := s.status, txHash := s.txHash)
    ensures CountsOk(c, id, s)
  {
  }

  /** The row's transaction is confirmed and it is still open. */
  ghost predicate Landed(w: World, id: nat) {
    && id < |w.rows| && w.rows[id].status == Broadcast && w.rows[id].txHash.Some?
    && w.rows[id].txHash.value in w.chain && w.chain[w.rows[id].txHash.value]
  }

  /** A row of the swap desk has a ledger line exactly when it is bookable. */
  predicate EntryFits(r: Row, e: Entry, positions: map<nat, nat>) {
    && (!IsLpRow(r) ==> e == if Bookable(r) then LedgerLine else Nothing)
    && (e.Moves? ==> Held(positions, e.pool) + e.delta >= 0)
  }

  lemma EnteredShape(w: World, id: nat, e: Entry)
    ensures Entered(w, id, e).(positions := w.positions, counts := w.counts) == w
    ensures (e.Moves? ==> Held(w.positions, e.pool) + e.delta >= 0) ==>
      Entered(w, id, e).counts == if e.Nothing? then w.counts else OneMore(w.counts, id)
  {
  }

  lemma CountsKept(c: Counts, d: Counts, id: nat, r: Row, s: Row)
    requires CountsOk(c, id, r) && r.status == Broadcast && s == r.(status := s.status) && s.status in {Broadcast, Filled}
    requires d.booked[id] + d.lost[id] + d.blank[id] + c.torn[id]
          == c.booked[id] + c.lost[id] + c.blank[id] + d.torn[id] + if s.status == Filled then 1 else 0
    requires d.lost[id] + d.blank[id] <= if s.status == Filled then 1 else 0
    requires !IsLpRow(r) ==> d.lost[id] == 0 && d.blank[id] == if s.status == Filled && !Bookable(r) then 1 else 0
    requires !IsLpRow(r) && !Bookable(r) ==> d.torn[id] == c.torn[id]
    ensures CountsOk(d, id, s)
  {
  }

  lemma RowKept(w: World, v: World, id: nat, s: Status)
    requires Landed(w, id) && RowOk(w, id) && s in {Broadcast, Filled}
    requires v.rows == w.rows[id := w.rows[id].(status := s)] && v.signatures == w.signatures && v.chain == w.chain
    requires CountsOk(v.counts, id, v.rows[id])
    ensures RowOk(v, id)
  {
    hide CountsOk;
  }

  lemma BookThenFillShape(w: World, id: nat, e: Entry, cut: nat)
    requires Landed(w, id) && EntryFits(w.rows[id], e, w.positions) && CountsOk(w.counts, id, w.rows[id])
    ensures var v := BookThenFill(w, id, e, cut);
      var s := if !e.Nothing? && cut == 0 then Broadcast else Filled;
      && v.rows == w.rows[id := w.rows[id].(status := s)]
      && v.signatures == w.signatures && v.sent == w.sent && v.chain == w.chain
      && (forall j :: j != id ==> SameCounts(w.counts, v.counts, j))
      && CountsOk(v.counts, id, v.rows[id])
      && ((v.tasks == map[] && !v.open) || (v.tasks == w.tasks - {id} && v.open == w.open && v.control == w.control))
  {
    hide SS.Next, Entered, CountsOk;
    EnteredShape(w, id, e);
    var v := BookThenFill(w, id, e, cut);
    var r := w.rows[id];
    EntryIsPriced(w.rows[id], e, w.positions, w.counts, id);
    hide EntryFits, IsLpRow, Bookable;
    CountsKept(w.counts, v.counts, id, r, v.rows[id]);
  }

  lemma EntryIsPriced(r: Row, e: Entry, positions: map<nat, nat>, c: Counts, id: nat)
    requires EntryFits(r, e, positions) && CountsOk(c, id, r) && r.status == Broadcast
    ensures e.Moves? ==> Held(positions, e.pool) + e.delta >= 0
    ensures !IsLpRow(r) ==> (Bookable(r) <==> !e.Nothing?)
    ensures c.lost[id] == 0 && c.blank[id] == 0 && c.booked[id] == c.torn[id]
  {
  }

  lemma BookThenFillKeeps(w: World, id: nat, e: Entry, cut: nat)
    requires Inv(w) && Landed(w, id) && EntryFits(w.rows[id], e, w.positions)
    requires id in w.tasks || w.tasks == map[]
    ensures Inv(BookThenFill(w, id, e, cut))
  {
    hide Inv, BookThenFill, EntryFits, CountsOk;
    Facts(w, id);
    BookThenFillShape(w, id, e, cut);
    hide TaskOk;
    RowKept(w, BookThenFill(w, id, e, cut), id, if !e.Nothing? && cut == 0 then Broadcast else Filled);
    OneRowMoved(w, BookThenFill(w, id, e, cut), id);
  }

  lemma FillThenBookCounts(w: World, id: nat, e: Entry, cut: nat)
    requires Landed(w, id) && (e.Moves? ==> Held(w.positions, e.pool) + e.delta >= 0)
    ensures var c, d := w.counts, FillThenBook(w, id, e, cut).counts;
      && (forall j :: j != id ==> SameCounts(c, d, j))
      && d.torn[id] == c.torn[id]
      && d.booked[id] + d.lost[id] + d.blank[id] == c.booked[id] + c.lost[id] + c.blank[id] + 1
      && d.lost[id] + d.blank[id] <= c.lost[id] + c.blank[id] + 1
  {
    hide SS.Next, Entered, Mark;
    EnteredShape(MarkFilled(w, id, e), id, e);
    MarksFilled(w, id);
  }

  lemma MarksFilled(w: World, id: nat)
    requires Landed(w, id)
    ensures Mark(w, id, Filled) == w.(rows := w.rows[id := w.rows[id].(status := Filled)])
  {
  }

  lemma FillThenBookShape(w: World, id: nat, e: Entry, cut: nat)
    requires Landed(w, id) && IsLpRow(w.rows[id]) && EntryFits(w.rows[id], e, w.positions)
    requires CountsOk(w.counts, id, w.rows[id]) && w.tasks == map[]
    ensures var v := FillThenBook(w, id, e, cut);
      && v.rows == w.rows[id := w.rows[id].(status := Filled)]
      && v.signatures == w.signatures && v.sent == w.sent && v.chain == w.chain
      && (forall j :: j != id ==> SameCounts(w.counts, v.counts, j))
      && CountsOk(v.counts, id, v.rows[id])
      && v.tasks == map[] && ((!v.open) || (v.open == w.open && v.control == w.control))
  {
    hide SS.Next, Entered, CountsOk, Mark;
    EnteredShape(MarkFilled(w, id, e), id, e);
    MarksFilled(w, id);
    EntryIsPriced(w.rows[id], e, w.positions, w.counts, id);
    FillThenBookCounts(w, id, e, cut);
    var v := FillThenBook(w, id, e, cut);
    assert v.rows == w.rows[id := w.rows[id].(status := Filled)];
    assert IsLpRow(v.rows[id]);
    hide EntryFits, IsLpRow, Bookable, FillThenBook;
    CountsKept(w.counts, v.counts, id, w.rows[id], v.rows[id]);
  }

  lemma FillThenBookKeeps(w: World, id: nat, e: Entry, cut: nat)
    requires Inv(w) && Landed(w, id) && IsLpRow(w.rows[id]) && EntryFits(w.rows[id], e, w.positions)
    requires w.tasks == map[]
    ensures Inv(FillThenBook(w, id, e, cut))
  {
    hide Inv, FillThenBook, EntryFits, CountsOk;
    Facts(w, id);
    FillThenBookShape(w, id, e, cut);
    hide TaskOk;
    RowKept(w, FillThenBook(w, id, e, cut), id, Filled);
    OneRowMoved(w, FillThenBook(w, id, e, cut), id);
  }

  lemma AdvanceKeeps(w: World, id: nat, pc: Pc)
    requires Inv(w) && id in w.tasks && w.tasks[id].pc in {Building, Simulating} && pc in {Simulating, Preparing}
    ensures Inv(At(w, id, w.tasks[id], pc))
  {
    hide Inv, KeyUse, Named;
    Facts(w, id);
    OneRowMoved(w, At(w, id, w.tasks[id], pc), id);
  }

  lemma DropKeeps(w: World, id: nat)
    requires Inv(w) && id < |w.rows|
    ensures Inv(Drop(w, id))
  {
    hide Inv, KeyUse, Named;
    Facts(w, id);
    OneRowMoved(w, Drop(w, id), id);
  }

  lemma BroadcastKeeps(w: World, id: nat)
    requires Inv(w) && id in w.tasks && w.tasks[id].pc.Broadcasting?
    ensures Inv(At(Mark(w, id, Broadcast), id, w.tasks[id], Polling(w.tasks[id].pc.hash)))
  {
    hide Inv, KeyUse, Named;
    Facts(w, id);
    var v := At(Mark(w, id, Broadcast), id, w.tasks[id], Polling(w.tasks[id].pc.hash));
    assert RowOk(v, id) && TaskOk(v, id);
    OneRowMoved(w, v, id);
  }

  lemma RevertedKeeps(w: World, id: nat, a: Answer)
    requires Inv(w) && id in w.tasks && w.tasks[id].pc.Polling?
    requires Truthful(w, w.tasks[id].pc.hash, a) && a.Reverted?
    ensures Inv(Fail(w, id))
  {
    hide Inv, KeyUse, Named;
    Facts(w, id);
    assert RowOk(Fail(w, id), id);
    OneRowMoved(w, Fail(w, id), id);
  }

  lemma ContinueKeeps(w: World, id: nat, reply: Reply, cut: nat)
    requires Inv(w) && id in w.tasks && id < |w.rows|
    ensures Inv(Continue(w, id, reply, cut))
  {
    hide Inv, Sign, Book, Cleared, Refused, Mark, Truthful, Fail, Drop;
    match w.tasks[id].pc
    case Building =>
      if reply.Fine? { AdvanceKeeps(w, id, Simulating); } else { FailKeeps(w, id); }
    case Simulating =>
      if reply.Fine? { AdvanceKeeps(w, id, Preparing); } else { FailKeeps(w, id); DropKeeps(w, id); }
    case Preparing =>
      FailKeeps(w, id);
      if reply.Prepared? && !Refused(w.control.db, w.tasks[id].action)
         && Cleared(DeskOf(w.rows[id]), w.tasks[id].action, reply.context) {
        SignKeeps(w, id, reply.context, cut);
      }
    case Broadcasting(_) =>
      BroadcastKeeps(w, id);
      DropKeeps(w, id);
    case Polling(h) =>
      DropKeeps(w, id);
      if reply.Receipt? && Truthful(w, h, reply.answer) {
        if reply.answer.Confirmed? {
          BookKeeps(w, id, reply.answer, cut);
        } else if reply.answer.Reverted? {
          RevertedKeeps(w, id, reply.answer);
        }
      }
  }

  lemma LiveEntryFits(r: Row, a: Answer, positions: map<nat, nat>)
    requires a.Confirmed? && IsLpRow(r)
    ensures EntryFits(r, LiveEntry(r, a, positions), positions)
  {
  }

  lemma BootEntryFits(r: Row, a: Answer, positions: map<nat, nat>)
    ensures EntryFits(r, BootEntry(r, a, positions), positions)
  {
  }

  lemma BookKeeps(w: World, id: nat, a: Answer, cut: nat)
    requires Inv(w) && id in w.tasks && id < |w.rows| && a.Confirmed?
    requires w.tasks[id].pc.Polling? && Truthful(w, w.tasks[id].pc.hash, a)
    ensures Inv(Book(w, id, w.tasks[id], a, cut))
  {
    hide Inv, KeyUse, Named, SS.Next, BookThenFill, LiveEntry, Drop, LpRefused, Recordable;
    Facts(w, id);
    DropKeeps(w, id);
    var r, t := w.rows[id], w.tasks[id];
    if r.kind == Approve {
      BookThenFillKeeps(w, id, Nothing, cut);
    } else if IsLpRow(r) {
      LiveEntryFits(r, a, w.positions);
      hide EntryFits;
      BookThenFillKeeps(w, id, LiveEntry(r, a, w.positions), cut);
    } else {
      BookThenFillKeeps(w, id, if Priced(Some(t.action.prices)) then LedgerLine else Nothing, cut);
    }
  }

  lemma SeenKeeps(w: World, id: nat)
    requires Inv(w) && id < |w.rows| && w.tasks == map[] && w.rows[id].status in {Signed, Broadcast}
    ensures Inv(Mark(w, id, Broadcast))
  {
    hide Inv, KeyUse, Named;
    Facts(w, id);
    var v := Mark(w, id, Broadcast);
    assert RowOk(v, id);
    OneRowMoved(w, v, id);
  }

  lemma AbandonKeeps(w: World, id: nat)
    requires Inv(w) && w.tasks == map[] && id < |w.rows| && InFlight(w.rows[id].status)
    requires w.rows[id].status == Dispatched || w.rows[id].txHash.None?
    ensures Inv(Mark(w, id, Failed))
  {
    hide Inv, KeyUse, Named;
    Facts(w, id);
    assert RowOk(Mark(w, id, Failed), id);
    OneRowMoved(w, Mark(w, id, Failed), id);
  }

  lemma RejectKeeps(w: World, id: nat)
    requires Inv(w) && w.tasks == map[] && id < |w.rows| && w.rows[id].status == Broadcast
    requires w.rows[id].txHash.Some? && w.rows[id].txHash.value in w.chain && !w.chain[w.rows[id].txHash.value]
    ensures Inv(Mark(w, id, Failed))
  {
    hide Inv, KeyUse, Named;
    Facts(w, id);
    assert RowOk(Mark(w, id, Failed), id);
    OneRowMoved(w, Mark(w, id, Failed), id);
  }

  lemma ConfirmKeeps(b: World, id: nat, r: Row, a: Answer, cut: nat)
    requires Inv(b) && b.tasks == map[] && Landed(b, id) && b.rows[id] == r.(status := Broadcast)
    ensures IsLpRow(r) ==> Inv(FillThenBook(b, id, BootEntry(r, a, b.positions), cut))
    ensures !IsLpRow(r) ==> Inv(BookThenFill(b, id, BootEntry(r, a, b.positions), cut))
  {
    hide Inv, FillThenBook, BookThenFill, BootEntry, Landed;
    BootEntryFits(r, a, b.positions);
    SameDesk(r, BootEntry(r, a, b.positions), b.positions);
    hide EntryFits;
    if IsLpRow(r) {
      FillThenBookKeeps(b, id, BootEntry(r, a, b.positions), cut);
    } else {
      BookThenFillKeeps(b, id, BootEntry(r, a, b.positions), cut);
    }
  }

  lemma SameDesk(r: Row, e: Entry, positions: map<nat, nat>)
    requires EntryFits(r, e, positions)
    ensures IsLpRow(r.(status := Broadcast)) == IsLpRow(r)
    ensures EntryFits(r.(status := Broadcast), e, positions)
  {
  }

  lemma SettleKeeps(w: World, id: nat, a: Answer, cut: nat)
    requires Inv(w) && w.tasks == map[] && id < |w.rows| && InFlight(w.rows[id].status)
    requires w.rows[id].txHash.Some? ==> Truthful(w, w.rows[id].txHash.value, a)
    ensures Inv(SettleRow(w, id, a, cut))
  {
    hide Inv, RowOk, SS.Next, BookThenFill, FillThenBook, Poison, BootEntry, Die, IsLpRow;
    var r := w.rows[id];
    if Judge(r, a) == Abandon {
      AbandonKeeps(w, id);
    } else if Judge(r, a) != Wait {
      SeenKeeps(w, id);
      var b := Mark(w, id, Broadcast);
      assert b.rows[id] == r.(status := Broadcast);
      DeathKeeps(b);
      if a.Reverted? {
        RejectKeeps(b, id);
      } else if cut > 0 {
        ConfirmKeeps(b, id, r, a, cut - 1);
      }
    }
  }

  /** Nothing the invariant reads moved, except that tasks may be gone and more transactions have landed. */
  lemma EnvironmentKeeps(w: World, v: World)
    requires Inv(w)
    requires w.rows <= v.rows && v.signatures == w.signatures && v.sent == w.sent
    requires v.counts == w.counts
    requires forall j :: |w.rows| <= j < |v.rows| ==> v.rows[j].status == Allowed && v.rows[j].txHash.None?
    requires w.chain.Keys <= v.chain.Keys <= v.sent && forall h :: h in w.chain ==> v.chain[h] == w.chain[h]
    requires v.tasks == w.tasks || v.tasks == map[]
    requires (v.tasks != map[] ==> v.open) && (v.open ==> v.control.up)
    ensures Inv(v)
  {
    hide KeyUse;
    forall j | 0 <= j < |v.rows| ensures RowOk(v, j) {
      if j < |w.rows| {
        assert RowOk(w, j);
        assert v.rows[j] == w.rows[j];
      } else {
        assert Uncounted(w.counts, j);
      }
    }
    forall j | j in v.tasks ensures TaskOk(v, j) {
      assert TaskOk(w, j);
      assert v.rows[j] == w.rows[j];
    }
    forall h | h in v.sent ensures Named(v, h) {
      assert Named(w, h);
      assert v.rows[w.signatures[h].id] == w.rows[w.signatures[h].id];
    }
  }

  lemma ControlKeeps(w: World, c: SS.Event)
    requires Inv(w)
    ensures Inv(Step(w, Control(c)))
  {
    hide Inv, SS.Next;
    Bounds(w);
    EnvironmentKeeps(w, Step(w, Control(c)));
  }

  lemma Bounds(w: World)
    requires Inv(w)
    ensures (w.tasks != map[] ==> w.open) && (w.open ==> w.control.up) && w.chain.Keys <= w.sent
  {
  }

  lemma EnvironmentStep(w: World, e: Event)
    requires Inv(w) && (e.Control? || e.Open? || e.Propose? || e.Land?)
    ensures Inv(Step(w, e))
  {
    hide Inv, SS.Next, SettleRow, Begin, Continue, Proposable;
    Bounds(w);
    if e.Control? {
      ControlKeeps(w, e.e);
    } else {
      EnvironmentKeeps(w, Step(w, e));
    }
  }

  lemma StepKeeps(w: World, e: Event)
    requires Inv(w)
    ensures Inv(Step(w, e))
  {
    hide RowOk, TaskOk, Named, KeyUse, SS.Next, SettleRow, Begin, Continue, Judge;
    match e
    case Start(id, a, cut) => BeginKeeps(w, id, a, cut);
    case Resume(id, reply, cut) => if id in w.tasks && id < |w.rows| { ContinueKeeps(w, id, reply, cut); }
    case SettleOne(id, a, cut) =>
      if w.control.up && !w.open && id < |w.rows| && InFlight(w.rows[id].status)
         && (w.rows[id].txHash.Some? ==> Truthful(w, w.rows[id].txHash.value, a)) {
        SettleKeeps(w, id, a, cut);
      }
    case _ => EnvironmentStep(w, e);
  }

  lemma {:induction false} EveryRun(es: seq<Event>)
    ensures Inv(Run(es))
  {
    if es != [] {
      EveryRun(es[..|es| - 1]);
      StepKeeps(Run(es[..|es| - 1]), es[|es| - 1]);
    }
  }

  // ---------------------------------------------------------------------------
  // Safety over whole runs
  // ---------------------------------------------------------------------------

  predicate ConfirmedTx(w: World, h: Hash) {
    h in w.chain && w.chain[h]
  }

  /**
   * In every run, with deaths anywhere: whatever was handed to broadcast is named by its own row; no row ends
   * failed while its transaction is confirmed, and every filled row's transaction is; a signed or broadcast row
   * always has its hash, so the reconcilers' "row without a transaction hash" branch is never taken.
   */
  lemma RowsAgreeWithChain(es: seq<Event>)
    ensures var w := Run(es);
      && (forall h :: h in w.sent ==> Named(w, h) && w.rows[w.signatures[h].id].status in {Signed, Broadcast, Filled, Failed})
      && (forall h :: h in w.sent && ConfirmedTx(w, h) ==> w.rows[w.signatures[h].id].status != Failed)
      && (forall id :: 0 <= id < |w.rows| && w.rows[id].status == Filled ==>
            w.rows[id].txHash.Some? && w.rows[id].txHash.value in w.sent && ConfirmedTx(w, w.rows[id].txHash.value))
      && (forall id :: 0 <= id < |w.rows| && w.rows[id].status in {Signed, Broadcast} ==> w.rows[id].txHash.Some?)
  {
    hide KeyUse;
    EveryRun(es);
    var w := Run(es);
    forall h | h in w.sent
      ensures Named(w, h) && w.rows[w.signatures[h].id].status in {Signed, Broadcast, Filled, Failed}
      ensures ConfirmedTx(w, h) ==> w.rows[w.signatures[h].id].status != Failed
    {
      assert Named(w, h) && RowOk(w, w.signatures[h].id);
    }
    forall id | 0 <= id < |w.rows|
      ensures w.rows[id].status in {Signed, Broadcast} ==> w.rows[id].txHash.Some?
      ensures w.rows[id].status == Filled ==>
        w.rows[id].txHash.Some? && w.rows[id].txHash.value in w.sent && ConfirmedTx(w, w.rows[id].txHash.value)
    {
      assert RowOk(w, id);
    }
  }

  /** Across all restarts a trade row gets at most one signature, every one with the checks of `KeyUse` passed. */
  lemma OneSignaturePerRow(es: seq<Event>, h: Hash, k: Hash)
    requires h < |Run(es).signatures| && k < |Run(es).signatures|
    ensures Run(es).signatures[h].id == Run(es).signatures[k].id ==> h == k
    ensures KeyUse(Run(es).signatures[h])
  {
    hide RowOk, TaskOk, Named, KeyUse, Run;
    EveryRun(es);
  }

  /**
   * How often a row's fill is entered, exactly. At the swap desk: once for every death between its entry and its
   * mark, and once more when it is filled and has prices; so at most once if and only if there was no such death,
   * or a single one after which it was never filled. At the liquidity desk the final entry is also missing when a
   * death fell between mark and entry, or the fill moved no position, and then one more such death is harmless.
   */
  lemma BookedExactly(es: seq<Event>, id: nat)
    requires id < |Run(es).rows|
    ensures var r, c := Run(es).rows[id], Run(es).counts;
      if !IsLpRow(r) then
        && c.booked[id] == c.torn[id] + (if r.status == Filled && Bookable(r) then 1 else 0)
        && (c.booked[id] <= 1 <==> c.torn[id] == 0 || (c.torn[id] == 1 && r.status != Filled))
      else
        && c.lost[id] + c.blank[id] <= (if r.status == Filled then 1 else 0)
        && c.booked[id] == c.torn[id] + (if r.status == Filled then 1 else 0) - c.lost[id] - c.blank[id]
        && (c.booked[id] <= 1 <==>
              c.torn[id] == 0 || (c.torn[id] == 1 && (r.status != Filled || c.lost[id] + c.blank[id] == 1)))
  {
    EveryRun(es);
    assert RowOk(Run(es), id);
  }

  // ---------------------------------------------------------------------------
  // The key is only used inside a session
  // ---------------------------------------------------------------------------

  /** The control events of a run: the operator's, the boots, and the deaths its other events brought. */
  function Emitted(w: World, e: Event): seq<SS.Event> {
    if e.Control? then [e.e] else if Step(w, e).control == w.control then [] else [SS.Kill(0)]
  }

  function Trace(es: seq<Event>): seq<SS.Event> {
    if es == [] then [] else Trace(es[..|es| - 1]) + Emitted(Run(es[..|es| - 1]), es[|es| - 1])
  }

  /** The two ways a segment treats the control state, and the log of signatures with it. */
  ghost predicate Lived(w: World, v: World) {
    v.control == w.control && v.signatures == w.signatures
  }

  ghost predicate LivedOrDied(w: World, v: World) {
    (v.control == w.control || v.control == SS.Next(w.control, SS.Kill(0))) && v.signatures == w.signatures
  }

  lemma BookLives(w: World, id: nat, t: Task, a: Answer, cut: nat)
    requires id < |w.rows| && a.Confirmed?
    ensures LivedOrDied(w, Book(w, id, t, a, cut))
  {
    hide SS.Next, BookThenFill, LiveEntry, LpRefused, Recordable, Priced, IsLpRow;
    BookLiveFirst(w, id, Nothing, cut);
    BookLiveFirst(w, id, LedgerLine, cut);
    BookLiveFirst(w, id, LiveEntry(w.rows[id], a, w.positions), cut);
  }

  lemma MarkLives(w: World, id: nat, to: Status)
    ensures Lived(w, Mark(w, id, to))
  {
  }

  lemma BookLiveFirst(w: World, id: nat, e: Entry, cut: nat)
    ensures LivedOrDied(w, BookThenFill(w, id, e, cut))
  {
    hide SS.Next, Mark, Entered;
    EnteredShape(w, id, e);
    MarkLives(Entered(w, id, e), id, Filled);
  }

  lemma MarkLiveFirst(w: World, id: nat, e: Entry, cut: nat)
    ensures LivedOrDied(w, FillThenBook(w, id, e, cut))
  {
    hide SS.Next, Mark, Entered;
    MarkLives(w, id, Filled);
    EnteredShape(MarkFilled(w, id, e), id, e);
  }

  lemma SettleLives(w: World, id: nat, a: Answer, cut: nat)
    requires id < |w.rows| && InFlight(w.rows[id].status)
    ensures LivedOrDied(w, SettleRow(w, id, a, cut))
  {
    hide SS.Next, Mark, BookThenFill, FillThenBook, Poison, BootEntry, Judge;
    var b := Mark(w, id, Broadcast);
    MarkLives(w, id, Broadcast);
    MarkLives(w, id, Failed);
    MarkLives(b, id, Failed);
    if cut > 0 {
      BookLiveFirst(b, id, BootEntry(w.rows[id], a, b.positions), cut - 1);
      MarkLiveFirst(b, id, BootEntry(w.rows[id], a, b.positions), cut - 1);
    }
  }

  lemma SignLogs(w: World, id: nat, t: Task, c: Context, cut: nat)
    requires id < |w.rows|
    ensures var v := Sign(w, id, t, c, cut);
      && (v.control == w.control || v.control == SS.Next(w.control, SS.Kill(0)))
      && v.signatures == w.signatures + [Signature(id, t.action, c, w.control.db)]
  {
    hide SS.Next, Move;
  }

  lemma ContinueMoves(w: World, id: nat, reply: Reply, cut: nat)
    requires id in w.tasks && id < |w.rows|
    ensures var v := Continue(w, id, reply, cut);
      && (v.control == w.control || v.control == SS.Next(w.control, SS.Kill(0)))
      && (v.signatures != w.signatures ==>
            !Refused(w.control.db, w.tasks[id].action) && w.tasks[id].pc == Preparing && reply.Prepared?
            && exists c :: v.signatures == w.signatures + [Signature(id, w.tasks[id].action, c, w.control.db)])
  {
    hide SS.Next, Move, Book, Sign, Cleared, Refused, Truthful;
    if reply.Receipt? && reply.answer.Confirmed? {
      BookLives(w, id, w.tasks[id], reply.answer, cut);
    }
    if reply.Prepared? {
      SignLogs(w, id, w.tasks[id], reply.context, cut);
    }
  }

  lemma BeginLives(w: World, id: nat, a: Action, cut: nat)
    ensures LivedOrDied(w, Begin(w, id, a, cut))
  {
    hide Move, Refused, IsLpRow, SS.Next;
  }

  lemma ControlMoves(w: World, e: Event)
    ensures var v := Step(w, e);
      || v.control == w.control
      || (e.Control? && v.control == SS.Next(w.control, e.e))
      || v.control == SS.Next(w.control, SS.Kill(0))
  {
    hide SS.Next, Begin, Continue, SettleRow, Truthful;
    match e
    case Start(id, a, cut) => BeginLives(w, id, a, cut);
    case Resume(id, reply, cut) => if id in w.tasks && id < |w.rows| { ContinueMoves(w, id, reply, cut); }
    case SettleOne(id, a, cut) => if id < |w.rows| && InFlight(w.rows[id].status) { SettleLives(w, id, a, cut); }
    case _ =>
  }

  lemma {:induction false} ControlIsTrace(es: seq<Event>)
    ensures Run(es).control == SS.Run(Trace(es))
  {
    hide Step, SS.Next;
    if es != [] {
      var before, e := es[..|es| - 1], es[|es| - 1];
      ControlIsTrace(before);
      var w := Run(before);
      StepControl(w, e);
      var t := Trace(before);
      if Emitted(w, e) == [] {
        assert Trace(es) == t;
      } else {
        var u := t + [Emitted(w, e)[0]];
        assert Trace(es) == u && u[..|t|] == t && u[|t|] == Emitted(w, e)[0];
      }
    }
  }

  lemma StepControl(w: World, e: Event)
    ensures Emitted(w, e) == [] ==> Step(w, e).control == w.control
    ensures Emitted(w, e) != [] ==>
      |Emitted(w, e)| == 1 && Step(w, e).control == SS.Next(w.control, Emitted(w, e)[0])
  {
    ControlMoves(w, e);
  }

  lemma WhoSigns(w: World, e: Event)
    requires |Step(w, e).signatures| > |w.signatures|
    ensures Step(w, e).signatures[|w.signatures|].db == w.control.db
    ensures e.Resume? && e.id in w.tasks && w.tasks[e.id].pc == Preparing && e.reply.Prepared?
    ensures var db := w.control.db; db.mode == SS.Live && !db.stop && !db.pause && w.tasks[e.id].action.mode == SS.Live
  {
    hide SS.Next, Begin, Continue, SettleRow, Truthful;
    match e
    case Start(id, a, cut) => BeginLives(w, id, a, cut);
    case Resume(id, reply, cut) => if id in w.tasks && id < |w.rows| { ContinueMoves(w, id, reply, cut); }
    case SettleOne(id, a, cut) => if id < |w.rows| && InFlight(w.rows[id].status) { SettleLives(w, id, a, cut); }
    case _ =>
  }

  /** Event k uses the signing key. */
  ghost predicate KeyUsedAt(es: seq<Event>, k: nat)
    requires k < |es|
  {
    |Run(es[..k + 1]).signatures| > |Run(es[..k]).signatures|
  }

  /**
   * Whatever was awaited before it, every use of the signing key falls in a process that is LIVE, not stopped and
   * not paused, inside a session: an activation with six fresh steps, and no stop, revert or restart since.
   */
  lemma SigningIsInSession(es: seq<Event>, k: nat) returns (j: nat)
    requires k < |es|
    ensures KeyUsedAt(es, k) ==>
      var w, db := Run(es[..k]), Run(es[..k]).control.db;
      && SS.OpenSession(Trace(es[..k]), j)
      && db.mode == SS.Live && !db.stop && !db.pause
      && Run(es[..k + 1]).signatures[|w.signatures|].db == db
  {
    hide Step;
    j := 0;
    if KeyUsedAt(es, k) {
      var w := Run(es[..k]);
      assert es[..k + 1][..k] == es[..k] && es[..k + 1][k] == es[k];
      EveryRun(es[..k]);
      WhoSigns(w, es[k]);
      Facts(w, es[k].id);
      ControlIsTrace(es[..k]);
      j := SS.LiveMeansSession(Trace(es[..k]));
    }
  }
}
