/** The paper LP executor: balances, positions and realized results, without a chain. */
module PaperLp {
  import opened Common
  import opened PairMath
  import opened Trades
  import opened Valuation

  type Token = nat
  type PoolId = nat

  datatype Position = Position(lp: nat, amount0: nat, amount1: nat, capital: nat)

  datatype PnlKind = Added | Removed | Exited

  datatype PnlRow = PnlRow(pool: PoolId, kind: PnlKind, proceeds: nat, cost: nat, fee: nat)

  datatype Book = Book(balances: map<Token, nat>, positions: map<PoolId, Position>, pnl: seq<PnlRow>)

  datatype Plan =
    | Add(amount0: nat, amount1: nat, minLp: nat)
    | Remove(lp: nat, min0: nat, min1: nat)
    | Claim

  /** One execution: the action's mode and lp leg, its plan, the pool as read, and the three prices. */
  datatype Request = Request(
    paper: bool,
    lpLeg: bool,
    plan: Plan,
    id: PoolId,
    token0: Token,
    token1: Token,
    pool: Pool,
    price0: nat,
    price1: nat,
    priceNative: nat,
    nativeDecimals: nat,
    feeNative: nat)

  function Bal(balances: map<Token, nat>, t: Token): nat {
    if t in balances then balances[t] else 0
  }

  function Held(positions: map<PoolId, Position>, id: PoolId): nat {
    if id in positions then positions[id].lp else 0
  }

  function Basis(positions: map<PoolId, Position>, id: PoolId): nat {
    if id in positions then positions[id].capital else 0
  }

  /** The amounts of both assets a position is booked as carrying. */
  function Carried(positions: map<PoolId, Position>, id: PoolId): (nat, nat) {
    if id in positions then (positions[id].amount0, positions[id].amount1) else (0, 0)
  }

  // ---------------------------------------------------------------------------
  // What each store call does
  // ---------------------------------------------------------------------------

  function Adjusted(balances: map<Token, nat>, t: Token, delta: int): Result<map<Token, nat>> {
    if Bal(balances, t) + delta < 0 then Err(Conflict)
    else Ok(balances[t := Bal(balances, t) + delta])
  }

  function Opened(positions: map<PoolId, Position>, id: PoolId, p: Position): Result<map<PoolId, Position>> {
    if p.lp == 0 then Err(Invalid)
    else if id !in positions then Ok(positions[id := p])
    else
      var e := positions[id];
      Ok(positions[id := Position(e.lp + p.lp, e.amount0 + p.amount0, e.amount1 + p.amount1, e.capital + p.capital)])
  }

  datatype Release = Release(positions: map<PoolId, Position>, cost: nat, closed: bool)

  function CostReleased(basis: nat, burned: nat, held: nat): (c: nat)
    requires 0 < burned <= held
    ensures c <= basis
    ensures burned == held ==> c == basis
    ensures basis * burned <= c * held && (c > 0 ==> (c - 1) * held < basis * burned)
  {
    CostBounds(basis, burned, held);
    (basis * burned + held - 1) / held
  }

  lemma CostBounds(basis: nat, burned: nat, held: nat)
    requires 0 < burned <= held
    ensures var c := (basis * burned + held - 1) / held;
      0 <= c <= basis && basis * burned <= c * held && (burned == held ==> c == basis)
      && (c > 0 ==> (c - 1) * held < basis * burned)
  {
    var n := basis * burned + held - 1;
    FloorBounds(n, held);
    Distributes(n / held - 1, 1, held);
    MulLe(basis, burned, held);
    BelowNext(n / held, basis, held, n);
    if burned == held {
      BelowNext(basis, n / held, held, n);
    }
  }

  function Burned(positions: map<PoolId, Position>, id: PoolId, burned: nat): Result<Release> {
    if id !in positions then Err(Conflict)
    else
      var e := positions[id];
      if burned == 0 || burned > e.lp then Err(Conflict)
      else
        var cost := CostReleased(e.capital, burned, e.lp);
        var left := e.lp - burned;
        if left == 0 then Ok(Release(positions - {id}, cost, true))
        else
          var p := Position(left, Share(e.amount0, left, e.lp), Share(e.amount1, left, e.lp), e.capital - cost);
          Ok(Release(positions[id := p], cost, false))
  }

  // ---------------------------------------------------------------------------
  // One execution
  // ---------------------------------------------------------------------------

  function Fee(q: Request): Result<nat> {
    NativeToUsdMicros(q.feeNative, q.nativeDecimals, q.priceNative, Ceil)
  }

  predicate Minting(q: Request) {
    q.pool.reserve0 > 0 && q.pool.reserve1 > 0 && q.pool.supply > 0
  }

  function MintedBy(q: Request): nat
    requires q.plan.Add? && Minting(q)
  {
    Minted(q.plan.amount0, q.plan.amount1, q.pool.reserve0, q.pool.reserve1, q.pool.supply)
  }

  function Out0(q: Request): nat
    requires q.plan.Remove? && q.pool.supply > 0
  {
    Share(q.plan.lp, q.pool.reserve0, q.pool.supply)
  }

  function Out1(q: Request): nat
    requires q.plan.Remove? && q.pool.supply > 0
  {
    Share(q.plan.lp, q.pool.reserve1, q.pool.supply)
  }

  function AddTo(b: Book, q: Request, fee: nat): Result<Book>
    requires q.plan.Add?
  {
    if !Minting(q) then Err(Invalid)
    else if MintedBy(q) < q.plan.minLp then Err(Invalid)
    else
      var p := q.plan;
      match Both(p.amount0, p.amount1, q.pool, q.price0, q.price1, Ceil)
      case Err(e) => Err(e)
      case Ok(capital) =>
        match Adjusted(b.balances, q.token0, 0 - p.amount0)
        case Err(e) => Err(e)
        case Ok(m) =>
          match Adjusted(m, q.token1, 0 - p.amount1)
          case Err(e) => Err(e)
          case Ok(balances) =>
            match Opened(b.positions, q.id, Position(MintedBy(q), p.amount0, p.amount1, capital))
            case Err(e) => Err(e)
            case Ok(positions) => Ok(Book(balances, positions, b.pnl + [PnlRow(q.id, Added, 0, 0, fee)]))
  }

  function RemoveFrom(b: Book, q: Request, fee: nat): Result<Book>
    requires q.plan.Remove?
  {
    if q.pool.supply == 0 then Err(Invalid)
    else if Out0(q) < q.plan.min0 || Out1(q) < q.plan.min1 then Err(Invalid)
    else
      match Both(Out0(q), Out1(q), q.pool, q.price0, q.price1, Floor)
      case Err(e) => Err(e)
      case Ok(proceeds) =>
        match Burned(b.positions, q.id, q.plan.lp)
        case Err(e) => Err(e)
        case Ok(released) =>
          var m := b.balances[q.token0 := Bal(b.balances, q.token0) + Out0(q)];
          var balances := m[q.token1 := Bal(m, q.token1) + Out1(q)];
          var kind := if released.closed then Exited else Removed;
          Ok(Book(balances, released.positions, b.pnl + [PnlRow(q.id, kind, proceeds, released.cost, fee)]))
  }

  /** The body of an execution, after dispatch: the new book, or a throw that changes nothing. */
  function Filling(b: Book, q: Request): Result<Book> {
    if !q.paper || !q.lpLeg then Err(Invalid)
    else match Fee(q)
      case Err(e) => Err(e)
      case Ok(fee) =>
        match q.plan
        case Add(_, _, _) => AddTo(b, q, fee)
        case Remove(_, _, _) => RemoveFrom(b, q, fee)
        case Claim => Err(Invalid)
  }

  function After(b: Book, q: Request): Book {
    var r := Filling(b, q);
    if r.Ok? then r.value else b
  }

  function Run(b: Book, qs: seq<Request>): Book {
    if qs == [] then b
    else After(Run(b, qs[..|qs| - 1]), qs[|qs| - 1])
  }

  // ---------------------------------------------------------------------------
  // When an execution fills
  // ---------------------------------------------------------------------------

  predicate Priced(q: Request) {
    && q.pool.decimals0 <= 36 && q.pool.decimals1 <= 36 && q.nativeDecimals <= 36
    && q.price0 > 0 && q.price1 > 0 && q.priceNative > 0
  }

  predicate Covered(balances: map<Token, nat>, q: Request)
    requires q.plan.Add?
  {
    if q.token0 == q.token1 then q.plan.amount0 + q.plan.amount1 <= Bal(balances, q.token0)
    else q.plan.amount0 <= Bal(balances, q.token0) && q.plan.amount1 <= Bal(balances, q.token1)
  }

  /** The deposit covers the claim of m LP tokens on both reserves. */
  predicate Backs(q: Request, m: nat)
    requires q.plan.Add?
  {
    && m * q.pool.reserve0 <= q.plan.amount0 * q.pool.supply
    && m * q.pool.reserve1 <= q.plan.amount1 * q.pool.supply
  }

  /** The pool returns at least these amounts for the burn. */
  predicate Returns(q: Request, x: nat, y: nat)
    requires q.plan.Remove?
  {
    && x * q.pool.supply <= q.plan.lp * q.pool.reserve0
    && y * q.pool.supply <= q.plan.lp * q.pool.reserve1
  }

  /**
   * An add fills exactly when the pool has reserves and supply, everything has a price, the mint is positive
   * and at least the quoted minimum (the deposit backs one LP token and the minimum), and both balances cover
   * their debit.
   */
  lemma AddFillsIff(b: Book, q: Request)
    requires q.paper && q.lpLeg && q.plan.Add?
    ensures Filling(b, q).Ok? <==>
      && q.pool.reserve0 > 0 && q.pool.reserve1 > 0 && q.pool.supply > 0 && Priced(q)
      && Backs(q, 1) && Backs(q, q.plan.minLp)
      && Covered(b.balances, q)
  {
    hide Minted, ToMicros;
    if Minting(q) {
      MintedIff(q.plan.amount0, q.plan.amount1, q.pool.reserve0, q.pool.reserve1, q.pool.supply, 1);
      MintedIff(q.plan.amount0, q.plan.amount1, q.pool.reserve0, q.pool.reserve1, q.pool.supply, q.plan.minLp);
    }
  }

  /**
   * A removal fills exactly when the pool has supply, everything has a price, both shares reach their minimum
   * and the position holds at least the positive amount burned.
   */
  lemma RemoveFillsIff(b: Book, q: Request)
    requires q.paper && q.lpLeg && q.plan.Remove?
    ensures Filling(b, q).Ok? <==>
      && q.pool.supply > 0 && Priced(q)
      && Returns(q, q.plan.min0, q.plan.min1)
      && 0 < q.plan.lp <= Held(b.positions, q.id)
  {
    hide Share, ToMicros, CostReleased;
    if q.pool.supply > 0 {
      ShareIff(q.plan.lp, q.pool.reserve0, q.pool.supply, q.plan.min0);
      ShareIff(q.plan.lp, q.pool.reserve1, q.pool.supply, q.plan.min1);
    }
  }

  // ---------------------------------------------------------------------------
  // Runs against one pool whose reserves stand still
  // ---------------------------------------------------------------------------

  datatype Place = Place(id: PoolId, token0: Token, token1: Token, pool: Pool)

  /** An execution against the pool as it stands, or one that shares neither its position nor its tokens. */
  predicate Fits(q: Request, s: Place) {
    || (q.id == s.id && q.token0 == s.token0 && q.token1 == s.token1 && q.pool == s.pool)
    || (q.id != s.id && {q.token0, q.token1} !! {s.token0, s.token1})
  }

  predicate AllFit(qs: seq<Request>, s: Place) {
    forall q :: q in qs ==> Fits(q, s)
  }

  /** What a fill moves: both balances, the LP tokens held, and nothing at any other place. */
  lemma Moved(b: Book, q: Request, s: Place)
    requires Fits(q, s) && s.token0 != s.token1
    ensures var after := After(b, q);
      if after == b || q.id != s.id then
        && Bal(after.balances, s.token0) == Bal(b.balances, s.token0)
        && Bal(after.balances, s.token1) == Bal(b.balances, s.token1)
        && Held(after.positions, s.id) == Held(b.positions, s.id)
        && Basis(after.positions, s.id) == Basis(b.positions, s.id)
      else if q.plan.Add? then
        && Minting(q)
        && Bal(after.balances, s.token0) == Bal(b.balances, s.token0) - q.plan.amount0
        && Bal(after.balances, s.token1) == Bal(b.balances, s.token1) - q.plan.amount1
        && Held(after.positions, s.id) == Held(b.positions, s.id) + MintedBy(q)
        && Carried(after.positions, s.id).0 == Carried(b.positions, s.id).0 + q.plan.amount0
        && Carried(after.positions, s.id).1 == Carried(b.positions, s.id).1 + q.plan.amount1
      else
        && q.plan.Remove? && q.pool.supply > 0
        && Bal(after.balances, s.token0) == Bal(b.balances, s.token0) + Out0(q)
        && Bal(after.balances, s.token1) == Bal(b.balances, s.token1) + Out1(q)
        && Held(after.positions, s.id) == Held(b.positions, s.id) - q.plan.lp
  {
    hide Minted, Share, ToMicros, CostReleased;
  }

  /** A balance and the position's claim on that reserve, both in units of one supply-th of the asset. */
  function Claim0(b: Book, s: Place): nat {
    Bal(b.balances, s.token0) * s.pool.supply + Held(b.positions, s.id) * s.pool.reserve0
  }

  function Claim1(b: Book, s: Place): nat {
    Bal(b.balances, s.token1) * s.pool.supply + Held(b.positions, s.id) * s.pool.reserve1
  }

  lemma SpentCovers(balance: nat, x: nat, held: nat, m: nat, supply: nat, reserve: nat)
    requires x <= balance && m * reserve <= x * supply
    ensures (balance - x) * supply + (held + m) * reserve <= balance * supply + held * reserve
  {
    Distributes(balance - x, x, supply);
    Distributes(held, m, reserve);
  }

  lemma ReturnedCovered(balance: nat, out: nat, held: nat, m: nat, supply: nat, reserve: nat)
    requires m <= held && out * supply <= m * reserve
    ensures (balance + out) * supply + (held - m) * reserve <= balance * supply + held * reserve
  {
    Distributes(balance, out, supply);
    Distributes(held - m, m, reserve);
  }

  lemma ClaimStep(b: Book, q: Request, s: Place)
    requires Fits(q, s) && s.token0 != s.token1
    ensures Claim0(After(b, q), s) <= Claim0(b, s)
    ensures Claim1(After(b, q), s) <= Claim1(b, s)
  {
    Moved(b, q, s);
    var after := After(b, q);
    hide After, Minted, Share, Bal, Held;
    if after != b && q.id == s.id {
      var b0, b1, held := Bal(b.balances, s.token0), Bal(b.balances, s.token1), Held(b.positions, s.id);
      if q.plan.Add? {
        MintCovered(q.plan.amount0, q.plan.amount1, q.pool.reserve0, q.pool.reserve1, q.pool.supply);
        SpentCovers(b0, q.plan.amount0, held, MintedBy(q), q.pool.supply, q.pool.reserve0);
        SpentCovers(b1, q.plan.amount1, held, MintedBy(q), q.pool.supply, q.pool.reserve1);
      } else {
        ShareBounds(q.plan.lp, q.pool.reserve0, q.pool.supply);
        ShareBounds(q.plan.lp, q.pool.reserve1, q.pool.supply);
        ReturnedCovered(b0, Out0(q), held, q.plan.lp, q.pool.supply, q.pool.reserve0);
        ReturnedCovered(b1, Out1(q), held, q.plan.lp, q.pool.supply, q.pool.reserve1);
      }
    }
  }

  /**
   * Over any run against standing reserves, mixed with executions elsewhere, neither balance together with the
   * position's claim on its reserve ever grows: rounding and refusals never create an asset.
   */
  lemma {:induction false} NothingFromNothing(b: Book, qs: seq<Request>, s: Place)
    requires AllFit(qs, s) && s.token0 != s.token1
    ensures Claim0(Run(b, qs), s) <= Claim0(b, s)
    ensures Claim1(Run(b, qs), s) <= Claim1(b, s)
  {
    hide After, Claim0, Claim1;
    if qs != [] {
      var k := |qs| - 1;
      NothingFromNothing(b, qs[..k], s);
      ClaimStep(Run(b, qs[..k]), qs[k], s);
    }
  }

  // ---------------------------------------------------------------------------
  // Cost basis
  // ---------------------------------------------------------------------------

  function Released(pnl: seq<PnlRow>, id: PoolId): nat {
    if pnl == [] then 0
    else
      var row := pnl[|pnl| - 1];
      Released(pnl[..|pnl| - 1], id) + if row.pool == id then row.cost else 0
  }

  function Proceeds(pnl: seq<PnlRow>, id: PoolId): nat {
    if pnl == [] then 0
    else
      var row := pnl[|pnl| - 1];
      Proceeds(pnl[..|pnl| - 1], id) + if row.pool == id then row.proceeds else 0
  }

  lemma PnlGrows(pnl: seq<PnlRow>, row: PnlRow, id: PoolId)
    ensures Released(pnl + [row], id) == Released(pnl, id) + if row.pool == id then row.cost else 0
    ensures Proceeds(pnl + [row], id) == Proceeds(pnl, id) + if row.pool == id then row.proceeds else 0
  {
    assert (pnl + [row])[..|pnl|] == pnl;
  }

  /** The cost basis one execution adds to a position. */
  function Paid(b: Book, q: Request, id: PoolId): nat {
    if Filling(b, q).Ok? && q.plan.Add? && q.id == id
    then Both(q.plan.amount0, q.plan.amount1, q.pool, q.price0, q.price1, Ceil).value else 0
  }

  /** What one execution realizes before its fee. */
  function Got(b: Book, q: Request, id: PoolId): nat {
    if Filling(b, q).Ok? && q.plan.Remove? && q.id == id
    then Both(Out0(q), Out1(q), q.pool, q.price0, q.price1, Floor).value else 0
  }

  function PaidOver(b: Book, qs: seq<Request>, id: PoolId): nat {
    if qs == [] then 0
    else PaidOver(b, qs[..|qs| - 1], id) + Paid(Run(b, qs[..|qs| - 1]), qs[|qs| - 1], id)
  }

  /** Every fill leaves one result row with its fee; it reads as an exit exactly when the position is gone. */
  lemma FillIsRecorded(b: Book, q: Request)
    ensures var after := After(b, q);
      if Filling(b, q).Err? then after == b
      else
        && |after.pnl| == |b.pnl| + 1 && b.pnl <= after.pnl
        && var row := after.pnl[|b.pnl|];
        && row.pool == q.id && row.proceeds == Got(b, q, q.id)
        && q.feeNative * q.priceNative <= row.fee * Scale(q.nativeDecimals) < q.feeNative * q.priceNative + Scale(q.nativeDecimals)
        && (row.kind == Added <==> q.plan.Add?)
        && (row.kind == Exited <==> q.plan.Remove? && q.id !in after.positions)
        && row.cost == Basis(b.positions, q.id) + Paid(b, q, q.id) - Basis(after.positions, q.id)
  {
    hide Minted, Share, ToMicros, CostReleased, Scale;
    MicrosBounds(q.feeNative, q.nativeDecimals, q.priceNative);
  }

  lemma BookStep(b: Book, q: Request, id: PoolId)
    ensures var after := After(b, q);
      && Basis(after.positions, id) + Released(after.pnl, id) == Basis(b.positions, id) + Released(b.pnl, id) + Paid(b, q, id)
      && Proceeds(after.pnl, id) == Proceeds(b.pnl, id) + Got(b, q, id)
  {
    hide Minted, Share, ToMicros, CostReleased, Released, Proceeds;
    FillIsRecorded(b, q);
    var after := After(b, q);
    if Filling(b, q).Ok? {
      PnlGrows(b.pnl, after.pnl[|b.pnl|], id);
    }
  }

  /** Every micro-dollar paid into a position is released by a removal or still on it, across any run. */
  lemma {:induction false} BasisConserved(b: Book, qs: seq<Request>, id: PoolId)
    ensures var after := Run(b, qs);
      Basis(after.positions, id) + Released(after.pnl, id)
        == Basis(b.positions, id) + Released(b.pnl, id) + PaidOver(b, qs, id)
  {
    hide After, Basis, Released, Paid;
    if qs != [] {
      var k := |qs| - 1;
      BasisConserved(b, qs[..k], id);
      BookStep(Run(b, qs[..k]), qs[k], id);
    }
  }

  /** A removal never raises what a remaining LP token is booked at, nor what it is booked as carrying. */
  lemma AverageCostNeverRises(positions: map<PoolId, Position>, id: PoolId, burned: nat)
    requires Burned(positions, id, burned).Ok?
    ensures var after := Burned(positions, id, burned).value.positions;
      && Basis(after, id) * Held(positions, id) <= Basis(positions, id) * Held(after, id)
      && Carried(after, id).0 * Held(positions, id) <= Carried(positions, id).0 * Held(after, id)
      && Carried(after, id).1 * Held(positions, id) <= Carried(positions, id).1 * Held(after, id)
  {
    var e := positions[id];
    var cost := Burned(positions, id, burned).value.cost;
    CostBounds(e.capital, burned, e.lp);
    ShareBounds(e.amount0, e.lp - burned, e.lp);
    ShareBounds(e.amount1, e.lp - burned, e.lp);
    hide CostReleased, Share;
    LessPerToken(e.capital, cost, burned, e.lp);
  }

  /**
   * What a removal leaves, exactly: the same share of both carried amounts as of the tokens, each rounded down to a
   * unit, and the basis less the smallest amount that covers the burned share of it. At a full burn nothing is left.
   */
  lemma RemovalIsProportional(positions: map<PoolId, Position>, id: PoolId, burned: nat)
    requires Burned(positions, id, burned).Ok?
    ensures var r := Burned(positions, id, burned).value;
      var before := positions[id];
      && r.positions - {id} == positions - {id}
      && (r.closed <==> burned == before.lp) && (r.closed <==> id !in r.positions)
      && before.capital * burned <= r.cost * before.lp && (r.cost > 0 ==> (r.cost - 1) * before.lp < before.capital * burned)
      && (!r.closed ==>
            var left := r.positions[id];
            && left.lp == before.lp - burned && left.capital == before.capital - r.cost
            && left.amount0 * before.lp <= before.amount0 * left.lp < (left.amount0 + 1) * before.lp
            && left.amount1 * before.lp <= before.amount1 * left.lp < (left.amount1 + 1) * before.lp)
  {
    hide CostReleased;
    var e := positions[id];
    var left := e.lp - burned;
    ShareBounds(e.amount0, left, e.lp);
    ShareBounds(e.amount1, left, e.lp);
    Distributes(Share(e.amount0, left, e.lp), 1, e.lp);
    Distributes(Share(e.amount1, left, e.lp), 1, e.lp);
    hide Share;
  }

  lemma LessPerToken(basis: nat, cost: nat, burned: nat, held: nat)
    requires cost <= basis && burned <= held && basis * burned <= cost * held
    ensures (basis - cost) * held <= basis * (held - burned)
  {
    Distributes(basis - cost, cost, held);
    assert basis * (held - burned) == basis * held - basis * burned;
  }

  // ---------------------------------------------------------------------------
  // Removing liquidity until the position is gone
  // ---------------------------------------------------------------------------

  /** Every execution fills, and each burns what REMOVE_LIQUIDITY asks for of the position as it then stands. */
  predicate Halving(b: Book, qs: seq<Request>, id: PoolId) {
    qs == [] ||
    var k := |qs| - 1;
    var before := Run(b, qs[..k]);
    && Halving(b, qs[..k], id)
    && Filling(before, qs[k]).Ok?
    && qs[k].id == id && qs[k].plan.Remove? && qs[k].plan.lp == Removal(Held(before.positions, id))
  }

  lemma RemoveLeaves(b: Book, q: Request)
    ensures Filling(b, q).Ok? && q.plan.Remove? ==>
      var after := After(b, q).positions;
      && q.id in b.positions
      && Held(after, q.id) == Held(b.positions, q.id) - q.plan.lp
      && (q.id in after <==> Held(after, q.id) > 0)
  {
    hide Minted, Share, ToMicros, CostReleased;
  }

  lemma {:induction false} HalvingLeaves(b: Book, qs: seq<Request>, id: PoolId)
    requires Halving(b, qs, id)
    ensures Held(Run(b, qs).positions, id) == Left(Held(b.positions, id), |qs|)
    ensures qs != [] ==> (id in Run(b, qs).positions <==> Held(Run(b, qs).positions, id) > 0)
  {
    hide Filling, Held, After;
    if qs != [] {
      var k := |qs| - 1;
      HalvingLeaves(b, qs[..k], id);
      RemoveLeaves(Run(b, qs[..k]), qs[k]);
    }
  }

  /**
   * A run of filled REMOVE_LIQUIDITY executions deletes a position of n LP tokens with exactly its
   * (ceil(log2 n) + 1)-th, and cannot go on after it.
   */
  lemma HalvingClosesThePosition(b: Book, qs: seq<Request>, id: PoolId, k: nat)
    requires Halving(b, qs, id) && id in b.positions && Held(b.positions, id) > 0
    requires CeilLog2(k, Held(b.positions, id))
    ensures |qs| <= k + 1
    ensures id !in Run(b, qs).positions <==> |qs| == k + 1
  {
    var n := Held(b.positions, id);
    RemovalsClose(n, k);
    HalvingLeaves(b, qs, id);
    LeftIsZeroIff(n, |qs|);
    if qs != [] {
      var last := |qs| - 1;
      HalvingLeaves(b, qs[..last], id);
      RemoveFillsIff(Run(b, qs[..last]), qs[last]);
      LeftIsZeroIff(n, last);
    }
  }

  // ---------------------------------------------------------------------------
  // No profit on paper while nothing moves
  // ---------------------------------------------------------------------------

  predicate SamePrices(qs: seq<Request>, price0: nat, price1: nat) {
    forall q :: q in qs ==> q.price0 == price0 && q.price1 == price1
  }

  /** Realized so far, before fees, less what the open position still carries. */
  function Result0(b: Book, id: PoolId): int {
    Proceeds(b.pnl, id) - Released(b.pnl, id) - Basis(b.positions, id)
  }

  /** That result against the value of both balances, in units of one Scale-th of each asset's micro-dollar. */
  function Potential(b: Book, s: Place, price0: nat, price1: nat): int {
    var k0, k1 := Scale(s.pool.decimals0), Scale(s.pool.decimals1);
    Weigh(Result0(b, s.id), Bal(b.balances, s.token0), Bal(b.balances, s.token1), k0, k1, price0, price1)
  }

  function Weigh(result: int, b0: int, b1: int, k0: nat, k1: nat, price0: nat, price1: nat): int {
    result * (k0 * k1) - b0 * (price0 * k1) - b1 * (price1 * k0)
  }

  /** A result and both balances that change by d, x and y weigh less when d is worth no more than x and y. */
  lemma WeighStep(result: int, b0: int, b1: int, d0: int, d1: int, x: int, y: int, k0: nat, k1: nat, price0: nat, price1: nat)
    requires d0 * k0 <= x * price0 && d1 * k1 <= y * price1
    ensures Weigh(result + d0 + d1, b0 + x, b1 + y, k0, k1, price0, price1)
         <= Weigh(result, b0, b1, k0, k1, price0, price1)
  {
    MulLe(k1, d0 * k0, x * price0);
    MulLe(k0, d1 * k1, y * price1);
    assert k1 * (d0 * k0) == d0 * (k0 * k1) && k0 * (d1 * k1) == d1 * (k0 * k1);
    assert k1 * (x * price0) == x * (price0 * k1) && k0 * (y * price1) == y * (price1 * k0);
    Distributes(result, d0, k0 * k1);
    Distributes(result + d0, d1, k0 * k1);
    Distributes(b0, x, price0 * k1);
    Distributes(b1, y, price1 * k0);
  }

  lemma Negated(a: int, b: int, x: int, y: int)
    requires a * b >= x * y
    ensures (0 - a) * b <= (0 - x) * y
  {
  }

  lemma PotentialStep(b: Book, q: Request, s: Place)
    requires Fits(q, s) && s.token0 != s.token1
    ensures Potential(After(b, q), s, q.price0, q.price1) <= Potential(b, s, q.price0, q.price1)
  {
    hide Minted, Share, ToMicros, Weigh, Scale, Filling, Released, Proceeds, Basis, Bal, Held;
    Moved(b, q, s);
    BookStep(b, q, s.id);
    var after := After(b, q);
    if after != b && q.id == s.id {
      var p, r := q.pool, Result0(b, s.id);
      var b0, b1 := Bal(b.balances, s.token0), Bal(b.balances, s.token1);
      var k0, k1 := Scale(p.decimals0), Scale(p.decimals1);
      if q.plan.Add? {
        var c0: int := ToMicros(q.plan.amount0, p.decimals0, q.price0, Ceil);
        var c1: int := ToMicros(q.plan.amount1, p.decimals1, q.price1, Ceil);
        MicrosBounds(q.plan.amount0, p.decimals0, q.price0);
        MicrosBounds(q.plan.amount1, p.decimals1, q.price1);
        Negated(c0, k0, q.plan.amount0, q.price0);
        Negated(c1, k1, q.plan.amount1, q.price1);
        FilledMeansValued(b, q);
        WeighStep(r, b0, b1, 0 - c0, 0 - c1, 0 - q.plan.amount0, 0 - q.plan.amount1, k0, k1, q.price0, q.price1);
      } else {
        var p0 := ToMicros(Out0(q), p.decimals0, q.price0, Floor);
        var p1 := ToMicros(Out1(q), p.decimals1, q.price1, Floor);
        MicrosBounds(Out0(q), p.decimals0, q.price0);
        MicrosBounds(Out1(q), p.decimals1, q.price1);
        FilledMeansValued(b, q);
        WeighStep(r, b0, b1, p0, p1, Out0(q), Out1(q), k0, k1, q.price0, q.price1);
      }
    }
  }

  lemma FilledMeansValued(b: Book, q: Request)
    ensures Filling(b, q).Ok? && q.plan.Add? ==>
      Both(q.plan.amount0, q.plan.amount1, q.pool, q.price0, q.price1, Ceil).Ok?
    ensures Filling(b, q).Ok? && q.plan.Remove? ==>
      q.pool.supply > 0 && Both(Out0(q), Out1(q), q.pool, q.price0, q.price1, Floor).Ok?
  {
    hide Both, Minted, Share, Adjusted, Opened, Burned;
  }

  lemma {:induction false} PotentialRun(b: Book, qs: seq<Request>, s: Place, price0: nat, price1: nat)
    requires AllFit(qs, s) && SamePrices(qs, price0, price1) && s.token0 != s.token1
    ensures Potential(Run(b, qs), s, price0, price1) <= Potential(b, s, price0, price1)
  {
    hide After, Potential;
    if qs != [] {
      var k := |qs| - 1;
      PotentialRun(b, qs[..k], s, price0, price1);
      PotentialStep(Run(b, qs[..k]), qs[k], s);
    }
  }

  /** What a pool has realized before fees. */
  function Realized(b: Book, id: PoolId): int {
    Proceeds(b.pnl, id) - Released(b.pnl, id)
  }

  lemma LighterMeansPoorer(r: int, r': int, b0: nat, b0': nat, b1: nat, b1': nat, k0: nat, k1: nat, price0: nat, price1: nat)
    requires k0 > 0 && k1 > 0 && b0' <= b0 && b1' <= b1
    requires Weigh(r', b0', b1', k0, k1, price0, price1) <= Weigh(r, b0, b1, k0, k1, price0, price1)
    ensures r' <= r
  {
    ScaleLe(b0', b0, price0 * k1);
    ScaleLe(b1', b1, price1 * k0);
    assert k0 * k1 > 0;
    assert r' * (k0 * k1) == (k0 * k1) * r' && r * (k0 * k1) == (k0 * k1) * r;
    CancelLe(r', r, k0 * k1);
  }

  /**
   * While reserves and prices stand still, no run of adds and removals that starts and ends without the
   * position realizes a profit, before fees: every ceiling and floor works against the position.
   */
  lemma NoProfitWhileNothingMoves(b: Book, qs: seq<Request>, s: Place, price0: nat, price1: nat)
    requires AllFit(qs, s) && SamePrices(qs, price0, price1) && s.token0 != s.token1 && s.pool.supply > 0
    requires s.id !in b.positions && s.id !in Run(b, qs).positions
    ensures Realized(Run(b, qs), s.id) <= Realized(b, s.id)
  {
    hide Run, Bal, Weigh, Scale, Proceeds, Released;
    var after := Run(b, qs);
    NothingFromNothing(b, qs, s);
    PotentialRun(b, qs, s, price0, price1);
    var b0, b1 := Bal(b.balances, s.token0), Bal(b.balances, s.token1);
    var b0', b1' := Bal(after.balances, s.token0), Bal(after.balances, s.token1);
    CancelLe(b0', b0, s.pool.supply);
    CancelLe(b1', b1, s.pool.supply);
    LighterMeansPoorer(Realized(b, s.id), Realized(after, s.id), b0, b0', b1, b1',
      Scale(s.pool.decimals0), Scale(s.pool.decimals1), price0, price1);
  }

  lemma OutsAreLargest(q: Request)
    requires q.plan.Remove? && q.pool.supply > 0
    ensures Returns(q, Out0(q), Out1(q)) && !Returns(q, Out0(q) + 1, 0) && !Returns(q, 0, Out1(q) + 1)
  {
    hide Share;
    var lp, r0, r1, supply := q.plan.lp, q.pool.reserve0, q.pool.reserve1, q.pool.supply;
    ShareIff(lp, r0, supply, Out0(q));
    ShareIff(lp, r1, supply, Out1(q));
    ShareIff(lp, r0, supply, Out0(q) + 1);
    ShareIff(lp, r1, supply, Out1(q) + 1);
  }

  class PaperLpExecutor {
    var balances: map<Token, nat>
    var positions: map<PoolId, Position>
    var pnl: seq<PnlRow>
    const trades: TradeStore

    constructor (trades: TradeStore)
      ensures this.trades == trades && Contents() == Book(map[], map[], [])
    {
      this.trades := trades;
      balances, positions, pnl := map[], map[], [];
    }

    function Contents(): Book
      reads this
    {
      Book(balances, positions, pnl)
    }

    method AdjustPaper(t: Token, delta: int) returns (r: Result<()>)
      modifies this`balances
      ensures match Adjusted(old(balances), t, delta)
              case Ok(m) => r.Ok? && balances == m
              case Err(e) => r == Err(e) && balances == old(balances)
      ensures var held := if t in old(balances) then old(balances)[t] else 0;
        && (r.Ok? <==> held + delta >= 0)
        && (r.Ok? ==> balances == old(balances)[t := held + delta])
    {
      var held := if t in balances then balances[t] else 0;
      var next := held + delta;
      if next < 0 {
        return Err(Conflict);
      }
      balances := balances[t := next];
      return Ok(());
    }

    method BookAdd(id: PoolId, p: Position) returns (r: Result<()>)
      modifies this`positions
      ensures match Opened(old(positions), id, p)
              case Ok(m) => r.Ok? && positions == m
              case Err(e) => r == Err(e) && positions == old(positions)
    {
      if p.lp == 0 {
        return Err(Invalid);
      }
      if id !in positions {
        positions := positions[id := p];
      } else {
        var e := positions[id];
        positions := positions[id := Position(e.lp + p.lp, e.amount0 + p.amount0, e.amount1 + p.amount1, e.capital + p.capital)];
      }
      return Ok(());
    }

    method BookRemove(id: PoolId, burned: nat) returns (r: Result<(nat, bool)>)
      modifies this`positions
      ensures match Burned(old(positions), id, burned)
              case Ok(released) => r == Ok((released.cost, released.closed)) && positions == released.positions
              case Err(e) => r == Err(e) && positions == old(positions)
    {
      hide CostReleased, Share;
      if id !in positions {
        return Err(Conflict);
      }
      var e := positions[id];
      if burned == 0 || burned > e.lp {
        return Err(Conflict);
      }
      var cost := CostReleased(e.capital, burned, e.lp);
      var remaining := e.lp - burned;
      if remaining == 0 {
        positions := positions - {id};
        return Ok((cost, true));
      }
      var amount0, amount1 := Share(e.amount0, remaining, e.lp), Share(e.amount1, remaining, e.lp);
      positions := positions[id := Position(remaining, amount0, amount1, e.capital - cost)];
      return Ok((cost, false));
    }

    /** The three writes of an add, in order; the first that throws ends them. */
    method AddWrites(q: Request, minted: nat, capital: nat, fee: nat) returns (r: Result<()>)
      requires q.plan.Add?
      modifies this
      ensures r.Ok? <==>
        && Adjusted(old(balances), q.token0, 0 - q.plan.amount0).Ok?
        && Adjusted(Adjusted(old(balances), q.token0, 0 - q.plan.amount0).value, q.token1, 0 - q.plan.amount1).Ok?
        && minted > 0
      ensures r.Ok? ==>
        && balances == Adjusted(Adjusted(old(balances), q.token0, 0 - q.plan.amount0).value, q.token1, 0 - q.plan.amount1).value
        && positions == Opened(old(positions), q.id, Position(minted, q.plan.amount0, q.plan.amount1, capital)).value
        && pnl == old(pnl) + [PnlRow(q.id, Added, 0, 0, fee)]
    {
      r := AdjustPaper(q.token0, 0 - q.plan.amount0);
      if r.Err? {
        return;
      }
      r := AdjustPaper(q.token1, 0 - q.plan.amount1);
      if r.Err? {
        return;
      }
      r := BookAdd(q.id, Position(minted, q.plan.amount0, q.plan.amount1, capital));
      if r.Err? {
        return;
      }
      pnl := pnl + [PnlRow(q.id, Added, 0, 0, fee)];
    }

    method Add(q: Request, fee: nat) returns (r: Result<nat>)
      requires q.plan.Add?
      modifies this
      ensures match AddTo(old(Contents()), q, fee)
              case Ok(b) => r == Ok(MintedBy(q)) && Contents() == b
              case Err(_) => r.Err? && Contents() == old(Contents())
      ensures r.Ok? ==> Backs(q, r.value) && !Backs(q, r.value + 1)
    {
      if q.pool.reserve0 == 0 || q.pool.reserve1 == 0 || q.pool.supply == 0 {
        return Err(Invalid);
      }
      var by0 := q.plan.amount0 * q.pool.supply / q.pool.reserve0;
      var by1 := q.plan.amount1 * q.pool.supply / q.pool.reserve1;
      var minted := if by0 < by1 then by0 else by1;
      if minted < q.plan.minLp {
        return Err(Invalid);
      }
      var capital := Both(q.plan.amount0, q.plan.amount1, q.pool, q.price0, q.price1, Ceil);
      if capital.Err? {
        return Err(Invalid);
      }
      MintedIff(q.plan.amount0, q.plan.amount1, q.pool.reserve0, q.pool.reserve1, q.pool.supply, minted);
      MintedIff(q.plan.amount0, q.plan.amount1, q.pool.reserve0, q.pool.reserve1, q.pool.supply, minted + 1);
      // One database transaction: a throw rolls back whatever was already written.
      var before := (balances, positions, pnl);
      var written := AddWrites(q, minted, capital.value, fee);
      if written.Err? {
        balances, positions, pnl := before.0, before.1, before.2;
        return Err(written.error);
      }
      return Ok(minted);
    }

    method Remove(q: Request, fee: nat) returns (r: Result<(nat, nat)>)
      requires q.plan.Remove?
      modifies this
      ensures match RemoveFrom(old(Contents()), q, fee)
              case Ok(b) => r == Ok((Out0(q), Out1(q))) && Contents() == b
              case Err(_) => r.Err? && Contents() == old(Contents())
      ensures r.Ok? ==> var (x, y) := r.value; Returns(q, x, y) && !Returns(q, x + 1, 0) && !Returns(q, 0, y + 1)
    {
      if q.pool.supply == 0 {
        return Err(Invalid);
      }
      var out0 := q.plan.lp * q.pool.reserve0 / q.pool.supply;
      var out1 := q.plan.lp * q.pool.reserve1 / q.pool.supply;
      if out0 < q.plan.min0 || out1 < q.plan.min1 {
        return Err(Invalid);
      }
      OutsAreLargest(q);
      var proceeds := Both(out0, out1, q.pool, q.price0, q.price1, Floor);
      if proceeds.Err? {
        return Err(Invalid);
      }
      var booked := BookRemove(q.id, q.plan.lp);
      if booked.Err? {
        return Err(booked.error);
      }
      var credit := AdjustPaper(q.token0, out0);
      credit := AdjustPaper(q.token1, out1);
      pnl := pnl + [PnlRow(q.id, if booked.value.1 then Exited else Removed, proceeds.value, booked.value.0, fee)];
      return Ok((out0, out1));
    }

    /** A failure marks the row and swallows the refusal of a row that is not dispatched. */
    method Fail(trade: nat)
      modifies trades
      ensures var m := Move(old(trades.rows), trade, Failed);
        trades.rows == if m.Ok? then m.value else old(trades.rows)
    {
      var _ := trades.Transition(trade, Failed);
    }

    /**
     * Run one decided action. A row that is not allowed throws and changes nothing. Otherwise the book becomes
     * `After` of it, and the row ends filled exactly when the book was written.
     */
    method Execute(trade: nat, q: Request) returns (r: Result<bool>)
      modifies this, trades
      ensures Contents() == if r.Ok? then After(old(Contents()), q) else old(Contents())
      ensures r.Ok? ==> r.value == Filling(old(Contents()), q).Ok?
      ensures r != Ok(true) ==> Contents() == old(Contents())
      ensures r.Err? <==> q.paper && q.lpLeg && !(trade < |old(trades.rows)| && old(trades.rows)[trade].status == Allowed)
      ensures r.Err? ==> trades.rows == old(trades.rows)
      ensures r.Ok? && trade < |old(trades.rows)| && old(trades.rows)[trade].status == Allowed ==>
        trades.rows == old(trades.rows)[trade := old(trades.rows)[trade].(status :=
          if !(q.paper && q.lpLeg) then Allowed else if r.value then Filled else Failed)]
    {
      if !q.paper || !q.lpLeg {
        Fail(trade);
        return Ok(false);
      }
      var dispatched := trades.Transition(trade, Dispatched);
      if dispatched.Err? {
        return Err(dispatched.error);
      }
      var fee := NativeToUsdMicros(q.feeNative, q.nativeDecimals, q.priceNative, Ceil);
      var filled := false;
      if fee.Ok? {
        match q.plan {
          case Add(_, _, _) =>
            var added := Add(q, fee.value);
            filled := added.Ok?;
          case Remove(_, _, _) =>
            var removed := Remove(q, fee.value);
            filled := removed.Ok?;
          case Claim =>
        }
      }
      if filled {
        var _ := trades.Transition(trade, Filled);
      } else {
        Fail(trade);
      }
      return Ok(filled);
    }
  }
}
