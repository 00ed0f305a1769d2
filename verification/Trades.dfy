/** The trade table: a row for every proposal, and the guarded moves of its status. */
module Trades {
  import opened Common

  datatype Status =
    | Proposed | Rejected | Allowed | Dispatched | Signed | Broadcast | Filled | Failed | Cancelled

  predicate CanMove(from: Status, to: Status) {
    match from
    case Proposed => to in {Rejected, Allowed}
    case Allowed => to in {Dispatched, Cancelled}
    case Dispatched => to in {Signed, Filled, Failed, Cancelled}
    case Signed => to in {Broadcast, Failed}
    case Broadcast => to in {Filled, Failed}
    case _ => false
  }

  predicate InFlight(s: Status) {
    s in {Dispatched, Signed, Broadcast}
  }

  datatype Kind = Swap | Approve | LpAdd | LpRemove | LpClaim | LpRebalance

  /** A USD price string: the literal "0" the executors test for, or any other string, as its atto-USD value. */
  datatype Price = ZeroLiteral | Atto(value: nat)

  datatype Prices = Prices(tokenIn: Price, tokenOut: Price)

  type Hash = nat

  /** Rows are numbered in proposal order, so the number is the id. */
  datatype Row = Row(
    kind: Kind,
    lp: bool,                 // route.lp
    status: Status,
    txHash: Option<Hash>,
    amountIn: nat,
    minOut: Option<nat>,
    quotePrices: Option<Prices>,
    pool: Option<nat>,        // route.poolId
    burn: Option<nat>)        // route.lpTokens

  /** The liquidity executor's rows; every other row is the swap executor's. */
  predicate IsLpRow(r: Row) {
    r.kind in {LpAdd, LpRemove, LpClaim, LpRebalance} || (r.kind == Approve && r.lp)
  }

  function Move(rows: seq<Row>, id: nat, to: Status): Result<seq<Row>> {
    if id >= |rows| then Err(NotFound)
    else if !CanMove(rows[id].status, to) then Err(Conflict)
    else Ok(rows[id := rows[id].(status := to)])
  }

  class TradeStore {
    var rows: seq<Row>

    constructor (rows: seq<Row>)
      ensures this.rows == rows
    {
      this.rows := rows;
    }

    method Transition(id: nat, to: Status) returns (r: Result<()>)
      modifies this
      ensures match Move(old(rows), id, to)
              case Ok(moved) => r.Ok? && rows == moved
              case Err(e) => r == Err(e) && rows == old(rows)
    {
      if id >= |rows| {
        return Err(NotFound);
      }
      if !CanMove(rows[id].status, to) {
        return Err(Conflict);
      }
      rows := rows[id := rows[id].(status := to)];
      return Ok(());
    }

    method MarkSigned(id: nat, hash: Hash) returns (r: Result<()>)
      modifies this
      ensures match Move(old(rows), id, Signed)
              case Ok(moved) => r.Ok? && rows == moved[id := moved[id].(txHash := Some(hash))]
              case Err(e) => r == Err(e) && rows == old(rows)
    {
      r := Transition(id, Signed);
      if r.Ok? {
        rows := rows[id := rows[id].(txHash := Some(hash))];
      }
    }

    /** Ids of the rows a previous process left between dispatch and a terminal state, oldest first. */
    method ListInFlight() returns (ids: seq<nat>)
      ensures ids == InFlightIds(rows)
    {
      ids := [];
      for i := 0 to |rows|
        invariant ids == InFlightIds(rows[..i])
      {
        assert rows[..i + 1][..i] == rows[..i];
        if InFlight(rows[i].status) {
          ids := ids + [i];
        }
      }
      assert rows[..|rows|] == rows;
    }
  }

  function InFlightIds(rows: seq<Row>): seq<nat> {
    if rows == [] then []
    else
      var k := |rows| - 1;
      InFlightIds(rows[..k]) + if InFlight(rows[k].status) then [k] else []
  }

  lemma {:induction false} InFlightIdsAre(rows: seq<Row>)
    ensures forall i :: i in InFlightIds(rows) <==> 0 <= i < |rows| && InFlight(rows[i].status)
    ensures forall a :: 0 <= a < |InFlightIds(rows)| ==> InFlightIds(rows)[a] < |rows|
    ensures forall a, b :: 0 <= a < b < |InFlightIds(rows)| ==> InFlightIds(rows)[a] < InFlightIds(rows)[b]
  {
    if rows != [] {
      var k := |rows| - 1;
      InFlightIdsAre(rows[..k]);
      var head := InFlightIds(rows[..k]);
      forall a, b | 0 <= a < b < |InFlightIds(rows)|
        ensures InFlightIds(rows)[a] < InFlightIds(rows)[b]
      {
        if b == |head| {
          assert head[a] in head;
        }
      }
    }
  }

  /** The machine's shape: no transition leaves a terminal row, and none returns to a state already left. */
  function Rank(s: Status): nat {
    match s
    case Proposed => 0
    case Allowed => 1
    case Dispatched => 2
    case Signed => 3
    case Broadcast => 4
    case _ => 5
  }

  lemma EveryMoveAdvances(rows: seq<Row>, id: nat, to: Status)
    ensures var m := Move(rows, id, to);
      m.Ok? ==> id < |rows| && Rank(rows[id].status) < Rank(to)
                && forall i :: 0 <= i < |rows| && i != id ==> m.value[i] == rows[i]
  {
  }

  /** The only ways into each state: filled from dispatch on paper or once broadcast, and out of no terminal state. */
  lemma WaysIn(from: Status, to: Status)
    ensures CanMove(from, to) <==>
      match to
      case Proposed => false
      case Rejected | Allowed => from == Proposed
      case Dispatched => from == Allowed
      case Signed => from == Dispatched
      case Broadcast => from == Signed
      case Filled => from in {Dispatched, Broadcast}
      case Failed => from in {Dispatched, Signed, Broadcast}
      case Cancelled => from in {Allowed, Dispatched}
  {
  }
}
