/** The pair contract's mint and burn formulas, and what they do to a depositor when the price moves. */
module PairMath {

  /** Floor division of non-negative integers, the only division the source uses. */
  lemma FloorBounds(n: nat, d: nat)
    requires d > 0
    ensures (n / d) * d <= n < (n / d) * d + d
  {
  }

  lemma ScaleLe(a: nat, b: nat, k: nat)
    requires a <= b
    ensures a * k <= b * k
  {
  }

  lemma MulLe(k: nat, a: int, b: int)
    requires a <= b
    ensures k * a <= k * b
  {
    assert k * (b - a) >= 0;
  }

  lemma CancelLe(a: int, b: int, k: nat)
    requires k > 0 && k * a <= k * b
    ensures a <= b
  {
    assert k * (b + 1) == k * b + k;
    if b < a {
      MulLe(k, b + 1, a);
    }
  }

  /** q * d < (p + 1) * d puts q at p or below. */
  lemma BelowNext(q: nat, p: nat, d: nat, m: nat)
    requires d > 0 && q * d <= m < p * d + d
    ensures q <= p
  {
    if q > p {
      ScaleLe(p + 1, q, d);
    }
  }

  lemma FloorMonotone(n: nat, m: nat, d: nat)
    requires d > 0 && n <= m
    ensures n / d <= m / d
  {
    FloorBounds(n, d);
    FloorBounds(m, d);
    BelowNext(n / d, m / d, d, m);
  }

  lemma QuotientIff(m: nat, n: nat, d: nat)
    requires d > 0
    ensures m <= n / d <==> m * d <= n
  {
    FloorBounds(n, d);
    if m <= n / d {
      ScaleLe(m, n / d, d);
    }
    if m * d <= n {
      BelowNext(m, n / d, d, n);
    }
  }

  lemma Distributes(p: int, q: int, d: int)
    ensures (p + q) * d == p * d + q * d
  {
  }

  lemma SumFits(p: nat, q: nat, n: nat, m: nat, d: nat)
    requires d > 0 && p * d <= n && q * d <= m
    ensures p + q <= (n + m) / d
  {
    Distributes(p, q, d);
    QuotientIff(p + q, n + m, d);
  }

  lemma FloorSuperadditive(n: nat, m: nat, d: nat)
    requires d > 0
    ensures n / d + m / d <= (n + m) / d
  {
    FloorBounds(n, d);
    FloorBounds(m, d);
    SumFits(n / d, m / d, n, m, d);
  }

  /** LP tokens minted for x and y against reserves a and b. */
  function Minted(x: nat, y: nat, a: nat, b: nat, supply: nat): nat
    requires a > 0 && b > 0
  {
    var by0, by1 := x * supply / a, y * supply / b;
    if by0 < by1 then by0 else by1
  }

  /** What burning lp tokens returns of a reserve. */
  function Share(lp: nat, reserve: nat, supply: nat): nat
    requires supply > 0
  {
    lp * reserve / supply
  }

  /** The mint is the largest amount whose claim on either reserve the deposit of that asset covers. */
  lemma MintedIff(x: nat, y: nat, a: nat, b: nat, supply: nat, m: nat)
    requires a > 0 && b > 0
    ensures m <= Minted(x, y, a, b, supply) <==> m * a <= x * supply && m * b <= y * supply
  {
    QuotientIff(m, x * supply, a);
    QuotientIff(m, y * supply, b);
  }

  /** A burn returns the largest amount that is covered by its part of the reserve. */
  lemma ShareIff(lp: nat, reserve: nat, supply: nat, m: nat)
    requires supply > 0
    ensures m <= Share(lp, reserve, supply) <==> m * supply <= lp * reserve
  {
    QuotientIff(m, lp * reserve, supply);
  }

  lemma MintCovered(x: nat, y: nat, a: nat, b: nat, supply: nat)
    requires a > 0 && b > 0
    ensures Minted(x, y, a, b, supply) * a <= x * supply
    ensures Minted(x, y, a, b, supply) * b <= y * supply
  {
    MintedIff(x, y, a, b, supply, Minted(x, y, a, b, supply));
  }

  /** Burning at once what an add minted never returns more of either asset than went in. */
  lemma AddThenBurn(x: nat, y: nat, a: nat, b: nat, supply: nat)
    requires a > 0 && b > 0 && supply > 0
    ensures var m := Minted(x, y, a, b, supply);
      Share(m, a, supply) <= x && Share(m, b, supply) <= y
  {
    var m := Minted(x, y, a, b, supply);
    MintCovered(x, y, a, b, supply);
    BurnAtMost(m, a, supply, x);
    BurnAtMost(m, b, supply, y);
  }

  lemma BurnAtMost(lp: nat, reserve: nat, supply: nat, x: nat)
    requires supply > 0 && lp * reserve <= x * supply
    ensures Share(lp, reserve, supply) <= x
  {
    FloorBounds(lp * reserve, supply);
    CancelLe(lp * reserve / supply, x, supply);
  }

  /** Two times the geometric mean, in integers. */
  lemma TwiceTheMean(p: nat, q: nat, g: nat)
    requires g * g <= p * q
    ensures 2 * g <= p + q
  {
    assert (p + q) * (p + q) == (p - q) * (p - q) + 4 * (p * q);
    assert (p - q) * (p - q) >= 0;
    assert (2 * g) * (2 * g) == 4 * (g * g);
    if p + q < 2 * g {
      Squares(p + q, 2 * g);
    }
  }

  lemma Squares(a: nat, b: nat)
    requires a < b
    ensures a * a < b * b
  {
    assert b * b == a * a + (b - a) * (b + a);
    assert (b - a) * (b + a) > 0;
  }

  /** The deposit's two sides, weighed at the new reserves, are worth at least twice the new product. */
  lemma DepositWorth(a: nat, b: nat, r0: nat, r1: nat)
    requires r0 * r1 <= a * b
    ensures 2 * (r0 * r1) <= a * r1 + b * r0
  {
    var g := r0 * r1;
    assert (a * r1) * (b * r0) == (a * b) * g by {
      assert (a * r1) * (b * r0) == a * (r1 * b) * r0;
      assert a * (r1 * b) * r0 == a * b * (r1 * r0);
    }
    ScaleLe(g, a * b, g);
    TwiceTheMean(a * r1, b * r0, g);
  }

  /** S times what a burn of m returns, valued at r1 : r0, is at most 2 m r0 r1. */
  lemma ReturnedAtMost(m: nat, r0: nat, r1: nat, supply: nat)
    requires supply > 0
    ensures supply * (Share(m, r0, supply) * r1 + Share(m, r1, supply) * r0) <= 2 * (m * (r0 * r1))
  {
    var out0, out1 := Share(m, r0, supply), Share(m, r1, supply);
    FloorBounds(m * r0, supply);
    FloorBounds(m * r1, supply);
    ScaleLe(out0 * supply, m * r0, r1);
    ScaleLe(out1 * supply, m * r1, r0);
    assert supply * (out0 * r1 + out1 * r0) == (out0 * supply) * r1 + (out1 * supply) * r0;
    assert m * r0 * r1 == m * (r0 * r1) && m * r1 * r0 == m * (r0 * r1);
  }

  /** S times what the deposit is worth at r1 : r0 is at least 2 m r0 r1. */
  lemma DepositedAtLeast(m: nat, x: nat, y: nat, a: nat, b: nat, r0: nat, r1: nat, supply: nat)
    requires m * a <= x * supply && m * b <= y * supply && NotRicher(a, b, r0, r1)
    ensures 2 * (m * (r0 * r1)) <= supply * (x * r1 + y * r0)
  {
    ScaleLe(m * a, x * supply, r1);
    ScaleLe(m * b, y * supply, r0);
    assert supply * (x * r1 + y * r0) == (x * supply) * r1 + (y * supply) * r0;
    ScaleLe(2 * (r0 * r1), a * r1 + b * r0, m);
    assert (a * r1 + b * r0) * m == (m * a) * r1 + (m * b) * r0;
    assert 2 * (r0 * r1) * m == 2 * (m * (r0 * r1));
  }

  /** The pool as it was, valued at the new pool price r1 : r0, is worth at least the pool as it is. */
  predicate NotRicher(a: nat, b: nat, r0: nat, r1: nat) {
    2 * (r0 * r1) <= a * r1 + b * r0
  }

  /** Deposit x and y at reserves (a, b), burn what was minted at reserves (r0, r1): no gain at the price r1 : r0. */
  predicate NoGain(x: nat, y: nat, a: nat, b: nat, r0: nat, r1: nat, supply: nat)
    requires a > 0 && b > 0 && supply > 0
  {
    var m := Minted(x, y, a, b, supply);
    Share(m, r0, supply) * r1 + Share(m, r1, supply) * r0 <= x * r1 + y * r0
  }

  lemma DepositLoses(x: nat, y: nat, a: nat, b: nat, r0: nat, r1: nat, supply: nat)
    requires a > 0 && b > 0 && supply > 0 && NotRicher(a, b, r0, r1)
    ensures NoGain(x, y, a, b, r0, r1, supply)
  {
    hide Minted, Share, NotRicher;
    var m := Minted(x, y, a, b, supply);
    MintCovered(x, y, a, b, supply);
    ReturnedAtMost(m, r0, r1, supply);
    DepositedAtLeast(m, x, y, a, b, r0, r1, supply);
    CancelLe(Share(m, r0, supply) * r1 + Share(m, r1, supply) * r0, x * r1 + y * r0, supply);
  }

  lemma WholeQuotient(n: nat, d: nat)
    requires d > 0
    ensures n * d / d == n
  {
    FloorBounds(n * d, d);
    BelowNext(n * d / d, n, d, n * d);
    BelowNext(n, n * d / d, d, n * d);
  }

  /** Depositing the pool over again mints its supply, and burning that returns the pool. */
  lemma DoublingReturnsThePool(a: nat, b: nat, r0: nat, r1: nat, supply: nat)
    requires a > 0 && b > 0 && supply > 0
    ensures Minted(a, b, a, b, supply) == supply
    ensures Share(supply, r0, supply) == r0 && Share(supply, r1, supply) == r1
  {
    WholeQuotient(supply, a);
    WholeQuotient(supply, b);
    WholeQuotient(r0, supply);
    WholeQuotient(r1, supply);
    assert a * supply == supply * a && b * supply == supply * b;
    assert supply * r0 == r0 * supply && supply * r1 == r1 * supply;
  }

  /**
   * Impermanent loss, exactly. After the reserves move from (a, b) to (r0, r1) at the same supply, no deposit
   * whatever gains, floors included, if and only if the old reserves are worth at least the new ones at the new
   * pool price.
   */
  lemma ImpermanentLossIff(a: nat, b: nat, r0: nat, r1: nat, supply: nat)
    requires a > 0 && b > 0 && supply > 0
    ensures (forall x: nat, y: nat :: NoGain(x, y, a, b, r0, r1, supply)) <==> NotRicher(a, b, r0, r1)
  {
    if NotRicher(a, b, r0, r1) {
      forall x: nat, y: nat ensures NoGain(x, y, a, b, r0, r1, supply) {
        DepositLoses(x, y, a, b, r0, r1, supply);
      }
    } else {
      DoublingReturnsThePool(a, b, r0, r1, supply);
      hide Minted, Share;
      assert r0 * r1 + r1 * r0 == 2 * (r0 * r1);
      assert !NoGain(a, b, a, b, r0, r1, supply);
    }
  }

  /** In particular when the product did not grow, as no swap without a fee makes it. */
  lemma ImpermanentLoss(x: nat, y: nat, a: nat, b: nat, r0: nat, r1: nat, supply: nat)
    requires a > 0 && b > 0 && supply > 0
    requires r0 * r1 <= a * b
    ensures NoGain(x, y, a, b, r0, r1, supply)
  {
    DepositWorth(a, b, r0, r1);
    DepositLoses(x, y, a, b, r0, r1, supply);
  }

  /** A product that grew can still lose every deposit, and can return a profit: it does not decide. */
  lemma GrownProductDoesNotDecide()
    ensures 300 * 40 > 100 * 100 && NotRicher(100, 100, 300, 40)
    ensures 110 * 110 > 100 * 100 && !NoGain(100, 100, 100, 100, 110, 110, 100)
  {
    assert Minted(100, 100, 100, 100, 100) == 100 && Share(100, 110, 100) == 110;
  }

  // ---------------------------------------------------------------------------
  // Removing half, again and again
  // ---------------------------------------------------------------------------

  /** How much one REMOVE_LIQUIDITY burns of a position. */
  function Removal(held: nat): nat {
    if held / 2 == 0 then held else held / 2
  }

  /** The amounts a run of removals burns until the position is closed. */
  function Removals(held: nat): seq<nat>
    decreases held
  {
    if held == 0 then [] else [Removal(held)] + Removals(held - Removal(held))
  }

  function Sum(s: seq<nat>): nat {
    if s == [] then 0 else s[0] + Sum(s[1..])
  }

  function Pow2(k: nat): nat {
    if k == 0 then 1 else 2 * Pow2(k - 1)
  }

  /** k is the base-two logarithm of n, rounded up. */
  predicate CeilLog2(k: nat, n: nat) {
    n <= Pow2(k) && (k > 0 ==> Pow2(k - 1) < n)
  }

  /** A position of n tokens closes after exactly ceil(log2 n) + 1 removals, which burn n tokens in all. */
  lemma {:induction false} RemovalsClose(n: nat, k: nat)
    requires n > 0 && CeilLog2(k, n)
    ensures |Removals(n)| == k + 1
    ensures Sum(Removals(n)) == n
    decreases n
  {
    var rest := n - Removal(n);
    assert Removals(n)[1..] == Removals(rest);
    if n > 1 {
      assert rest == (n + 1) / 2;
      assert CeilLog2(k - 1, rest);
      RemovalsClose(rest, k - 1);
    } else {
      assert Pow2(0) == 1;
      PowPositive(if k > 0 then k - 1 else 0);
    }
  }

  /** What is left of a position after so many removals. */
  function Left(n: nat, removals: nat): nat {
    if removals == 0 then n
    else
      var held := Left(n, removals - 1);
      held - Removal(held)
  }

  lemma {:induction false} LeftShift(n: nat, j: nat)
    ensures Left(n, j + 1) == Left(n - Removal(n), j)
  {
    if j > 0 {
      LeftShift(n, j - 1);
    } else {
      assert Left(n, 1) == Left(n, 0) - Removal(Left(n, 0));
    }
  }

  /** The position is gone from the last of those removals on, and not before. */
  lemma {:induction false} LeftIsZeroIff(n: nat, j: nat)
    ensures Left(n, j) == 0 <==> j >= |Removals(n)|
    decreases n
  {
    if n > 0 && j > 0 {
      LeftShift(n, j - 1);
      LeftIsZeroIff(n - Removal(n), j - 1);
      assert Removals(n)[1..] == Removals(n - Removal(n));
    } else if n == 0 {
      StaysClosed(j);
    }
  }

  lemma {:induction false} StaysClosed(j: nat)
    ensures Left(0, j) == 0
  {
    if j > 0 {
      StaysClosed(j - 1);
    }
  }

  lemma {:induction false} PowPositive(k: nat)
    ensures Pow2(k) >= 1
  {
    if k > 0 {
      PowPositive(k - 1);
    }
  }

  /** A removal is quoted only while the burn returns something of both assets; otherwise it is refused as dust. */
  predicate Quoted(lp: nat, r0: nat, r1: nat, supply: nat)
    requires supply > 0
  {
    Share(lp, r0, supply) > 0 && Share(lp, r1, supply) > 0
  }

  /** What is left of a position when removals go on until one is refused or nothing is held. */
  function Drained(held: nat, r0: nat, r1: nat, supply: nat): nat
    requires supply > 0
    decreases held
  {
    if held == 0 || !Quoted(Removal(held), r0, r1, supply) then held
    else Drained(held - Removal(held), r0, r1, supply)
  }

  lemma QuotedIff(lp: nat, r0: nat, r1: nat, supply: nat)
    requires supply > 0
    ensures Quoted(lp, r0, r1, supply) <==> supply <= lp * r0 && supply <= lp * r1
  {
    FloorBounds(lp * r0, supply);
    FloorBounds(lp * r1, supply);
  }

  lemma QuotedWhenRich(lp: nat, r0: nat, r1: nat, supply: nat)
    requires supply > 0 && lp > 0 && r0 >= supply && r1 >= supply
    ensures Quoted(lp, r0, r1, supply)
  {
    QuotedIff(lp, r0, r1, supply);
    assert lp * r0 >= 1 * r0 && lp * r1 >= 1 * r1 by {
      ScaleLe(1, lp, r0);
      ScaleLe(1, lp, r1);
    }
  }

  /**
   * Halving closes a position exactly when one base unit of the LP token is still worth a unit of each asset.
   * In every other pool the run ends in a refused, still open position.
   */
  lemma {:induction false} HalvingClosesIff(held: nat, r0: nat, r1: nat, supply: nat)
    requires supply > 0 && held > 0
    ensures Drained(held, r0, r1, supply) == 0 <==> r0 >= supply && r1 >= supply
    ensures r0 < supply || r1 < supply ==>
      var left := Drained(held, r0, r1, supply);
      left > 0 && !Quoted(Removal(left), r0, r1, supply)
    decreases held
  {
    var burn := Removal(held);
    if Quoted(burn, r0, r1, supply) {
      if held - burn == 0 {
        assert burn == 1 by {
          assert held / 2 == 0;
        }
        QuotedIff(1, r0, r1, supply);
      } else {
        HalvingClosesIff(held - burn, r0, r1, supply);
      }
    } else if r0 >= supply && r1 >= supply {
      QuotedWhenRich(burn, r0, r1, supply);
    }
  }
}
