/** USD valuation of a pool, a position and the LP token, in micro-USD, with the price strings in between. */
module Valuation {
  import opened Common
  import opened PairMath

  const USD_SCALE: nat := 1_000_000
  const PRICE_SCALE: nat := 1_000_000_000_000_000_000

  function Pow10(k: nat): (p: nat)
    ensures p > 0
  {
    if k == 0 then 1 else 10 * Pow10(k - 1)
  }

  datatype Rounding = Ceil | Floor

  /** Base units per micro-USD at a price of one atto-USD. */
  function Scale(decimals: nat): (s: nat)
    ensures s > 0
  {
    Pow10(decimals) * (PRICE_SCALE / USD_SCALE)
  }

  function Divide(n: nat, d: nat, rounding: Rounding): nat
    requires d > 0
  {
    if rounding.Ceil? && n > 0 then (n + d - 1) / d else n / d
  }

  function ToMicros(amount: nat, decimals: nat, price: nat, rounding: Rounding): nat {
    Divide(amount * price, Scale(decimals), rounding)
  }

  /** Refuses unsupported decimals and a price of zero. */
  function NativeToUsdMicros(amount: nat, decimals: nat, price: nat, rounding: Rounding): Result<nat> {
    if decimals > 36 || price == 0 then Err(Invalid) else Ok(ToMicros(amount, decimals, price, rounding))
  }

  datatype Pool = Pool(reserve0: nat, reserve1: nat, supply: nat, decimals0: nat, decimals1: nat, lpDecimals: nat)

  function Both(amount0: nat, amount1: nat, p: Pool, price0: nat, price1: nat, rounding: Rounding): Result<nat> {
    match (NativeToUsdMicros(amount0, p.decimals0, price0, rounding), NativeToUsdMicros(amount1, p.decimals1, price1, rounding))
    case (Ok(a), Ok(b)) => Ok(a + b)
    case _ => Err(Invalid)
  }

  function PoolTvlMicros(p: Pool, price0: nat, price1: nat): Result<nat> {
    Both(p.reserve0, p.reserve1, p, price0, price1, Floor)
  }

  function PositionValueMicros(p: Pool, lp: nat, price0: nat, price1: nat): Result<nat> {
    if p.supply == 0 || lp == 0 then Ok(0)
    else Both(Share(lp, p.reserve0, p.supply), Share(lp, p.reserve1, p.supply), p, price0, price1, Floor)
  }

  /** USD per whole LP token, in atto-USD. */
  function LpTokenPriceAtto(p: Pool, tvl: nat): (r: nat)
    ensures p.supply == 0 ==> r == 0
  {
    if p.supply == 0 then 0 else tvl * (PRICE_SCALE / USD_SCALE) * Pow10(p.lpDecimals) / p.supply
  }

  // ---------------------------------------------------------------------------
  // Rounding
  // ---------------------------------------------------------------------------

  lemma CeilAtLeast(n: nat, d: nat)
    requires d > 0
    ensures n <= Divide(n, d, Ceil) * d < n + d
  {
    if n > 0 {
      FloorBounds(n + d - 1, d);
    }
  }

  /** A micro-USD value is the exact one rounded to the side asked for, by less than a micro-USD. */
  lemma MicrosBounds(amount: nat, decimals: nat, price: nat)
    ensures var k := Scale(decimals);
      && amount * price <= ToMicros(amount, decimals, price, Ceil) * k < amount * price + k
      && ToMicros(amount, decimals, price, Floor) * k <= amount * price < ToMicros(amount, decimals, price, Floor) * k + k
  {
    hide Scale;
    CeilAtLeast(amount * price, Scale(decimals));
    FloorBounds(amount * price, Scale(decimals));
  }

  lemma ScaleIs(decimals: nat)
    ensures Scale(decimals) == Pow10(decimals) * 1_000_000_000_000
  {
  }

  /** k0 * k1 times what both amounts are worth. */
  function Worth(x: nat, y: nat, price0: nat, price1: nat, k0: nat, k1: nat): nat {
    x * price0 * k1 + y * price1 * k0
  }

  lemma SideBound(v: nat, n: nat, k: nat, j: nat)
    requires v * k <= n < v * k + k && j > 0
    ensures v * (k * j) <= n * j < (v + 1) * (k * j)
  {
    ScaleLe(v * k, n, j);
    ScaleLe(n + 1, v * k + k, j);
    Distributes(n, 1, j);
    Distributes(v, 1, k * j);
    Distributes(v * k, k, j);
    assert v * k * j == v * (k * j);
  }

  /** The pool's TVL is what its reserves are worth, short by less than two micro-USD. */
  lemma TvlWithinRounding(p: Pool, price0: nat, price1: nat)
    ensures var k0, k1 := Pow10(p.decimals0) * 1_000_000_000_000, Pow10(p.decimals1) * 1_000_000_000_000;
      var worth := Worth(p.reserve0, p.reserve1, price0, price1, k0, k1);
      match PoolTvlMicros(p, price0, price1)
      case Ok(tvl) => Valued(p, price0, price1) && tvl * (k0 * k1) <= worth < (tvl + 2) * (k0 * k1)
      case Err(_) => !Valued(p, price0, price1)
  {
    hide ToMicros, Pow10, Scale;
    ScaleIs(p.decimals0);
    ScaleIs(p.decimals1);
    var k0, k1 := Scale(p.decimals0), Scale(p.decimals1);
    var v0, v1 := ToMicros(p.reserve0, p.decimals0, price0, Floor), ToMicros(p.reserve1, p.decimals1, price1, Floor);
    MicrosBounds(p.reserve0, p.decimals0, price0);
    MicrosBounds(p.reserve1, p.decimals1, price1);
    SideBound(v0, p.reserve0 * price0, k0, k1);
    SideBound(v1, p.reserve1 * price1, k1, k0);
    assert k1 * k0 == k0 * k1;
    SumOfSides(v0, v1, k0 * k1);
  }

  lemma SumOfSides(v0: nat, v1: nat, k: nat)
    ensures (v0 + v1) * k == v0 * k + v1 * k && (v0 + v1 + 2) * k == (v0 + 1) * k + (v1 + 1) * k
  {
    Distributes(v0, v1, k);
    Distributes(v0 + 1, v1 + 1, k);
  }

  // ---------------------------------------------------------------------------
  // Positions
  // ---------------------------------------------------------------------------

  lemma MicrosMonotone(a: nat, b: nat, decimals: nat, price: nat)
    requires a <= b
    ensures ToMicros(a, decimals, price, Floor) <= ToMicros(b, decimals, price, Floor)
  {
    ScaleLe(a, b, price);
    FloorMonotone(a * price, b * price, Scale(decimals));
  }

  lemma MicrosSuperadditive(a: nat, b: nat, decimals: nat, price: nat)
    ensures ToMicros(a, decimals, price, Floor) + ToMicros(b, decimals, price, Floor)
         <= ToMicros(a + b, decimals, price, Floor)
  {
    Distributes(a, b, price);
    FloorSuperadditive(a * price, b * price, Scale(decimals));
  }

  lemma ShareMonotone(a: nat, b: nat, reserve: nat, supply: nat)
    requires supply > 0 && a <= b
    ensures Share(a, reserve, supply) <= Share(b, reserve, supply)
  {
    ScaleLe(a, b, reserve);
    FloorMonotone(a * reserve, b * reserve, supply);
  }

  lemma ShareSuperadditive(a: nat, b: nat, reserve: nat, supply: nat)
    requires supply > 0
    ensures Share(a, reserve, supply) + Share(b, reserve, supply) <= Share(a + b, reserve, supply)
  {
    Distributes(a, b, reserve);
    FloorSuperadditive(a * reserve, b * reserve, supply);
  }

  predicate Valued(p: Pool, price0: nat, price1: nat) {
    p.decimals0 <= 36 && p.decimals1 <= 36 && price0 > 0 && price1 > 0
  }

  /** A larger position is never worth less. */
  lemma PositionMonotone(p: Pool, a: nat, b: nat, price0: nat, price1: nat)
    requires Valued(p, price0, price1) && a <= b
    ensures PositionValueMicros(p, a, price0, price1).value <= PositionValueMicros(p, b, price0, price1).value
  {
    if p.supply > 0 && a > 0 {
      ShareMonotone(a, b, p.reserve0, p.supply);
      ShareMonotone(a, b, p.reserve1, p.supply);
      MicrosMonotone(Share(a, p.reserve0, p.supply), Share(b, p.reserve0, p.supply), p.decimals0, price0);
      MicrosMonotone(Share(a, p.reserve1, p.supply), Share(b, p.reserve1, p.supply), p.decimals1, price1);
    }
  }

  lemma PositionSide(v: nat, share: nat, n: nat, price: nat, supply: nat, k: nat, j: nat)
    requires v * k <= share * price < v * k + k && share * supply <= n < share * supply + supply
    requires price > 0 && supply > 0 && j > 0
    ensures v * (k * (supply * j)) <= n * (price * j) < (v + 1) * (k * (supply * j)) + supply * (price * j)
  {
    SideBound(v, share * price, k, supply * j);
    SideBound(share, n, supply, price * j);
    Distributes(share, 1, supply * (price * j));
    assert share * price * (supply * j) == share * (supply * (price * j));
  }

  /**
   * A position is worth what its part of both reserves is, short by less than two micro-USD and one base unit of
   * each asset; a position in an empty pool, or of nothing, is worth nothing.
   */
  lemma PositionWithinRounding(p: Pool, lp: nat, price0: nat, price1: nat)
    ensures var k0, k1 := Pow10(p.decimals0) * 1_000_000_000_000, Pow10(p.decimals1) * 1_000_000_000_000;
      match PositionValueMicros(p, lp, price0, price1)
      case Ok(v) =>
        if p.supply == 0 || lp == 0 then v == 0
        else
          var worth := lp * p.reserve0 * (price0 * k1) + lp * p.reserve1 * (price1 * k0);
          var unit := p.supply * (price0 * k1) + p.supply * (price1 * k0);
          v * (k0 * (p.supply * k1)) <= worth < (v + 2) * (k0 * (p.supply * k1)) + unit
      case Err(_) => p.supply > 0 && lp > 0 && !Valued(p, price0, price1)
  {
    hide ToMicros, Pow10, Scale, Share;
    ScaleIs(p.decimals0);
    ScaleIs(p.decimals1);
    if p.supply > 0 && lp > 0 && Valued(p, price0, price1) {
      var k0, k1 := Scale(p.decimals0), Scale(p.decimals1);
      var s0, s1 := Share(lp, p.reserve0, p.supply), Share(lp, p.reserve1, p.supply);
      var v0, v1 := ToMicros(s0, p.decimals0, price0, Floor), ToMicros(s1, p.decimals1, price1, Floor);
      MicrosBounds(s0, p.decimals0, price0);
      MicrosBounds(s1, p.decimals1, price1);
      ShareBounds(lp, p.reserve0, p.supply);
      ShareBounds(lp, p.reserve1, p.supply);
      PositionSide(v0, s0, lp * p.reserve0, price0, p.supply, k0, k1);
      PositionSide(v1, s1, lp * p.reserve1, price1, p.supply, k1, k0);
      Rearranged(k0, k1, p.supply);
      SumOfSides(v0, v1, k0 * (p.supply * k1));
    }
  }

  lemma Rearranged(a: nat, b: nat, c: nat)
    ensures b * (c * a) == a * (c * b)
  {
  }

  lemma ShareBounds(lp: nat, reserve: nat, supply: nat)
    requires supply > 0
    ensures Share(lp, reserve, supply) * supply <= lp * reserve < Share(lp, reserve, supply) * supply + supply
  {
    FloorBounds(lp * reserve, supply);
  }

  /** Splitting a position in two never raises what it is worth: both layers of floors work against the split. */
  lemma SplittingNeverGains(p: Pool, a: nat, b: nat, price0: nat, price1: nat)
    requires Valued(p, price0, price1)
    ensures PositionValueMicros(p, a, price0, price1).value + PositionValueMicros(p, b, price0, price1).value
         <= PositionValueMicros(p, a + b, price0, price1).value
  {
    if p.supply > 0 && a > 0 && b > 0 {
      SplitSide(a, b, p.reserve0, p.supply, p.decimals0, price0);
      SplitSide(a, b, p.reserve1, p.supply, p.decimals1, price1);
    }
  }

  lemma SplitSide(a: nat, b: nat, reserve: nat, supply: nat, decimals: nat, price: nat)
    requires supply > 0
    ensures ToMicros(Share(a, reserve, supply), decimals, price, Floor)
            + ToMicros(Share(b, reserve, supply), decimals, price, Floor)
         <= ToMicros(Share(a + b, reserve, supply), decimals, price, Floor)
  {
    var u, v := Share(a, reserve, supply), Share(b, reserve, supply);
    ShareSuperadditive(a, b, reserve, supply);
    MicrosSuperadditive(u, v, decimals, price);
    MicrosMonotone(u + v, Share(a + b, reserve, supply), decimals, price);
  }

  /** A position within the supply is never worth more than the pool. */
  lemma PositionWithinTvl(p: Pool, lp: nat, price0: nat, price1: nat)
    requires Valued(p, price0, price1) && lp <= p.supply
    ensures PositionValueMicros(p, lp, price0, price1).value <= PoolTvlMicros(p, price0, price1).value
  {
    if p.supply > 0 && lp > 0 {
      ShareWithin(lp, p.reserve0, p.supply);
      ShareWithin(lp, p.reserve1, p.supply);
      MicrosMonotone(Share(lp, p.reserve0, p.supply), p.reserve0, p.decimals0, price0);
      MicrosMonotone(Share(lp, p.reserve1, p.supply), p.reserve1, p.decimals1, price1);
    }
  }

  lemma ShareWithin(lp: nat, reserve: nat, supply: nat)
    requires supply > 0 && lp <= supply
    ensures Share(lp, reserve, supply) <= reserve
  {
    ScaleLe(lp, supply, reserve);
    assert supply * reserve == reserve * supply;
    BurnAtMost(lp, reserve, supply, reserve);
  }

  /**
   * The whole supply at the derived LP-token price is worth at most the TVL the price came from, and falls short
   * of it by no more than the supply's own rounding: less than supply / scale + 1 micro-USD.
   */
  lemma SupplyWorth(p: Pool, tvl: nat)
    requires p.supply > 0
    ensures var worth := ToMicros(p.supply, p.lpDecimals, LpTokenPriceAtto(p, tvl), Floor);
      worth <= tvl && tvl * Scale(p.lpDecimals) < worth * Scale(p.lpDecimals) + Scale(p.lpDecimals) + p.supply
  {
    var d := Scale(p.lpDecimals);
    var price := LpTokenPriceAtto(p, tvl);
    var worth := ToMicros(p.supply, p.lpDecimals, price, Floor);
    assert tvl * (PRICE_SCALE / USD_SCALE) * Pow10(p.lpDecimals) == tvl * d;
    WorthBounds(p.supply, tvl, d, price, worth);
  }

  lemma WorthBounds(supply: nat, tvl: nat, d: nat, price: nat, worth: nat)
    requires supply > 0 && d > 0 && price == tvl * d / supply && worth == supply * price / d
    ensures worth <= tvl && tvl * d < worth * d + d + supply
  {
    FloorBounds(tvl * d, supply);
    FloorBounds(supply * price, d);
    assert supply * price == price * supply;
    BelowNext(worth, tvl, d, worth * d);
  }

  // ---------------------------------------------------------------------------
  // Deviation from the market
  // ---------------------------------------------------------------------------

  function DeviationBps(v0: nat, v1: nat): nat {
    var low, high := if v0 < v1 then v0 else v1, if v0 < v1 then v1 else v0;
    if low == 0 then 10_000 else ((high - low) * 10_000 + low - 1) / low
  }

  function ReserveValueDeviationBps(p: Pool, price0: nat, price1: nat): Result<nat> {
    match (NativeToUsdMicros(p.reserve0, p.decimals0, price0, Floor), NativeToUsdMicros(p.reserve1, p.decimals1, price1, Floor))
    case (Ok(v0), Ok(v1)) => Ok(DeviationBps(v0, v1))
    case _ => Err(Invalid)
  }

  function ReserveValue(reserve: nat, decimals: nat, price: nat): nat {
    ToMicros(reserve, decimals, price, Floor)
  }

  /**
   * An add is let through by the pool's deviation exactly when both sides can be valued and, with the poorer one
   * worth a micro-USD or more, (high - low) * 10000 <= L * low. Below that the deviation is a flat 10000, which
   * only a limit of 100% or more lets through.
   */
  lemma DeviationPassesIff(p: Pool, price0: nat, price1: nat, limit: nat)
    ensures var r := ReserveValueDeviationBps(p, price0, price1);
      var v0, v1 := ReserveValue(p.reserve0, p.decimals0, price0), ReserveValue(p.reserve1, p.decimals1, price1);
      var low, high := if v0 < v1 then v0 else v1, if v0 < v1 then v1 else v0;
      r.Ok? && r.value <= limit <==>
        Valued(p, price0, price1) && if low == 0 then limit >= 10_000 else (high - low) * 10_000 <= limit * low
  {
    hide DeviationBps, ToMicros;
    ValuesDeviateIff(ReserveValue(p.reserve0, p.decimals0, price0), ReserveValue(p.reserve1, p.decimals1, price1), limit);
  }

  lemma ValuesDeviateIff(v0: nat, v1: nat, limit: nat)
    ensures var low, high := if v0 < v1 then v0 else v1, if v0 < v1 then v1 else v0;
      DeviationBps(v0, v1) <= limit <==>
        if low == 0 then limit >= 10_000 else (high - low) * 10_000 <= limit * low
  {
    var low, high := if v0 < v1 then v0 else v1, if v0 < v1 then v1 else v0;
    if low > 0 {
      CeilAtMost((high - low) * 10_000, low, limit);
    }
  }

  lemma CeilAtMost(n: nat, d: nat, limit: nat)
    requires d > 0
    ensures (n + d - 1) / d <= limit <==> n <= limit * d
  {
    var c := (n + d - 1) / d;
    FloorBounds(n + d - 1, d);
    if c <= limit {
      ScaleLe(c, limit, d);
    }
    if n <= limit * d {
      BelowNext(c, limit, d, c * d);
    }
  }

  // ---------------------------------------------------------------------------
  // Price strings
  // ---------------------------------------------------------------------------

  predicate IsDigit(c: char) {
    '0' <= c <= '9'
  }

  function Digit(d: nat): char
    requires d < 10
  {
    '0' + d as char
  }

  function DigitValue(c: char): nat
    requires IsDigit(c)
  {
    (c - '0') as nat
  }

  predicate AllDigits(s: string) {
    forall i :: 0 <= i < |s| ==> IsDigit(s[i])
  }

  function Parse(s: string): nat
    requires AllDigits(s)
  {
    if s == [] then 0 else 10 * Parse(s[..|s| - 1]) + DigitValue(s[|s| - 1])
  }

  /** Decimal rendering without leading zeros. */
  function Print(n: nat): (s: string)
    ensures s != [] && AllDigits(s)
  {
    if n < 10 then [Digit(n)] else Print(n / 10) + [Digit(n % 10)]
  }

  function Zeros(k: nat): (s: string)
    ensures |s| == k && AllDigits(s)
  {
    seq(k, _ => '0')
  }

  function PadStart(s: string, width: nat): string {
    if |s| >= width then s else Zeros(width - |s|) + s
  }

  function PadEnd(s: string, width: nat): string {
    if |s| >= width then s else s + Zeros(width - |s|)
  }

  /** An integer part is "0" or does not start with a zero. */
  predicate IsInteger(s: string) {
    s == "0" || (s != [] && s[0] != '0' && AllDigits(s))
  }

  function FindDot(s: string, i: nat): (k: nat)
    requires i <= |s|
    ensures i <= k <= |s| && (k < |s| ==> s[k] == '.')
    ensures forall j :: i <= j < k ==> s[j] != '.'
    decreases |s| - i
  {
    if i == |s| || s[i] == '.' then i else FindDot(s, i + 1)
  }

  /** Digits, optionally followed by a dot and one to eighteen digits. */
  function PriceToAtto(s: string): Result<nat> {
    var k := FindDot(s, 0);
    var integer, fraction := s[..k], if k < |s| then s[k + 1..] else [];
    if !IsInteger(integer) || !AllDigits(fraction) || (k < |s| && !(1 <= |fraction| <= 18)) then Err(Invalid)
    else Ok(Parse(integer) * PRICE_SCALE + Parse(PadEnd(fraction, 18)))
  }

  function AttoToPrice(atto: nat): string {
    Print(atto / PRICE_SCALE) + "." + PadStart(Print(atto % PRICE_SCALE), 18)
  }

  lemma {:induction false} ParsePrint(n: nat)
    ensures Parse(Print(n)) == n
    ensures IsInteger(Print(n))
    decreases n
  {
    if n >= 10 {
      ParsePrint(n / 10);
      assert Print(n)[..|Print(n)| - 1] == Print(n / 10);
    }
  }

  lemma {:induction false} PrintLength(n: nat, k: nat)
    requires k > 0 && n < Pow10(k)
    ensures |Print(n)| <= k
    decreases k
  {
    if n >= 10 {
      assert Pow10(0) == 1;
      PrintLength(n / 10, k - 1);
    }
  }

  lemma {:induction false} ParseZeros(k: nat)
    ensures Parse(Zeros(k)) == 0
  {
    if k > 0 {
      assert Zeros(k)[..k - 1] == Zeros(k - 1);
      ParseZeros(k - 1);
    }
  }

  lemma {:induction false} LeadingZeros(k: nat, s: string)
    requires AllDigits(s)
    ensures Parse(Zeros(k) + s) == Parse(s)
    decreases |s|
  {
    if s == [] {
      assert Zeros(k) + s == Zeros(k);
      ParseZeros(k);
    } else {
      assert (Zeros(k) + s)[..k + |s| - 1] == Zeros(k) + s[..|s| - 1];
      LeadingZeros(k, s[..|s| - 1]);
    }
  }

  lemma DotAt(a: string, b: string, k: nat)
    requires AllDigits(a) && k == FindDot(a + "." + b, 0)
    ensures k == |a|
  {
    var s := a + "." + b;
    assert s[|a|] == '.';
    assert forall i :: 0 <= i < |a| ==> s[i] == a[i] && IsDigit(a[i]);
  }

  lemma Pow10Of18()
    ensures Pow10(18) == PRICE_SCALE
  {
    assert Pow10(6) == 1_000_000;
    assert Pow10(12) == 1_000_000_000_000;
  }

  lemma Padded(rest: nat)
    requires rest < PRICE_SCALE
    ensures var b := PadStart(Print(rest), 18); |b| == 18 && AllDigits(b) && Parse(b) == rest
  {
    Pow10Of18();
    PrintLength(rest, 18);
    ParsePrint(rest);
    LeadingZeros(18 - |Print(rest)|, Print(rest));
  }

  lemma {:induction false} ParsePadded(s: string, k: nat)
    requires AllDigits(s)
    ensures AllDigits(s + Zeros(k)) && Parse(s + Zeros(k)) == Parse(s) * Pow10(k)
  {
    if k == 0 {
      assert s + Zeros(0) == s;
    } else {
      var t := s + Zeros(k);
      assert t[..|t| - 1] == s + Zeros(k - 1) && t[|t| - 1] == '0';
      ParsePadded(s, k - 1);
      assert Parse(s) * Pow10(k) == 10 * (Parse(s) * Pow10(k - 1));
    }
  }

  /** The whole part ends at k: zero or no leading zero, and then nothing, or a dot and one to eighteen digits. */
  predicate PriceForm(s: string, k: nat) {
    && k <= |s|
    && (s[..k] == "0" || (k > 0 && s[0] != '0' && AllDigits(s[..k])))
    && (k == |s| || (s[k] == '.' && 1 <= |s| - k - 1 <= 18 && AllDigits(s[k + 1..])))
  }

  /** A price in that form is its whole part and its digits after the dot, in atto-USD. */
  lemma PriceIsItsDigits(s: string, k: nat)
    requires PriceForm(s, k)
    ensures AllDigits(s[..k])
    ensures PriceToAtto(s) == Ok(Parse(s[..k]) * 1_000_000_000_000_000_000
                                 + if k == |s| then 0 else Parse(s[k + 1..]) * Pow10(18 - (|s| - k - 1)))
  {
    hide Parse;
    forall i | 0 <= i < k ensures s[i] != '.' {
      assert s[..k][i] == s[i];
    }
    assert FindDot(s, 0) == k;
    if k == |s| {
      assert PadEnd([], 18) == Zeros(18);
      ParseZeros(18);
    } else {
      ParsePadded(s[k + 1..], 18 - (|s| - k - 1));
      if |s| - k - 1 == 18 {
        assert s[k + 1..] + Zeros(0) == s[k + 1..];
      }
    }
  }

  /** A price string is accepted exactly in that form. */
  lemma PriceFormIff(s: string)
    ensures PriceToAtto(s).Ok? <==> exists k: nat :: PriceForm(s, k)
  {
    hide Parse;
    if k: nat :| PriceForm(s, k) {
      PriceIsItsDigits(s, k);
    }
    if PriceToAtto(s).Ok? {
      assert PriceForm(s, FindDot(s, 0));
    }
  }

  lemma ParseParts(a: string, b: string)
    requires IsInteger(a) && AllDigits(b) && |b| == 18
    ensures AllDigits(a) && PriceToAtto(a + "." + b) == Ok(Parse(a) * PRICE_SCALE + Parse(b))
  {
    hide Parse;
    var s := a + "." + b;
    var k := FindDot(s, 0);
    DotAt(a, b, k);
    assert s[..k] == a && s[k + 1..] == b;
  }

  /** The rendered price parses back to the same atto value. */
  lemma PriceRoundTrip(atto: nat)
    ensures PriceToAtto(AttoToPrice(atto)) == Ok(atto)
  {
    hide Print, Parse, PadStart, PriceToAtto;
    var whole, rest := atto / PRICE_SCALE, atto % PRICE_SCALE;
    ParsePrint(whole);
    Padded(rest);
    ParseParts(Print(whole), PadStart(Print(rest), 18));
  }
}
