/** The deterministic post-processing of the maker/taker estimate
    (src/ai/flows/maker-taker-prediction.ts): whatever the estimator returns
    is forced, defaulted or renormalised into a pair summing to one. */
module MakerTaker {
  import opened Base
  import opened MarketTypes

  /** How far from one a maker + taker sum may be before it is renormalised. */
  const TOLERANCE: real := 0.001

  /** The full-taker pair used for market orders and as every default. */
  const FullTaker: Proportions := Proportions(0.0, 1.0)

  function Sum(p: Proportions): real {
    p.maker + p.taker
  }

  /** `String.prototype.toLowerCase` on one character, for the characters whose
      lower case can be an ASCII letter: `A`..`Z`, and the Kelvin sign, which
      lowers to `k`. Every other character is returned as is. */
  function LowerChar(c: char): (l: char)
    ensures 'A' <= c <= 'Z' ==> l as int == c as int + 32
    ensures 'a' <= l <= 'z' ==> ('a' <= c <= 'z') || ('A' <= c <= 'Z') || c == '\U{212A}'
  {
    if 'A' <= c <= 'Z' then (c as int + 32) as char
    else if c == '\U{212A}' then 'k'
    else c
  }

  function ToLower(s: string): (r: string)
    ensures |r| == |s|
    ensures forall i :: 0 <= i < |s| ==> r[i] == LowerChar(s[i])
  {
    if s == [] then [] else [LowerChar(s[0])] + ToLower(s[1..])
  }

  /** `orderType.toLowerCase() === 'market'`. */
  predicate IsMarket(orderType: string) {
    ToLower(orderType) == "market"
  }

  /** The post-processing branch of the flow. `estimate` is the estimator's
      output, `None` when it produced none. */
  function Normalize(orderType: string, estimate: Option<Proportions>): (r: Proportions)
    // No output, or a market order: full taker, whatever the estimator said.
    ensures estimate.None? ==> r == FullTaker
    ensures IsMarket(orderType) ==> r == FullTaker
    // A non-market pair summing to zero defaults to full taker.
    ensures estimate.Some? && !IsMarket(orderType) && Sum(estimate.value) == 0.0 ==> r == FullTaker
    // A non-market pair off by more than the tolerance is scaled by the same
    // factor so that it sums to exactly one.
    ensures (estimate.Some? && !IsMarket(orderType) && Sum(estimate.value) != 0.0
             && Abs(Sum(estimate.value) - 1.0) > TOLERANCE) ==>
      && r.maker * Sum(estimate.value) == estimate.value.maker
      && r.taker * Sum(estimate.value) == estimate.value.taker
      && Sum(r) == 1.0
    // A non-market pair already within the tolerance is returned unchanged.
    ensures (estimate.Some? && !IsMarket(orderType) && Sum(estimate.value) != 0.0
             && Abs(Sum(estimate.value) - 1.0) <= TOLERANCE) ==> r == estimate.value
    // Every path yields a pair within the tolerance of one.
    ensures Abs(Sum(r) - 1.0) <= TOLERANCE
  {
    match estimate
    case None => FullTaker
    case Some(p) =>
      if IsMarket(orderType) then FullTaker
      else
        var sum := Sum(p);
        if sum == 0.0 then FullTaker
        else if Abs(sum - 1.0) > TOLERANCE then
          ScaleBySum(p.maker, p.taker);
          Proportions(p.maker / sum, p.taker / sum)
        else p
  }

  /** Dividing both parts of a non-zero sum by that sum gives parts that sum to one. */
  lemma ScaleBySum(m: real, t: real)
    requires m + t != 0.0
    ensures (m / (m + t)) * (m + t) == m && (t / (m + t)) * (m + t) == t
    ensures m / (m + t) + t / (m + t) == 1.0
  {
    var s := m + t;
    assert m / s + t / s == (m + t) / s;
  }

  predicate InUnitInterval(p: Proportions) {
    0.0 <= p.maker <= 1.0 && 0.0 <= p.taker <= 1.0
  }

  /** When the estimator respects its output schema (both proportions in
      [0, 1]), so does the normalised pair. */
  lemma NormalizeStaysInUnitInterval(orderType: string, estimate: Option<Proportions>)
    requires estimate.Some? ==> InUnitInterval(estimate.value)
    ensures InUnitInterval(Normalize(orderType, estimate))
  {
    if estimate.Some? && !IsMarket(orderType) {
      var p := estimate.value;
      var sum := Sum(p);
      if sum != 0.0 && Abs(sum - 1.0) > TOLERANCE {
        var r := Normalize(orderType, estimate);
        assert r.maker * sum == p.maker && r.taker * sum == p.taker;
        assert sum > 0.0;
      }
    }
  }

  /** Normalising an already normalised pair changes nothing. */
  lemma NormalizeIdempotent(orderType: string, estimate: Option<Proportions>)
    ensures Normalize(orderType, Some(Normalize(orderType, estimate))) == Normalize(orderType, estimate)
  {
    var r := Normalize(orderType, estimate);
    if !IsMarket(orderType) {
      assert Abs(Sum(r) - 1.0) <= TOLERANCE;
      assert Sum(r) != 0.0;
    }
  }

  /** The spellings of a market order that select the full-taker override. */
  lemma MarketSpellings()
    ensures IsMarket("market") && IsMarket("MARKET") && IsMarket("Market")
    ensures IsMarket("MAR\U{212A}ET")
    ensures !IsMarket("limit") && !IsMarket(" market") && !IsMarket("")
  {
    assert ToLower("MARKET") == "market";
    assert ToLower("Market") == "market";
    assert ToLower("MAR\U{212A}ET") == "market";
    assert ToLower("limit")[0] == 'l';
    assert ToLower(" market")[0] == ' ';
  }
}
