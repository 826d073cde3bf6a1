/** Judging a listing's price against the market benchmark
    (`evaluatePrice`, bot/utils/index.js:240-292). */
module PriceVerdict {
  import opened Text
  import L = Lexicon
  import opened Payload

  /** The label `evaluatePrice` attaches. */
  datatype DealTag = NoTag | Suspicious | FarBelow | HotDeal(percent: int) | Fair
  {
    function Label(): string
    {
      match this
      case NoTag => ""
      case Suspicious => L.SuspiciousPriceTag
      case FarBelow => L.FarBelowTag
      case HotDeal(p) => L.HotDealPrefix + IntString(p) + L.HotDealSuffix
      case Fair => L.FairPriceTag
    }
  }

  datatype Verdict = Verdict(isGoodDeal: bool, tag: DealTag, exactPrice: int, isFakePrice: bool)

  /** Prices above zero but under this many tomans are deposits or fakes. */
  const FakePriceCeiling: int := 50_000_000

  /** `Math.round(drop)` for `drop = (avg - price) / avg * 100`, in exact
      integer arithmetic: floor((200·(avg − price) + avg) / (2·avg)). */
  function RoundedDrop(price: int, avg: nat): int
    requires avg > 0
  {
    (200 * (avg - price) + avg) / (2 * avg)
  }

  /** The verdict for a listed price against a benchmark average (0 = no
      benchmark). Drop thresholds are compared exactly:
      drop ≥ t  ⇔  100·(avg − price) ≥ t·avg. */
  function Assess(price: int, avg: nat): (v: Verdict)
    ensures v.exactPrice == price
    ensures v.isFakePrice <==> 0 < price < FakePriceCeiling
    ensures v.isFakePrice ==> !v.isGoodDeal && v.tag == Suspicious
    ensures !v.isFakePrice && (price == 0 || avg == 0) ==> !v.isGoodDeal && v.tag == NoTag
    ensures v.isGoodDeal <==> v.tag.HotDeal? || v.tag == Fair
  {
    if 0 < price < FakePriceCeiling then Verdict(false, Suspicious, price, true)
    else if price == 0 || avg == 0 then Verdict(false, NoTag, price, false)
    else if 100 * (avg - price) >= 40 * avg then Verdict(false, FarBelow, price, false)
    else if 100 * (avg - price) >= 10 * avg then Verdict(true, HotDeal(RoundedDrop(price, avg)), price, false)
    else if 100 * (avg - price) >= 5 * avg then Verdict(true, Fair, price, false)
    else Verdict(false, NoTag, price, false)
  }

  /** `evaluatePrice(divarJson, avg)`: judges `webengage.price` (0 when absent). */
  function EvaluatePrice(d: AdDetail, avg: nat): Verdict
  {
    Assess(ListedPrice(d), avg)
  }

  // ---------------------------------------------------------------------------
  // The same judgement in real arithmetic, as the source computes it
  // ---------------------------------------------------------------------------

  /** `(avg - price) / avg * 100`. */
  function DropPercent(price: int, avg: nat): real
    requires avg > 0
  {
    ((avg - price) as real / avg as real) * 100.0
  }

  /** JavaScript's `Math.round`: halves round up. */
  function MathRound(x: real): int
  {
    (x + 0.5).Floor
  }

  /** The branches of `evaluatePrice` written over the real drop percentage. */
  function ReferenceAssess(price: int, avg: nat): Verdict
  {
    if price > 0 && price < FakePriceCeiling then Verdict(false, Suspicious, price, true)
    else if price == 0 || avg == 0 then Verdict(false, NoTag, price, false)
    else
      var drop := DropPercent(price, avg);
      if drop >= 40.0 then Verdict(false, FarBelow, price, false)
      else if drop >= 10.0 && drop < 40.0 then Verdict(true, HotDeal(MathRound(drop)), price, false)
      else if drop >= 5.0 && drop < 10.0 then Verdict(true, Fair, price, false)
      else Verdict(false, NoTag, price, false)
  }

  /** Comparing the drop percentage with a threshold is comparing
      100·(avg − price) with threshold·avg. */
  lemma DropAtLeast(price: int, avg: nat, t: int)
    requires avg > 0
    ensures DropPercent(price, avg) >= t as real <==> 100 * (avg - price) >= t * avg
  {
    var a := avg as real;
    var q := (avg - price) as real / a;
    assert q * a == (avg - price) as real;
    assert DropPercent(price, avg) * a == 100.0 * (avg - price) as real;
    ScaleCompare(DropPercent(price, avg), t as real, a);
  }

  lemma ScaleCompare(x: real, c: real, a: real)
    requires a > 0.0
    ensures x >= c <==> x * a >= c * a
  {
    if x >= c {
      assert (x - c) * a >= 0.0;
    } else {
      assert (c - x) * a > 0.0;
    }
  }

  /** The integer rounding agrees with `Math.round` of the real percentage. */
  lemma RoundedDropIsMathRound(price: int, avg: nat)
    requires avg > 0
    ensures RoundedDrop(price, avg) == MathRound(DropPercent(price, avg))
  {
    var n := 200 * (avg - price) + avg;
    var d := 2 * avg;
    var k := n / d;
    assert k * d <= n < (k + 1) * d;
    var a := avg as real;
    var x := DropPercent(price, avg) + 0.5;
    assert (avg - price) as real / a * a == (avg - price) as real;
    assert x * d as real == n as real;
    ScaleCompare(x, k as real, d as real);
    ScaleCompare(x, (k + 1) as real, d as real);
    assert k as real <= x < (k + 1) as real;
  }

  /** The integer verdict is the verdict `evaluatePrice` computes. */
  lemma AssessMatchesReference(price: int, avg: nat)
    ensures Assess(price, avg) == ReferenceAssess(price, avg)
  {
    if price != 0 && avg != 0 && !(0 < price < FakePriceCeiling) {
      DropAtLeast(price, avg, 40);
      DropAtLeast(price, avg, 10);
      DropAtLeast(price, avg, 5);
      RoundedDropIsMathRound(price, avg);
    }
  }

  // ---------------------------------------------------------------------------
  // What the verdict promises
  // ---------------------------------------------------------------------------

  /** With a benchmark and a plausible price, a listing is a good deal exactly
      when it is at least 5% and less than 40% under the benchmark; 40% or more
      under is flagged instead. */
  lemma GoodDealBand(price: int, avg: nat)
    requires avg > 0 && price != 0 && !(0 < price < FakePriceCeiling)
    ensures Assess(price, avg).isGoodDeal <==> 5.0 <= DropPercent(price, avg) < 40.0
    ensures Assess(price, avg).tag == FarBelow <==> DropPercent(price, avg) >= 40.0
    ensures Assess(price, avg).tag == Fair <==> 5.0 <= DropPercent(price, avg) < 10.0
    ensures Assess(price, avg).tag.HotDeal? <==> 10.0 <= DropPercent(price, avg) < 40.0
  {
    AssessMatchesReference(price, avg);
  }

  /** A hot deal's printed percentage lies between 10 and 40. */
  lemma HotDealPercentRange(price: int, avg: nat)
    requires Assess(price, avg).tag.HotDeal?
    ensures 10 <= Assess(price, avg).tag.percent <= 40
  {
    var n := 200 * (avg - price) + avg;
    var d := 2 * avg;
    assert 20 * avg <= 200 * (avg - price) < 80 * avg;
    assert 10 * d <= n;
    assert n < 41 * d;
    DivBounds(n, d, 10, 41);
  }

  lemma DivBounds(n: int, d: int, lo: int, hi: int)
    requires d > 0 && lo * d <= n < hi * d
    ensures lo <= n / d < hi
  {
    var k := n / d;
    assert k * d <= n < k * d + d;
    PositiveFactor(k + 1 - lo, d);
    PositiveFactor(hi - k, d);
  }

  lemma PositiveFactor(x: int, d: int)
    requires d > 0 && x * d > 0
    ensures x > 0
  {
  }

  /** The design's example: 140M against a 200M benchmark is a 30% hot deal;
      100 000 is a suspicious price whatever the benchmark. */
  lemma Examples(avg: nat)
    ensures Assess(140_000_000, 200_000_000) == Verdict(true, HotDeal(30), 140_000_000, false)
    ensures Assess(100_000, avg) == Verdict(false, Suspicious, 100_000, true)
    ensures Assess(0, avg) == Verdict(false, NoTag, 0, false)
  {
  }
}
