/** The market benchmark (bot/utils/AveragePrice.js): the rounded mean price
    of recent listings of the same model and year, read from the stored
    listings. */
module Benchmark {
  import opened Text
  import opened Records
  import PriceVerdict
  import PriceText

  /** Only listings stored in the last 14 days count. */
  const WindowDays: int := 14
  /** Prices at or under 50 000 000 are deposits or fakes and do not count. */
  const PriceFloor: int := 50_000_000
  /** Fewer samples than this give no benchmark. */
  const MinSamples: nat := 3

  // ---------------------------------------------------------------------------
  // normalizeYear
  // ---------------------------------------------------------------------------

  /** The Persian digits below `k` folded to ASCII, every other character kept. */
  function FoldPersianDigitBelow(c: char, k: int): char
  {
    if IsPersianDigit(c) && c as int - 0x06F0 < k then FoldPersianDigit(c) else c
  }

  function FoldPersianDigitsBelow(s: string, k: int): (r: string)
    ensures |r| == |s| && forall i :: 0 <= i < |s| ==> r[i] == FoldPersianDigitBelow(s[i], k)
  {
    Map(s, (c: char) => FoldPersianDigitBelow(c, k))
  }

  /** `normalizeYear(yearStr)`: "" for an empty text; otherwise every Persian
      digit becomes its ASCII digit and every other character stays. */
  function NormalizedYear(yearStr: string): (r: string)
    ensures |r| == |yearStr|
    ensures forall i :: 0 <= i < |r| ==> !IsPersianDigit(r[i])
    ensures forall i :: 0 <= i < |r| && !IsPersianDigit(yearStr[i]) ==> r[i] == yearStr[i]
    ensures forall i :: 0 <= i < |r| && IsPersianDigit(yearStr[i]) ==>
              IsAsciiDigit(r[i]) && r[i] as int - '0' as int == yearStr[i] as int - 0x06F0
  {
    if yearStr == "" then "" else FoldPersianDigits(yearStr)
  }

  /** The loop of ten global replacements, one per Persian digit. */
  method NormalizeYear(yearStr: string) returns (r: string)
    ensures r == NormalizedYear(yearStr)
  {
    if yearStr == "" {
      return "";
    }
    r := yearStr;
    assert r == FoldPersianDigitsBelow(yearStr, 0);
    for i := 0 to 10
      invariant r == FoldPersianDigitsBelow(yearStr, i)
    {
      r := ReplaceChar(r, (0x06F0 + i) as char, ('0' as int + i) as char);
      assert r == FoldPersianDigitsBelow(yearStr, i + 1);
    }
    assert r == FoldPersianDigits(yearStr);
  }

  /** A year typed in Persian digits normalises to the same year in ASCII digits. */
  lemma NormalizedYearOfPersianNumeral(n: nat)
    ensures NormalizedYear(PriceText.PersianNumeral(n)) == DecimalString(n)
  {
    var d := DecimalString(n);
    var p := PriceText.PersianNumeral(n);
    forall i | 0 <= i < |d|
      ensures NormalizedYear(p)[i] == d[i]
    {
      assert p[i] == PriceText.ToPersianDigit(d[i]);
    }
  }

  /** `parseInt(normalizeYear(year)) || 0`: the year as it is stored
      (bot/index.js:1101). */
  function YearNumber(yearText: string): int
  {
    match ParseIntPrefix(NormalizedYear(yearText))
    case None => 0
    case Some(v) => v
  }

  /** "1400" and "۱۴۰۰" are stored as the same year. */
  lemma YearNumberOfNumerals(n: nat)
    ensures YearNumber(DecimalString(n)) == n
    ensures YearNumber(PriceText.PersianNumeral(n)) == n
  {
    NormalizedYearOfPersianNumeral(n);
    ParseIntOfNumeral(n);
    var d := DecimalString(n);
    assert NormalizedYear(d) == d;
  }

  // ---------------------------------------------------------------------------
  // The aggregate
  // ---------------------------------------------------------------------------

  function Sum(ps: seq<int>): int
  {
    if ps == [] then 0 else Sum(ps[..|ps| - 1]) + ps[|ps| - 1]
  }

  /** `Math.round(sum / n)`, exactly: floor((2·sum + n) / (2·n)). */
  function RoundedMean(ps: seq<int>): int
    requires |ps| > 0
  {
    (2 * Sum(ps) + |ps|) / (2 * |ps|)
  }

  lemma {:induction false} SumBounds(ps: seq<int>, lo: int, hi: int)
    requires forall i :: 0 <= i < |ps| ==> lo <= ps[i] <= hi
    ensures |ps| * lo <= Sum(ps) <= |ps| * hi
    decreases |ps|
  {
    if ps != [] {
      var n := |ps|;
      SumBounds(ps[..n - 1], lo, hi);
      assert lo <= ps[n - 1] <= hi;
      assert n * lo == (n - 1) * lo + lo && n * hi == (n - 1) * hi + hi;
    }
  }

  lemma {:induction false} SumAtLeast(ps: seq<int>, lo: int)
    requires forall i :: 0 <= i < |ps| ==> lo <= ps[i]
    ensures |ps| * lo <= Sum(ps)
    decreases |ps|
  {
    if ps != [] {
      SumAtLeast(ps[..|ps| - 1], lo);
    }
  }

  lemma MeanAtLeast(ps: seq<int>, lo: int)
    requires |ps| > 0
    requires forall i :: 0 <= i < |ps| ==> lo <= ps[i]
    ensures lo <= RoundedMean(ps)
  {
    SumAtLeast(ps, lo);
    var n := |ps|;
    var k := RoundedMean(ps);
    assert 2 * Sum(ps) + n < k * (2 * n) + 2 * n;
    PriceVerdict.PositiveFactor(k + 1 - lo, 2 * n);
  }

  /** The rounded mean lies between any bounds of the prices, so between
      their minimum and their maximum. */
  lemma MeanWithinBounds(ps: seq<int>, lo: int, hi: int)
    requires |ps| > 0
    requires forall i :: 0 <= i < |ps| ==> lo <= ps[i] <= hi
    ensures lo <= RoundedMean(ps) <= hi
  {
    SumBounds(ps, lo, hi);
    RoundedQuotientBounds(Sum(ps), |ps|, lo, hi);
  }

  /** floor((2·s + n) / (2·n)) lies between `lo` and `hi` when `s` lies
      between `n·lo` and `n·hi`. */
  lemma RoundedQuotientBounds(s: int, n: int, lo: int, hi: int)
    requires n > 0 && n * lo <= s <= n * hi
    ensures lo <= (2 * s + n) / (2 * n) <= hi
  {
    var d := 2 * n;
    var k := (2 * s + n) / d;
    assert k * d <= 2 * s + n < k * d + d;
    assert (k + 1 - lo) * d == k * d + d - lo * d;
    assert lo * d == 2 * (n * lo);
    PriceVerdict.PositiveFactor(k + 1 - lo, d);
    assert (hi + 1 - k) * d == hi * d + d - k * d;
    assert hi * d == 2 * (n * hi);
    PriceVerdict.PositiveFactor(hi + 1 - k, d);
  }

  /** The exact rounding is `Math.round` of the floating-point average. */
  lemma RoundedMeanIsMathRound(ps: seq<int>)
    requires |ps| > 0
    ensures RoundedMean(ps) == PriceVerdict.MathRound(Sum(ps) as real / |ps| as real)
  {
    RoundedQuotientIsMathRound(Sum(ps), |ps|);
  }

  /** floor((2·s + n) / (2·n)) is `Math.round(s / n)`. */
  lemma RoundedQuotientIsMathRound(s: int, n: int)
    requires n > 0
    ensures (2 * s + n) / (2 * n) == PriceVerdict.MathRound(s as real / n as real)
  {
    var m := 2 * s + n;
    var d := 2 * n;
    var k := m / d;
    assert k * d <= m < (k + 1) * d;
    var q := s as real / n as real;
    assert q * n as real == s as real;
    var x := q + 0.5;
    assert x * d as real == 2.0 * (q * n as real) + n as real;
    assert x * d as real == m as real;
    PriceVerdict.ScaleCompare(x, k as real, d as real);
    PriceVerdict.ScaleCompare(x, (k + 1) as real, d as real);
  }

  /** The `$match` stage: same model, `year` equal to `yearKey` as the
      database compares values, stored within the window, price above the floor. */
  predicate Qualifies(ad: StoredAd, brandModel: string, yearKey: BsonValue, now: int)
  {
    ad.brandModel == brandModel && BsonNumber(ad.year) == yearKey
    && ad.createdAt >= now - WindowDays * Day && ad.price > PriceFloor
  }

  /** The prices the `$group` stage averages, in store order. */
  function QualifyingPrices(ads: seq<StoredAd>, brandModel: string, yearKey: BsonValue, now: int): (ps: seq<int>)
    ensures forall i :: 0 <= i < |ps| ==> ps[i] > PriceFloor
  {
    var matched := Filter(ads, (ad: StoredAd) => Qualifies(ad, brandModel, yearKey, now));
    assert forall i :: 0 <= i < |matched| ==> matched[i] in matched;
    Map(matched, (ad: StoredAd) => ad.price)
  }

  /** The store as the aggregate reads it: a failed read yields 0. */
  datatype StoreRead = Reachable(ads: seq<StoredAd>) | Unreachable

  /** The aggregate and its threshold, with `yearKey` as the matched year. */
  function Aggregate(store: StoreRead, brandModel: string, yearKey: BsonValue, now: int): (avg: int)
    ensures avg == 0 || avg > PriceFloor
    ensures avg != 0 <==> store.Reachable? && |QualifyingPrices(store.ads, brandModel, yearKey, now)| >= MinSamples
  {
    match store
    case Unreachable => 0
    case Reachable(ads) =>
      var ps := QualifyingPrices(ads, brandModel, yearKey, now);
      if |ps| >= MinSamples then
        MeanAtLeast(ps, PriceFloor + 1);
        RoundedMean(ps)
      else 0
  }

  /** `getAveragePriceFromDB(brandModel, year)` as written: the year is matched
      as the string `normalizeYear(year)` (bot/utils/AveragePrice.js:48). */
  function AveragePriceAsWritten(store: StoreRead, brandModel: string, year: string, now: int): nat
  {
    if brandModel == "" || year == "" then 0
    else Aggregate(store, brandModel, BsonString(NormalizedYear(year)), now)
  }

  /** A stored year is a number and the as-written query asks for a string,
      so no listing ever qualifies and the benchmark is always 0. */
  lemma AsWrittenAlwaysZero(store: StoreRead, brandModel: string, year: string, now: int)
    ensures AveragePriceAsWritten(store, brandModel, year, now) == 0
  {
    if store.Reachable? && brandModel != "" && year != "" {
      var ps := QualifyingPrices(store.ads, brandModel, BsonString(NormalizedYear(year)), now);
      var keep := (ad: StoredAd) => Qualifies(ad, brandModel, BsonString(NormalizedYear(year)), now);
      FilterNoneKept(store.ads, keep);
      assert |ps| == |Filter(store.ads, keep)| == 0;
    }
  }

  /** The benchmark: the year is matched as the number it is stored as. 0 when
      the model or the year is missing or the store cannot be read. */
  function AveragePrice(store: StoreRead, brandModel: string, year: string, now: int): (avg: nat)
    ensures brandModel == "" || year == "" || store.Unreachable? ==> avg == 0
    ensures avg == 0 || avg > PriceFloor
  {
    if brandModel == "" || year == "" then 0
    else Aggregate(store, brandModel, BsonNumber(YearNumber(year)), now)
  }

  /** There is a benchmark exactly when at least three listings qualify. */
  lemma BenchmarkNeedsThreeSamples(ads: seq<StoredAd>, brandModel: string, year: string, now: int)
    requires brandModel != "" && year != ""
    ensures AveragePrice(Reachable(ads), brandModel, year, now) != 0 <==>
              |QualifyingPrices(ads, brandModel, BsonNumber(YearNumber(year)), now)| >= MinSamples
  {
  }

  /** The benchmark is `Math.round` of the mean qualifying price and lies
      between the cheapest and the dearest of them. */
  lemma BenchmarkIsRoundedMean(ads: seq<StoredAd>, brandModel: string, year: string, now: int, lo: int, hi: int)
    requires brandModel != "" && year != ""
    requires var ps := QualifyingPrices(ads, brandModel, BsonNumber(YearNumber(year)), now);
             |ps| >= MinSamples && forall i :: 0 <= i < |ps| ==> lo <= ps[i] <= hi
    ensures var ps := QualifyingPrices(ads, brandModel, BsonNumber(YearNumber(year)), now);
            AveragePrice(Reachable(ads), brandModel, year, now) == PriceVerdict.MathRound(Sum(ps) as real / |ps| as real)
            && lo <= AveragePrice(Reachable(ads), brandModel, year, now) <= hi
  {
    var ps := QualifyingPrices(ads, brandModel, BsonNumber(YearNumber(year)), now);
    RoundedMeanIsMathRound(ps);
    MeanWithinBounds(ps, lo, hi);
  }

  /** A listing stored from the same year text, of the same model, stored
      within the window and priced above the floor, is counted by the
      benchmark; the as-written query never counts it. */
  lemma StoredListingIsCounted(ads: seq<StoredAd>, ad: StoredAd, year: string, now: int)
    requires ad in ads && ad.year == YearNumber(year)
    requires ad.createdAt >= now - WindowDays * Day && ad.price > PriceFloor
    ensures ad.price in QualifyingPrices(ads, ad.brandModel, BsonNumber(YearNumber(year)), now)
    ensures !Qualifies(ad, ad.brandModel, BsonString(NormalizedYear(year)), now)
  {
    var matched := Filter(ads, (a: StoredAd) => Qualifies(a, ad.brandModel, BsonNumber(YearNumber(year)), now));
    assert ad in matched;
    var k :| 0 <= k < |matched| && matched[k] == ad;
    assert QualifyingPrices(ads, ad.brandModel, BsonNumber(YearNumber(year)), now)[k] == ad.price;
  }
}
