/** Reading a listing's price text and normalising free text for matching
    (`parsePriceNew` and `normalizeText`, bot/utils/index.js). */
module PriceText {
  import opened Text
  import L = Lexicon

  /** What `parsePriceNew` returns: the negotiable marker, or a number. */
  datatype ParsedPrice = Negotiable | Amount(value: nat)

  /** Both digit replacements, Persian digits first, then Arabic-Indic ones. */
  function FoldDigits(s: string): (r: string)
    ensures |r| == |s|
    ensures forall i :: 0 <= i < |s| ==> r[i] == FoldArabicIndicDigit(FoldPersianDigit(s[i]))
  {
    FoldArabicIndicDigits(FoldPersianDigits(s))
  }

  /** `parsePriceNew(text)`: an empty text or one mentioning "توافقی" is
      negotiable; otherwise every digit of any script is kept, in order, and
      read as one decimal number; a text without digits is negotiable too. */
  function ParsePrice(text: string): (p: ParsedPrice)
    ensures text == "" || Contains(text, L.Negotiable) ==> p == Negotiable
  {
    if text == "" || Contains(text, L.Negotiable) then Negotiable
    else
      var digits := Filter(FoldDigits(text), IsAsciiDigit);
      if digits == [] then Negotiable else Amount(DecimalValue(digits))
  }

  // ---------------------------------------------------------------------------
  // An independent reading of the digits of a text
  // ---------------------------------------------------------------------------

  predicate IsAnyDigit(c: char)
  {
    IsAsciiDigit(c) || IsPersianDigit(c) || IsArabicIndicDigit(c)
  }

  /** The value of a digit of any of the three scripts. */
  function AnyDigitValue(c: char): (v: nat)
    requires IsAnyDigit(c)
    ensures v < 10
  {
    if IsAsciiDigit(c) then c as int - '0' as int
    else if IsPersianDigit(c) then c as int - 0x06F0
    else c as int - 0x0660
  }

  /** The values of the digits of `s`, in order, whatever their script. */
  function DigitValues(s: string): seq<nat>
  {
    if s == [] then []
    else DigitValues(s[..|s| - 1]) + (if IsAnyDigit(s[|s| - 1]) then [AnyDigitValue(s[|s| - 1])] else [])
  }

  /** The number a sequence of decimal digit values denotes. */
  function Positional(ds: seq<nat>): nat
  {
    if ds == [] then 0 else 10 * Positional(ds[..|ds| - 1]) + ds[|ds| - 1]
  }

  /** Folding a character yields an ASCII digit exactly when it was a digit of
      any script, and that digit has the same value. */
  lemma FoldDigitChar(c: char)
    ensures IsAsciiDigit(FoldArabicIndicDigit(FoldPersianDigit(c))) <==> IsAnyDigit(c)
    ensures IsAnyDigit(c) ==> DigitValue(FoldArabicIndicDigit(FoldPersianDigit(c))) == AnyDigitValue(c)
  {
  }

  lemma FoldDigitsSnoc(s: string)
    requires s != []
    ensures FoldDigits(s) == FoldDigits(s[..|s| - 1]) + [FoldArabicIndicDigit(FoldPersianDigit(s[|s| - 1]))]
  {
    assert FoldDigits(s)[..|s| - 1] == FoldDigits(s[..|s| - 1]);
  }

  lemma DecimalValueSnoc(ds: string, x: char)
    requires AllAsciiDigits(ds) && IsAsciiDigit(x)
    ensures AllAsciiDigits(ds + [x]) && DecimalValue(ds + [x]) == 10 * DecimalValue(ds) + DigitValue(x)
  {
    assert (ds + [x])[..|ds|] == ds;
  }

  lemma PositionalSnoc(vs: seq<nat>, v: nat)
    ensures Positional(vs + [v]) == 10 * Positional(vs) + v
  {
    assert (vs + [v])[..|vs|] == vs;
  }

  lemma {:induction false} FoldedDigitsMatchValues(s: string)
    ensures var ds := Filter(FoldDigits(s), IsAsciiDigit);
            (ds == [] <==> DigitValues(s) == []) && DecimalValue(ds) == Positional(DigitValues(s))
    decreases |s|
  {
    if s != [] {
      var init, last := s[..|s| - 1], s[|s| - 1];
      FoldedDigitsMatchValues(init);
      FoldDigitChar(last);
      FoldDigitsSnoc(s);
      FilterSnoc(FoldDigits(init), FoldArabicIndicDigit(FoldPersianDigit(last)), IsAsciiDigit);
      var ds0 := Filter(FoldDigits(init), IsAsciiDigit);
      var ds := Filter(FoldDigits(s), IsAsciiDigit);
      var vs0 := DigitValues(init);
      var x := FoldArabicIndicDigit(FoldPersianDigit(last));
      if IsAnyDigit(last) {
        assert ds == ds0 + [x];
        DecimalValueSnoc(ds0, x);
        var v := AnyDigitValue(last);
        assert DigitValues(s) == vs0 + [v];
        PositionalSnoc(vs0, v);
      } else {
        assert ds == ds0;
        assert DigitValues(s) == vs0;
      }
    }
  }

  /** `ParsePrice` reads the digits of the text, of whatever script, as one
      decimal number, and is negotiable when there are none. */
  lemma ParsePriceReadsDigits(text: string)
    ensures ParsePrice(text) ==
      if text == "" || Contains(text, L.Negotiable) || DigitValues(text) == [] then Negotiable
      else Amount(Positional(DigitValues(text)))
  {
    FoldedDigitsMatchValues(text);
  }

  // ---------------------------------------------------------------------------
  // Round trip with Persian numerals
  // ---------------------------------------------------------------------------

  function ToPersianDigit(c: char): char
  {
    if IsAsciiDigit(c) then (c as int - '0' as int + 0x06F0) as char else c
  }

  /** `n` written with Persian digits, as listings print prices. */
  function PersianNumeral(n: nat): (s: string)
    ensures s != [] && forall i :: 0 <= i < |s| ==> IsPersianDigit(s[i])
  {
    Map(DecimalString(n), ToPersianDigit)
  }

  lemma FoldPersianNumeral(n: nat)
    ensures FoldDigits(PersianNumeral(n)) == DecimalString(n)
  {
    var d := DecimalString(n);
    forall i | 0 <= i < |d|
      ensures FoldArabicIndicDigit(FoldPersianDigit(ToPersianDigit(d[i]))) == d[i]
    {
    }
  }

  /** A price written in Persian digits is read back as its value. */
  lemma ParsePersianNumeral(n: nat)
    ensures ParsePrice(PersianNumeral(n)) == Amount(n)
  {
    var s := PersianNumeral(n);
    var d := DecimalString(n);
    NotContainsForeign(s, L.Negotiable, 0, IsPersianDigit);
    FoldPersianNumeral(n);
    FilterAllKept(d, IsAsciiDigit);
    DecimalRoundTrip(n);
  }

  // ---------------------------------------------------------------------------
  // normalizeText
  // ---------------------------------------------------------------------------

  /** `normalizeText(text)`: trimmed, lower-cased, with Persian and
      Arabic-Indic digits replaced by ASCII ones; empty for an empty text. */
  function NormalizeText(text: string): (r: string)
    ensures |r| <= |text|
    ensures forall i :: 0 <= i < |r| ==>
              !IsPersianDigit(r[i]) && !IsArabicIndicDigit(r[i]) && !IsAsciiUpper(r[i])
    ensures r == [] || (!IsWhitespace(r[0]) && !IsWhitespace(r[|r| - 1]))
  {
    if text == "" then ""
    else
      var t := Trim(text);
      NormalizedChars(t);
      FoldDigits(ToLower(t))
  }

  /** Lower-casing then folding the digits leaves no upper-case letter and
      no Persian or Arabic-Indic digit, and keeps whitespace where it was. */
  lemma NormalizedChars(t: string)
    ensures var r := FoldDigits(ToLower(t));
            forall i :: 0 <= i < |r| ==>
              !IsPersianDigit(r[i]) && !IsArabicIndicDigit(r[i]) && !IsAsciiUpper(r[i])
              && (IsWhitespace(r[i]) <==> IsWhitespace(t[i]))
  {
    var r := FoldDigits(ToLower(t));
    forall i | 0 <= i < |r|
      ensures !IsPersianDigit(r[i]) && !IsArabicIndicDigit(r[i]) && !IsAsciiUpper(r[i])
      ensures IsWhitespace(r[i]) <==> IsWhitespace(t[i])
    {
      assert r[i] == FoldArabicIndicDigit(FoldPersianDigit(LowerChar(t[i])));
    }
  }

  /** Normalising twice is normalising once. */
  lemma NormalizeIdempotent(text: string)
    ensures NormalizeText(NormalizeText(text)) == NormalizeText(text)
  {
    var r := NormalizeText(text);
    if r != "" {
      NormalizeOfTrimmedLower(r);
      FoldOfFolded(r);
    }
  }

  /** For every text: whatever lies between its leading and trailing
      whitespace is kept character for character, lower-cased and with its
      digits folded, and the whitespace around it is dropped. */
  lemma NormalizeReadsTrimmedText(a: string, m: string, b: string)
    requires AllWhitespace(a) && AllWhitespace(b)
    requires m == [] || (!IsWhitespace(m[0]) && !IsWhitespace(m[|m| - 1]))
    ensures var r := NormalizeText(a + m + b);
            |r| == |m|
            && forall i :: 0 <= i < |m| ==> r[i] == FoldArabicIndicDigit(FoldPersianDigit(LowerChar(m[i])))
  {
    TrimOfPadded(a, m, b);
  }

  /** A text that is already trimmed and lower-case only has its digits folded. */
  lemma NormalizeOfTrimmedLower(s: string)
    requires s != [] && !IsWhitespace(s[0]) && !IsWhitespace(s[|s| - 1])
    requires forall i :: 0 <= i < |s| ==> !IsAsciiUpper(s[i])
    ensures NormalizeText(s) == FoldDigits(s)
  {
    TrimOfTrimmed(s);
    LowerOfLower(s);
  }

  lemma LowerOfLower(s: string)
    requires forall i :: 0 <= i < |s| ==> !IsAsciiUpper(s[i])
    ensures ToLower(s) == s
  {
  }

  lemma FoldOfFolded(s: string)
    requires forall i :: 0 <= i < |s| ==> !IsPersianDigit(s[i]) && !IsArabicIndicDigit(s[i])
    ensures FoldDigits(s) == s
  {
  }

  /** An ASCII numeral is already normal. */
  lemma NormalizeNumeral(d: string)
    requires d != [] && AllAsciiDigits(d)
    ensures NormalizeText(d) == d
  {
    NormalizeOfTrimmedLower(d);
    assert FoldDigits(d) == d;
  }

  /** A number typed with Persian digits normalises to the number typed with
      ASCII digits, so a query and a title match whichever digits they use. */
  lemma NormalizeDigitScripts(n: nat)
    ensures NormalizeText(PersianNumeral(n)) == NormalizeText(DecimalString(n)) == DecimalString(n)
  {
    var p := PersianNumeral(n);
    NormalizeOfTrimmedLower(p);
    FoldPersianNumeral(n);
    NormalizeNumeral(DecimalString(n));
  }
}
