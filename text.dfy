/** String and sequence helpers shared by the whole model.

    Strings are sequences of Unicode code points. The helpers model the few
    JavaScript built-ins the bot relies on: `includes`, `trim`, `toLowerCase`,
    the Persian / Arabic-Indic digit replacement, `split`, `join`, `filter`,
    `map` and `parseInt`. */
module Text {

  datatype Option<T> = None | Some(value: T)

  // ---------------------------------------------------------------------------
  // Generic sequence helpers
  // ---------------------------------------------------------------------------

  /** `s.filter(keep)`: the elements of `s` that satisfy `keep`, in order. */
  function Filter<T>(s: seq<T>, keep: T -> bool): (r: seq<T>)
    ensures |r| <= |s|
    ensures forall x :: x in r ==> x in s && keep(x)
    ensures forall x :: x in s && keep(x) ==> x in r
  {
    if s == [] then []
    else Filter(s[..|s| - 1], keep) + (if keep(s[|s| - 1]) then [s[|s| - 1]] else [])
  }

  /** `s.map(f)`. */
  function Map<A, B>(s: seq<A>, f: A -> B): (r: seq<B>)
    ensures |r| == |s|
    ensures forall i :: 0 <= i < |s| ==> r[i] == f(s[i])
  {
    seq(|s|, i requires 0 <= i < |s| => f(s[i]))
  }

  /** An element of a mapped sequence is the image of an element. */
  lemma MapMembers<A, B>(s: seq<A>, f: A -> B, y: B)
    ensures y in Map(s, f) <==> exists x :: x in s && f(x) == y
  {
    var r := Map(s, f);
    if y in r {
      var i :| 0 <= i < |r| && r[i] == y;
      assert s[i] in s;
    }
    if x :| x in s && f(x) == y {
      var i :| 0 <= i < |s| && s[i] == x;
      assert r[i] == y;
    }
  }

  /** `s.find(p)`: the first element satisfying `p`, if any. */
  function FindFirst<T>(s: seq<T>, p: T -> bool): (r: Option<T>)
    ensures r.Some? ==> exists i :: 0 <= i < |s| && s[i] == r.value && p(s[i])
                          && forall j :: 0 <= j < i ==> !p(s[j])
    ensures r.None? <==> forall i :: 0 <= i < |s| ==> !p(s[i])
  {
    if s == [] then None
    else if p(s[0]) then Some(s[0])
    else
      var r := FindFirst(s[1..], p);
      assert forall i :: 0 < i < |s| ==> s[i] == s[1..][i - 1];
      r
  }

  /** `r` can be obtained from `s` by deleting elements (order is kept). */
  predicate IsSubsequence<T(==)>(r: seq<T>, s: seq<T>)
    decreases |s|
  {
    if r == [] then true
    else if s == [] then false
    else if r[|r| - 1] == s[|s| - 1] then IsSubsequence(r[..|r| - 1], s[..|s| - 1])
    else IsSubsequence(r, s[..|s| - 1])
  }

  /** A subsequence stays a subsequence when `s` grows at the end. */
  lemma {:induction false} SubsequenceExtend<T>(r: seq<T>, s: seq<T>, y: T)
    requires IsSubsequence(r, s)
    ensures IsSubsequence(r, s + [y])
    decreases |s|, 1
  {
    if r == [] {
    } else {
      assert (s + [y])[..|s|] == s;
      if r[|r| - 1] == y {
        SubsequenceDropLast(r, s);
      }
    }
  }

  lemma {:induction false} SubsequenceDropLast<T>(r: seq<T>, s: seq<T>)
    requires r != [] && IsSubsequence(r, s)
    ensures IsSubsequence(r[..|r| - 1], s)
    decreases |s|, 0
  {
    var r' := r[..|r| - 1];
    if r' == [] {
    } else if r[|r| - 1] == s[|s| - 1] {
      SubsequenceExtend(r', s[..|s| - 1], s[|s| - 1]);
      assert s[..|s| - 1] + [s[|s| - 1]] == s;
    } else {
      SubsequenceDropLast(r, s[..|s| - 1]);
      SubsequenceExtend(r', s[..|s| - 1], s[|s| - 1]);
      assert s[..|s| - 1] + [s[|s| - 1]] == s;
    }
  }

  /** Filtering keeps the order of the elements it keeps. */
  lemma {:induction false} FilterIsSubsequence<T>(s: seq<T>, keep: T -> bool)
    ensures IsSubsequence(Filter(s, keep), s)
    decreases |s|
  {
    if s != [] {
      var init, last := s[..|s| - 1], s[|s| - 1];
      FilterIsSubsequence(init, keep);
      var f := Filter(init, keep);
      if keep(last) {
        assert Filter(s, keep) == f + [last];
        assert (f + [last])[..|f|] == f;
      } else {
        assert Filter(s, keep) == f;
        SubsequenceExtend(f, init, last);
        assert init + [last] == s;
      }
    }
  }

  /** Filtering an already filtered sequence again changes nothing. */
  lemma {:induction false} FilterIdempotent<T>(s: seq<T>, keep: T -> bool)
    ensures Filter(Filter(s, keep), keep) == Filter(s, keep)
    decreases |s|
  {
    if s != [] {
      var init, last := s[..|s| - 1], s[|s| - 1];
      FilterIdempotent(init, keep);
      var f := Filter(init, keep);
      if keep(last) {
        assert Filter(s, keep) == f + [last];
        assert (f + [last])[..|f|] == f;
        assert Filter(f + [last], keep) == Filter(f, keep) + [last];
      } else {
        assert Filter(s, keep) == f;
      }
    }
  }

  /** When every element is kept, filtering is the identity. */
  lemma FilterAllKept<T>(s: seq<T>, keep: T -> bool)
    requires forall i :: 0 <= i < |s| ==> keep(s[i])
    ensures Filter(s, keep) == s
  {
    FilterAllKeptPrefix(s, keep, |s|);
    assert s[..|s|] == s;
  }

  lemma {:induction false} FilterAllKeptPrefix<T>(s: seq<T>, keep: T -> bool, n: nat)
    requires n <= |s| && forall i :: 0 <= i < |s| ==> keep(s[i])
    ensures Filter(s[..n], keep) == s[..n]
    decreases n
  {
    if n == 0 {
      assert s[..n] == [];
    } else {
      FilterAllKeptPrefix(s, keep, n - 1);
      FilterPrefixStep(s, n - 1, keep);
      assert keep(s[n - 1]);
      PrefixSnoc(s, n);
    }
  }

  /** A non-empty sequence is its front and its last element. */
  lemma InitLast<T>(s: seq<T>)
    requires s != []
    ensures s == s[..|s| - 1] + [s[|s| - 1]]
  {
  }

  /** A prefix is the shorter prefix and its last element. */
  lemma PrefixSnoc<T>(s: seq<T>, n: nat)
    requires 0 < n <= |s|
    ensures s[..n] == s[..n - 1] + [s[n - 1]]
  {
  }

  /** Every element of a filtered sequence passes, by position. */
  lemma FilterKeepsAll<T>(s: seq<T>, keep: T -> bool)
    ensures forall i :: 0 <= i < |Filter(s, keep)| ==> keep(Filter(s, keep)[i])
  {
    var r := Filter(s, keep);
    forall i | 0 <= i < |r| ensures keep(r[i]) {
      assert r[i] in r;
    }
  }

  /** Nothing is kept when no element passes. */
  lemma {:induction false} FilterNoneKept<T>(s: seq<T>, keep: T -> bool)
    requires forall i :: 0 <= i < |s| ==> !keep(s[i])
    ensures Filter(s, keep) == []
    decreases |s|
  {
    if s != [] {
      FilterNoneKept(s[..|s| - 1], keep);
    }
  }

  /** Filtering a sequence extended by one element. */
  lemma FilterSnoc<T>(s: seq<T>, x: T, keep: T -> bool)
    ensures Filter(s + [x], keep) == Filter(s, keep) + (if keep(x) then [x] else [])
  {
    assert (s + [x])[..|s|] == s;
  }

  /** One more element of a prefix, as a loop over `s` takes it. */
  lemma FilterPrefixStep<T>(s: seq<T>, i: nat, keep: T -> bool)
    requires i < |s|
    ensures Filter(s[..i + 1], keep) == Filter(s[..i], keep) + (if keep(s[i]) then [s[i]] else [])
  {
    assert s[..i + 1][..i] == s[..i];
  }

  /** The number of occurrences of `x` in `s`. */
  function Count<T(==)>(s: seq<T>, x: T): nat
  {
    if s == [] then 0 else Count(s[..|s| - 1], x) + (if s[|s| - 1] == x then 1 else 0)
  }

  lemma {:induction false} CountZero<T>(s: seq<T>, x: T)
    ensures Count(s, x) == 0 <==> x !in s
    decreases |s|
  {
    if s != [] {
      CountZero(s[..|s| - 1], x);
      assert s == s[..|s| - 1] + [s[|s| - 1]];
    }
  }

  // ---------------------------------------------------------------------------
  // Substring search
  // ---------------------------------------------------------------------------

  predicate IsPrefix(p: string, s: string)
  {
    |p| <= |s| && s[..|p|] == p
  }

  /** `sub` occurs in `s` at position `i`. */
  predicate OccursAt(s: string, sub: string, i: int)
  {
    0 <= i && i + |sub| <= |s| && s[i..i + |sub|] == sub
  }

  /** JavaScript's `s.includes(sub)`. */
  predicate Contains(s: string, sub: string)
    decreases |s|
  {
    IsPrefix(sub, s) || (|s| > 0 && Contains(s[1..], sub))
  }

  /** Where `Contains` holds, `sub` occurs at some position of `s`. */
  lemma {:induction false} ContainsWitness(s: string, sub: string) returns (i: nat)
    requires Contains(s, sub)
    ensures OccursAt(s, sub, i)
    decreases |s|
  {
    if IsPrefix(sub, s) {
      i := 0;
      assert s[0..|sub|] == s[..|sub|];
    } else {
      var j := ContainsWitness(s[1..], sub);
      assert s[1..][j..j + |sub|] == s[j + 1..j + 1 + |sub|];
      i := j + 1;
    }
  }

  /** A string occurring at a given position is contained. */
  lemma {:induction false} ContainsAt(s: string, sub: string, i: int)
    requires OccursAt(s, sub, i)
    ensures Contains(s, sub)
    decreases i
  {
    if i == 0 {
      assert s[..|sub|] == s[0..|sub|];
    } else {
      assert s[1..][i - 1..i - 1 + |sub|] == s[i..i + |sub|];
      ContainsAt(s[1..], sub, i - 1);
    }
  }

  /** A string whose characters all satisfy `p` contains no string that has a character failing `p`. */
  lemma {:induction false} NotContainsForeign(s: string, sub: string, k: nat, p: char -> bool)
    requires forall i :: 0 <= i < |s| ==> p(s[i])
    requires k < |sub| && !p(sub[k])
    ensures !Contains(s, sub)
    decreases |s|
  {
    if |sub| <= |s| {
      assert s[..|sub|][k] == s[k];
    }
    if |s| > 0 {
      NotContainsForeign(s[1..], sub, k, p);
    }
  }

  // ---------------------------------------------------------------------------
  // Whitespace and `trim`
  // ---------------------------------------------------------------------------

  /** The characters ECMAScript calls WhiteSpace or LineTerminator: what `trim`
      removes and what the regular-expression class `\s` matches. */
  predicate IsWhitespace(c: char)
  {
    c == '\t' || c == '\n' || c == '\U{B}' || c == '\U{C}' || c == '\r' || c == ' '
    || c == '\U{A0}' || c == '\U{1680}' || ('\U{2000}' <= c <= '\U{200A}')
    || c == '\U{2028}' || c == '\U{2029}' || c == '\U{202F}' || c == '\U{205F}'
    || c == '\U{3000}' || c == '\U{FEFF}'
  }

  /** The characters a regular-expression `.` does not match. */
  predicate IsLineTerminator(c: char)
  {
    c == '\n' || c == '\r' || c == '\U{2028}' || c == '\U{2029}'
  }

  predicate AllWhitespace(s: string)
  {
    forall i :: 0 <= i < |s| ==> IsWhitespace(s[i])
  }

  function TrimStart(s: string): (r: string)
    ensures |r| <= |s| && r == s[|s| - |r|..]
    ensures r == [] || !IsWhitespace(r[0])
    ensures AllWhitespace(s[..|s| - |r|])
    decreases |s|
  {
    if s != [] && IsWhitespace(s[0]) then
      var t := s[1..];
      var r := TrimStart(t);
      assert t[|t| - |r|..] == s[|s| - |r|..];
      assert s[..|s| - |r|] == [s[0]] + t[..|t| - |r|];
      AllWhitespaceConcat([s[0]], t[..|t| - |r|]);
      r
    else s
  }

  function TrimEnd(s: string): (r: string)
    ensures |r| <= |s| && r == s[..|r|]
    ensures r == [] || !IsWhitespace(r[|r| - 1])
    ensures AllWhitespace(s[|r|..])
    decreases |s|
  {
    if s != [] && IsWhitespace(s[|s| - 1]) then
      var t := s[..|s| - 1];
      var r := TrimEnd(t);
      assert t[..|r|] == s[..|r|];
      assert s[|r|..] == t[|r|..] + [s[|s| - 1]];
      AllWhitespaceConcat(t[|r|..], [s[|s| - 1]]);
      r
    else s
  }

  /** How much leading whitespace `Trim` cuts off. */
  function TrimOffset(s: string): (k: nat)
    ensures k <= |s|
  {
    |s| - |TrimStart(s)|
  }

  /** JavaScript's `s.trim()`: the longest middle slice of `s` that neither
      starts nor ends with whitespace; everything cut off is whitespace. */
  function Trim(s: string): (r: string)
    ensures r == [] || (!IsWhitespace(r[0]) && !IsWhitespace(r[|r| - 1]))
    ensures TrimOffset(s) + |r| <= |s| && r == s[TrimOffset(s)..TrimOffset(s) + |r|]
    ensures AllWhitespace(s[..TrimOffset(s)]) && AllWhitespace(s[TrimOffset(s) + |r|..])
  {
    var t := TrimStart(s);
    var r := TrimEnd(t);
    var k := |s| - |t|;
    SliceOfSuffix(s, k, |r|);
    assert r != [] ==> r[0] == t[0];
    r
  }

  /** The first `m` elements of a suffix, and what follows them. */
  lemma SliceOfSuffix<T>(s: seq<T>, k: nat, m: nat)
    requires k + m <= |s|
    ensures s[k..][..m] == s[k..k + m] && s[k..][m..] == s[k + m..]
  {
  }

  /** Trimming removes everything exactly when the string is blank. */
  lemma TrimEmptyIffBlank(s: string)
    ensures Trim(s) == [] <==> AllWhitespace(s)
  {
    var r := Trim(s);
    var k := TrimOffset(s);
    if r == [] {
      assert k + |r| == k;
      AllWhitespaceConcat(s[..k], s[k..]);
      assert s[..k] + s[k..] == s;
    } else {
      assert s[k] == r[0] && !IsWhitespace(s[k]);
    }
  }

  lemma AllWhitespaceConcat(a: string, b: string)
    requires AllWhitespace(a) && AllWhitespace(b)
    ensures AllWhitespace(a + b)
  {
    forall i | 0 <= i < |a + b| ensures IsWhitespace((a + b)[i]) {
      if i >= |a| {
        assert (a + b)[i] == b[i - |a|];
      }
    }
  }

  /** Every character of a trimmed string comes from the string. */
  lemma TrimKeepsChars(s: string)
    ensures forall c :: c in Trim(s) ==> c in s
  {
    var r := Trim(s);
    var k := TrimOffset(s);
    forall c | c in r ensures c in s {
      var j :| 0 <= j < |r| && r[j] == c;
      assert r[j] == s[k..k + |r|][j] == s[k + j];
    }
  }

  /** A string that has no whitespace at either end is its own trim. */
  lemma TrimOfTrimmed(s: string)
    requires s == [] || (!IsWhitespace(s[0]) && !IsWhitespace(s[|s| - 1]))
    ensures Trim(s) == s
  {
  }

  /** Trimming a trimmed text padded with whitespace on both sides gives the
      text back. */
  lemma TrimOfPadded(a: string, m: string, b: string)
    requires AllWhitespace(a) && AllWhitespace(b)
    requires m == [] || (!IsWhitespace(m[0]) && !IsWhitespace(m[|m| - 1]))
    ensures Trim(a + m + b) == m
  {
    var s := a + m + b;
    var r := Trim(s);
    var k := TrimOffset(s);
    if m == [] {
      assert s == a + b;
      AllWhitespaceConcat(a, b);
      TrimEmptyIffBlank(s);
    } else {
      var e := |a| + |m|;
      assert s[|a|] == m[0] && s[e - 1] == m[|m| - 1];
      assert !AllWhitespace(s);
      TrimEmptyIffBlank(s);
      WhitespaceBefore(s, k);
      WhitespaceAfter(s, k + |r|);
      assert r[0] == s[k] && r[|r| - 1] == s[k + |r| - 1];
      assert k <= |a| && e <= k + |r|;
      assert k == |a| && k + |r| == e;
      assert s[|a|..e] == m;
    }
  }

  lemma WhitespaceBefore(s: string, k: nat)
    requires k <= |s| && AllWhitespace(s[..k])
    ensures forall j :: 0 <= j < k ==> IsWhitespace(s[j])
  {
    forall j | 0 <= j < k ensures IsWhitespace(s[j]) {
      assert s[..k][j] == s[j];
    }
  }

  lemma WhitespaceAfter(s: string, k: nat)
    requires k <= |s| && AllWhitespace(s[k..])
    ensures forall j :: k <= j < |s| ==> IsWhitespace(s[j])
  {
    forall j | k <= j < |s| ensures IsWhitespace(s[j]) {
      assert s[k..][j - k] == s[j];
    }
  }

  // ---------------------------------------------------------------------------
  // Case and digits
  // ---------------------------------------------------------------------------

  predicate IsAsciiUpper(c: char) { 'A' <= c <= 'Z' }

  function LowerChar(c: char): char
  {
    if IsAsciiUpper(c) then (c as int + 32) as char else c
  }

  /** `toLowerCase`, on the ASCII letters. */
  function ToLower(s: string): (r: string)
    ensures |r| == |s|
    ensures forall i :: 0 <= i < |s| ==> r[i] == LowerChar(s[i])
  {
    Map(s, LowerChar)
  }

  predicate IsAsciiDigit(c: char) { '0' <= c <= '9' }

  /** The class `[۰-۹]`: EXTENDED ARABIC-INDIC (Persian) digits. */
  predicate IsPersianDigit(c: char) { '\U{06F0}' <= c <= '\U{06F9}' }

  /** The class `[٠-٩]`: ARABIC-INDIC digits. */
  predicate IsArabicIndicDigit(c: char) { '\U{0660}' <= c <= '\U{0669}' }

  /** A Persian digit becomes the ASCII digit with its position in "۰۱۲۳۴۵۶۷۸۹". */
  function FoldPersianDigit(c: char): (d: char)
    ensures IsPersianDigit(c) ==> IsAsciiDigit(d) && d as int - '0' as int == c as int - 0x06F0
    ensures !IsPersianDigit(c) ==> d == c
  {
    if IsPersianDigit(c) then (c as int - 0x06F0 + '0' as int) as char else c
  }

  /** An Arabic-Indic digit becomes the ASCII digit with its position in "٠١٢٣٤٥٦٧٨٩". */
  function FoldArabicIndicDigit(c: char): (d: char)
    ensures IsArabicIndicDigit(c) ==> IsAsciiDigit(d) && d as int - '0' as int == c as int - 0x0660
    ensures !IsArabicIndicDigit(c) ==> d == c
  {
    if IsArabicIndicDigit(c) then (c as int - 0x0660 + '0' as int) as char else c
  }

  /** `s.replace(/[۰-۹]/g, …)`. */
  function FoldPersianDigits(s: string): (r: string)
    ensures |r| == |s|
    ensures forall i :: 0 <= i < |s| ==> r[i] == FoldPersianDigit(s[i])
  {
    Map(s, FoldPersianDigit)
  }

  /** `s.replace(/[٠-٩]/g, …)`. */
  function FoldArabicIndicDigits(s: string): (r: string)
    ensures |r| == |s|
    ensures forall i :: 0 <= i < |s| ==> r[i] == FoldArabicIndicDigit(s[i])
  {
    Map(s, FoldArabicIndicDigit)
  }

  function DigitValue(c: char): nat
    requires IsAsciiDigit(c)
  {
    c as int - '0' as int
  }

  predicate AllAsciiDigits(s: string)
  {
    forall i :: 0 <= i < |s| ==> IsAsciiDigit(s[i])
  }

  /** The value of a string of decimal digits. */
  function DecimalValue(ds: string): nat
    requires AllAsciiDigits(ds)
  {
    if ds == [] then 0 else 10 * DecimalValue(ds[..|ds| - 1]) + DigitValue(ds[|ds| - 1])
  }

  /** The shortest decimal numeral of `n` in ASCII digits, as `${n}` prints it. */
  function DecimalString(n: nat): (s: string)
    ensures s != [] && AllAsciiDigits(s)
  {
    if n < 10 then [('0' as int + n) as char]
    else DecimalString(n / 10) + [('0' as int + n % 10) as char]
  }

  /** How a template literal prints an integer. */
  function IntString(i: int): (s: string)
    ensures s != []
  {
    if i < 0 then "-" + DecimalString(-i) else DecimalString(i)
  }

  lemma {:induction false} DecimalRoundTrip(n: nat)
    ensures DecimalValue(DecimalString(n)) == n
  {
    if n >= 10 {
      DecimalRoundTrip(n / 10);
      var s := DecimalString(n);
      assert s[..|s| - 1] == DecimalString(n / 10);
    }
  }

  /** `parseInt(s)` when it yields a number: optional leading whitespace, an
      optional sign, then the longest run of decimal digits (at least one).
      None stands for NaN. */
  function ParseIntPrefix(s: string): (r: Option<int>)
  {
    var t := TrimStart(s);
    var negative := t != [] && t[0] == '-';
    var body := if t != [] && (t[0] == '-' || t[0] == '+') then t[1..] else t;
    var ds := LeadingDigits(body);
    if ds == [] then None
    else
      var v: int := DecimalValue(ds);
      Some(if negative then -v else v)
  }

  function LeadingDigits(s: string): (ds: string)
    ensures AllAsciiDigits(ds) && IsPrefix(ds, s)
    ensures |ds| < |s| ==> !IsAsciiDigit(s[|ds|])
    decreases |s|
  {
    if s != [] && IsAsciiDigit(s[0]) then [s[0]] + LeadingDigits(s[1..]) else []
  }

  /** `parseInt` reads back every numeral `DecimalString` prints. */
  lemma ParseIntOfNumeral(n: nat)
    ensures ParseIntPrefix(DecimalString(n)) == Some(n)
  {
    var s := DecimalString(n);
    assert TrimStart(s) == s;
    LeadingDigitsOfDigits(s);
    DecimalRoundTrip(n);
  }

  lemma {:induction false} LeadingDigitsOfDigits(s: string)
    requires AllAsciiDigits(s)
    ensures LeadingDigits(s) == s
    decreases |s|
  {
    if s != [] {
      LeadingDigitsOfDigits(s[1..]);
    }
  }

  // ---------------------------------------------------------------------------
  // split and join
  // ---------------------------------------------------------------------------

  /** JavaScript's `s.split(/[…]/)` on a class of single delimiter characters:
      the pieces between delimiters, empty pieces included. */
  function SplitOn(s: string, delims: set<char>): (parts: seq<string>)
    ensures |parts| >= 1
    decreases |s|
  {
    if s == [] then [""]
    else
      var rest := SplitOn(s[1..], delims);
      if s[0] in delims then [""] + rest
      else [[s[0]] + rest[0]] + rest[1..]
  }

  /** No piece of a split holds a delimiter. */
  lemma {:induction false} SplitPiecesHaveNoDelimiter(s: string, delims: set<char>)
    ensures forall p, c :: p in SplitOn(s, delims) && c in p ==> c !in delims
    decreases |s|
  {
    if s != [] {
      SplitPiecesHaveNoDelimiter(s[1..], delims);
    }
  }

  /** A string without delimiters is a single piece. */
  lemma {:induction false} SplitWithoutDelimiter(s: string, delims: set<char>)
    requires forall c :: c in s ==> c !in delims
    ensures SplitOn(s, delims) == [s]
    decreases |s|
  {
    if s != [] {
      assert forall c :: c in s[1..] ==> c in s;
      SplitWithoutDelimiter(s[1..], delims);
      assert [s[0]] + s[1..] == s;
    }
  }

  /** The first piece of a split is the longest prefix without a delimiter. */
  lemma {:induction false} FirstPiece(s: string, delims: set<char>)
    ensures var p := SplitOn(s, delims)[0];
            IsPrefix(p, s) && (|p| == |s| || s[|p|] in delims)
    decreases |s|
  {
    if s != [] && s[0] !in delims {
      FirstPiece(s[1..], delims);
      var q := SplitOn(s[1..], delims)[0];
      assert SplitOn(s, delims)[0] == [s[0]] + q;
      assert s == [s[0]] + s[1..];
    }
  }

  /** A delimiter-free piece followed by a delimiter splits off as the first piece. */
  lemma {:induction false} SplitAfterPiece(a: string, d: char, b: string, delims: set<char>)
    requires d in delims
    requires forall c :: c in a ==> c !in delims
    ensures SplitOn(a + [d] + b, delims) == [a] + SplitOn(b, delims)
    decreases |a|
  {
    var s := a + [d] + b;
    if a == [] {
      assert s[1..] == b;
    } else {
      assert s[1..] == a[1..] + [d] + b;
      assert forall c :: c in a[1..] ==> c in a;
      SplitAfterPiece(a[1..], d, b, delims);
      assert [a[0]] + a[1..] == a;
    }
  }

  /** `parts.join(sep)`. */
  function Join(parts: seq<string>, sep: string): string
  {
    if parts == [] then ""
    else if |parts| == 1 then parts[0]
    else parts[0] + sep + Join(parts[1..], sep)
  }

  /** Splitting on one delimiter and joining with it gives the input back. */
  lemma {:induction false} SplitJoinRoundTrip(s: string, d: char)
    ensures Join(SplitOn(s, {d}), [d]) == s
    decreases |s|
  {
    if s != [] {
      var rest := SplitOn(s[1..], {d});
      SplitJoinRoundTrip(s[1..], d);
      if s[0] == d {
        assert SplitOn(s, {d}) == [""] + rest;
        assert Join([""] + rest, [d]) == "" + [d] + Join(rest, [d]);
      } else {
        var parts := SplitOn(s, {d});
        assert parts == [[s[0]] + rest[0]] + rest[1..];
        if |rest| == 1 {
          assert Join(parts, [d]) == [s[0]] + rest[0];
        } else {
          assert parts[1..] == rest[1..];
          assert Join(parts, [d]) == [s[0]] + rest[0] + [d] + Join(rest[1..], [d]);
          assert Join(rest, [d]) == rest[0] + [d] + Join(rest[1..], [d]);
        }
      }
    }
  }

  /** Joining delimiter-free pieces with a delimiter and splitting again gives the pieces back. */
  lemma {:induction false} SplitJoined(parts: seq<string>, d: char, delims: set<char>)
    requires d in delims && parts != []
    requires forall p, c :: p in parts && c in p ==> c !in delims
    ensures SplitOn(Join(parts, [d]), delims) == parts
    decreases |parts|
  {
    if |parts| == 1 {
      SplitWithoutDelimiter(parts[0], delims);
    } else {
      SplitJoined(parts[1..], d, delims);
      SplitAfterPiece(parts[0], d, Join(parts[1..], [d]), delims);
      assert parts == [parts[0]] + parts[1..];
    }
  }

  // ---------------------------------------------------------------------------
  // Regular-expression alternatives over free text
  // ---------------------------------------------------------------------------

  /** One alternative of the free-text regular expressions: a literal word,
      or `first.*second` (the two words on one line, in that order). */
  datatype Pattern = Word(w: string) | Then(first: string, second: string)

  /** `sub` occurs in `s` before any line terminator. */
  predicate ContainsOnLine(s: string, sub: string)
    decreases |s|
  {
    IsPrefix(sub, s) || (|s| > 0 && !IsLineTerminator(s[0]) && ContainsOnLine(s[1..], sub))
  }

  /** `a.*b` matches somewhere in `s`. */
  predicate ContainsThen(s: string, a: string, b: string)
    decreases |s|
  {
    (IsPrefix(a, s) && ContainsOnLine(s[|a|..], b)) || (|s| > 0 && ContainsThen(s[1..], a, b))
  }

  predicate PatternMatches(s: string, p: Pattern)
  {
    match p
    case Word(w) => Contains(s, w)
    case Then(a, b) => ContainsThen(s, a, b)
  }

  /** `/(alt0|alt1|…)/.test(s)`: some alternative matches. */
  predicate AnyMatches(s: string, alternatives: seq<Pattern>)
  {
    exists i :: 0 <= i < |alternatives| && PatternMatches(s, alternatives[i])
  }

  /** `s.replace(/c/g, d)` for single characters. */
  function ReplaceChar(s: string, c: char, d: char): (r: string)
    ensures |r| == |s|
    ensures forall i :: 0 <= i < |s| ==> r[i] == (if s[i] == c then d else s[i])
  {
    seq(|s|, i requires 0 <= i < |s| => if s[i] == c then d else s[i])
  }
}
