/** Which subscribers a new listing reaches: the eligibility query and the
    title filter of `checkDivar` (bot/index.js:1001-1016), the negative-word
    exclusion of silver and gold subscribers (bot/index.js:1160-1171), the
    cleaning of typed negative words (bot/index.js:817-830) and the daily
    result limit of each plan (bot/index.js:449-457). */
module Matching {
  import opened Text
  import opened Records
  import opened PriceText

  // ---------------------------------------------------------------------------
  // Eligibility and the title filter
  // ---------------------------------------------------------------------------

  /** The database query for a listing: an active subscriber whose
      subscription has not yet expired, whose price ceiling is not below the
      listing's price (a negotiable listing counts as 0) and who follows the
      listing's city. */
  predicate Eligible(u: Subscriber, price: ParsedPrice, cityId: int, now: int)
  {
    u.isActive && u.subscriptionExpiry > now
    && u.filters.maxPrice >= (if price.Negotiable? then 0 else price.value)
    && u.filters.cityId == cityId
  }

  /** `User.find(...)` with that query, in the collection's order. */
  function EligibleUsers(users: seq<Subscriber>, price: ParsedPrice, cityId: int, now: int): (r: seq<Subscriber>)
    ensures forall u :: u in r <==> u in users && Eligible(u, price, cityId, now)
  {
    Filter(users, (u: Subscriber) => Eligible(u, price, cityId, now))
  }

  /** A subscriber's title filter: an empty or blank query lets every title
      through; otherwise the normalised query must occur in the normalised title. */
  predicate QueryMatches(query: string, normalizedTitle: string)
  {
    Trim(query) == "" || Contains(normalizedTitle, NormalizeText(query))
  }

  function QueryFilter(normalizedTitle: string): Subscriber -> bool
  {
    (u: Subscriber) => QueryMatches(u.filters.query, normalizedTitle)
  }

  /** The eligible subscribers whose title filter lets `title` through. */
  function MatchedUsers(eligible: seq<Subscriber>, title: string): seq<Subscriber>
  {
    Filter(eligible, QueryFilter(NormalizeText(title)))
  }

  /** The loop that fills `matchedUsers` (bot/index.js:1008-1016). */
  method MatchUsers(eligible: seq<Subscriber>, title: string) returns (matched: seq<Subscriber>)
    ensures matched == MatchedUsers(eligible, title)
  {
    var normalizedTitle := NormalizeText(title);
    matched := [];
    for i := 0 to |eligible|
      invariant matched == Filter(eligible[..i], QueryFilter(normalizedTitle))
    {
      FilterPrefixStep(eligible, i, QueryFilter(normalizedTitle));
      var user := eligible[i];
      var passes := PassesQuery(user.filters.query, normalizedTitle);
      if !passes {
        continue;
      }
      matched := matched + [user];
    }
    assert eligible[..|eligible|] == eligible;
  }

  /** One subscriber's query check inside that loop. */
  method PassesQuery(userQuery: string, normalizedTitle: string) returns (passes: bool)
    ensures passes == QueryMatches(userQuery, normalizedTitle)
  {
    if userQuery != "" && Trim(userQuery) != "" {
      var normalizedQuery := NormalizeText(userQuery);
      if !Contains(normalizedTitle, normalizedQuery) {
        return false;
      }
    }
    return true;
  }

  /** The matched subscribers are the eligible ones whose filter accepts the
      title, in the order the query returned them. */
  lemma MatchedAreOrderedSubset(eligible: seq<Subscriber>, title: string)
    ensures IsSubsequence(MatchedUsers(eligible, title), eligible)
    ensures forall u :: u in MatchedUsers(eligible, title) <==>
              u in eligible && QueryMatches(u.filters.query, NormalizeText(title))
  {
    FilterIsSubsequence(eligible, QueryFilter(NormalizeText(title)));
  }

  /** A subscriber with an empty or blank query matches every title. */
  lemma BlankQueryMatchesAll(eligible: seq<Subscriber>, title: string, u: Subscriber)
    requires u in eligible && AllWhitespace(u.filters.query)
    ensures u in MatchedUsers(eligible, title)
  {
    TrimEmptyIffBlank(u.filters.query);
  }

  /** A query matches any title it occurs in once both are normalised. */
  lemma QueryInTitleMatches(query: string, title: string, k: int)
    requires OccursAt(NormalizeText(title), NormalizeText(query), k)
    ensures QueryMatches(query, NormalizeText(title))
  {
    ContainsAt(NormalizeText(title), NormalizeText(query), k);
  }

  /** A number typed with Persian digits finds the listing whose title is
      that number in ASCII digits. */
  lemma PersianDigitsQueryMatches(n: nat)
    ensures QueryMatches(PersianNumeral(n), NormalizeText(DecimalString(n)))
  {
    NormalizeDigitScripts(n);
    var s := DecimalString(n);
    assert OccursAt(s, s, 0);
    ContainsAt(s, s, 0);
  }

  /** A subscriber just created from the schema's defaults expires at the
      moment of creation, so no listing reaches them before a subscription
      is granted. */
  lemma NewSubscriberIsNotEligible(chatId: int, now: int, price: ParsedPrice, cityId: int, later: int)
    requires later >= now
    ensures !Eligible(NewSubscriber(chatId, now), price, cityId, later)
  {
  }

  // ---------------------------------------------------------------------------
  // Negative words
  // ---------------------------------------------------------------------------

  /** Some negative word occurs in the listing's description, when it has
      one, or in its title. */
  predicate HasNegativeWord(words: seq<string>, title: string, description: Option<string>)
  {
    exists i :: 0 <= i < |words| &&
      ((description.Some? && Contains(description.value, words[i])) || Contains(title, words[i]))
  }

  /** Negative words apply to silver and gold subscribers only. */
  predicate ExcludedByNegativeWords(u: Subscriber, title: string, description: Option<string>)
  {
    (u.plan == Silver || u.plan == Gold) && HasNegativeWord(u.filters.negativeWords, title, description)
  }

  /** A silver or gold subscriber is spared a listing whose title contains
      one of their negative words; a bronze subscriber never is. */
  lemma NegativeWordInTitleExcludes(u: Subscriber, title: string, description: Option<string>, w: string, k: int)
    requires w in u.filters.negativeWords && OccursAt(title, w, k)
    ensures ExcludedByNegativeWords(u, title, description) <==> u.plan != Bronze
  {
    ContainsAt(title, w, k);
    var i :| 0 <= i < |u.filters.negativeWords| && u.filters.negativeWords[i] == w;
  }

  /** A listing mentioning none of the words, neither in its title nor in its
      description, is never excluded. */
  lemma NoMentionNoExclusion(u: Subscriber, title: string, description: Option<string>)
    requires forall w :: w in u.filters.negativeWords ==>
               !Contains(title, w) && (description.Some? ==> !Contains(description.value, w))
    ensures !ExcludedByNegativeWords(u, title, description)
  {
    forall i | 0 <= i < |u.filters.negativeWords|
      ensures !Contains(title, u.filters.negativeWords[i])
    {
      assert u.filters.negativeWords[i] in u.filters.negativeWords;
    }
  }

  // ---------------------------------------------------------------------------
  // Cleaning typed negative words
  // ---------------------------------------------------------------------------

  /** `,`, the Arabic comma and `-`: what the typed list is split on. */
  const NegativeWordDelimiters: set<char> := {',', '\U{060C}', '-'}

  /** The characters a negative word keeps: Arabic-script letters
      (U+0600-U+06FF), ASCII letters and digits, and whitespace. */
  predicate IsKeptChar(c: char)
  {
    ('\U{0600}' <= c <= '\U{06FF}') || ('a' <= c <= 'z') || ('A' <= c <= 'Z') || IsAsciiDigit(c) || IsWhitespace(c)
  }

  /** One typed word with every other character removed, then trimmed. */
  function CleanWord(w: string): (r: string)
    ensures forall c :: c in r ==> c in w && IsKeptChar(c)
    ensures r == [] || (!IsWhitespace(r[0]) && !IsWhitespace(r[|r| - 1]))
  {
    var kept := Filter(w, IsKeptChar);
    TrimKeepsChars(kept);
    Trim(kept)
  }

  /** A clean word: longer than one character, only kept characters, no
      delimiter, and no whitespace at either end. */
  predicate IsCleanWord(w: string)
  {
    |w| > 1 && !IsWhitespace(w[0]) && !IsWhitespace(w[|w| - 1])
    && forall c :: c in w ==> IsKeptChar(c) && c !in NegativeWordDelimiters
  }

  predicate IsLongWord(w: string) { |w| > 1 }

  /** The negative words stored for a typed list: split on the delimiters,
      cleaned, and only words longer than one character kept. */
  function CleanNegativeWords(input: string): (words: seq<string>)
    ensures forall w :: w in words ==> IsCleanWord(w)
  {
    var cleaned := Map(SplitOn(input, NegativeWordDelimiters), CleanWord);
    CleanedPiecesHaveNoDelimiter(input);
    Filter(cleaned, IsLongWord)
  }

  lemma CleanedPiecesHaveNoDelimiter(input: string)
    ensures forall w, c :: w in Map(SplitOn(input, NegativeWordDelimiters), CleanWord) && c in w ==> c !in NegativeWordDelimiters
  {
    var pieces := SplitOn(input, NegativeWordDelimiters);
    var cleaned := Map(pieces, CleanWord);
    SplitPiecesHaveNoDelimiter(input, NegativeWordDelimiters);
    forall i | 0 <= i < |cleaned| ensures forall c :: c in cleaned[i] ==> c !in NegativeWordDelimiters {
      assert pieces[i] in pieces;
      assert cleaned[i] == CleanWord(pieces[i]);
    }
  }

  /** Cleaning a clean word leaves it as it is. */
  lemma CleanWordKeepsCleanWord(w: string)
    requires IsCleanWord(w)
    ensures CleanWord(w) == w
  {
    forall j | 0 <= j < |w| ensures IsKeptChar(w[j]) {
      assert w[j] in w;
    }
    FilterAllKept(w, IsKeptChar);
    TrimOfTrimmed(w);
  }

  /** Clean words typed with commas between them are stored exactly as typed. */
  lemma TypedWordsAreStored(words: seq<string>)
    requires words != [] && forall w :: w in words ==> IsCleanWord(w)
    ensures CleanNegativeWords(Join(words, ",")) == words
  {
    var typed := Join(words, ",");
    forall w, c | w in words && c in w ensures c !in NegativeWordDelimiters {
      assert IsCleanWord(w);
    }
    SplitJoined(words, ',', NegativeWordDelimiters);
    assert SplitOn(typed, NegativeWordDelimiters) == words;
    CleanEachWord(words);
    assert CleanNegativeWords(typed) == Filter(words, IsLongWord);
    forall i | 0 <= i < |words| ensures IsLongWord(words[i]) {
      assert words[i] in words;
    }
    FilterAllKept(words, IsLongWord);
  }

  lemma CleanEachWord(words: seq<string>)
    requires forall w :: w in words ==> IsCleanWord(w)
    ensures Map(words, CleanWord) == words
  {
    var cleaned := Map(words, CleanWord);
    forall i | 0 <= i < |words| ensures cleaned[i] == words[i] {
      assert words[i] in words;
      CleanWordKeepsCleanWord(words[i]);
    }
  }

  // ---------------------------------------------------------------------------
  // The daily result limit
  // ---------------------------------------------------------------------------

  /** How many of today's listings each plan may ask for. */
  function PlanLimit(plan: Plan): (n: nat)
    ensures n >= 3
    ensures plan == Bronze ==> n == 3
    ensures plan == Silver ==> n == 10
    ensures plan == Gold ==> n == 50
  {
    match plan
    case Bronze => 3
    case Silver => 10
    case Gold => 50
  }

  /** `fetch_today_ads`: no limit (the request is refused) for an unknown,
      inactive or expired subscriber; otherwise the plan's limit. The expiry
      check here is strict: an expiry equal to `now` still passes. */
  function TodayAdsLimit(user: Option<Subscriber>, now: int): (limit: Option<nat>)
    ensures limit.None? <==> user.None? || !user.value.isActive || user.value.subscriptionExpiry < now
    ensures limit.Some? ==> limit.value == PlanLimit(user.value.plan)
  {
    if user.None? || !user.value.isActive || user.value.subscriptionExpiry < now then None
    else Some(PlanLimit(user.value.plan))
  }

  /** A better plan never gets a smaller limit. */
  lemma LimitGrowsWithPlan(p: Plan, q: Plan)
    requires PlanRank(p) <= PlanRank(q)
    ensures PlanLimit(p) <= PlanLimit(q)
  {
  }

  function PlanRank(p: Plan): nat
  {
    match p
    case Bronze => 0
    case Silver => 1
    case Gold => 2
  }
}
