/** The administrator's panel (admin/index.js): what the subscription buttons
    do to a subscriber, how many days a subscription has left, how the token
    list an administrator types is read, and how the user lists are paged.
    Dates are milliseconds; adding a calendar day adds `Day`. */
module Admin {
  import opened Text
  import opened Records
  import opened Matching
  import opened Credentials

  // ---------------------------------------------------------------------------
  // Subscription changes
  // ---------------------------------------------------------------------------

  /** Extensions start from the current expiry when it is still in the
      future, and from now otherwise. */
  function ExtensionBase(u: Subscriber, now: int): (base: int)
    ensures base >= now && base >= u.subscriptionExpiry
    ensures base == now || base == u.subscriptionExpiry
  {
    if u.subscriptionExpiry > now then u.subscriptionExpiry else now
  }

  /** gift_7: seven more days, and the gold plan (admin/index.js:322-336). */
  function GiftSevenDays(u: Subscriber, now: int): (v: Subscriber)
    ensures v.plan == Gold
    ensures v.subscriptionExpiry >= now + 7 * Day && v.subscriptionExpiry >= u.subscriptionExpiry + 7 * Day
    ensures v.subscriptionExpiry == now + 7 * Day || v.subscriptionExpiry == u.subscriptionExpiry + 7 * Day
    ensures v.(subscriptionExpiry := u.subscriptionExpiry, plan := u.plan) == u
  {
    u.(subscriptionExpiry := ExtensionBase(u, now) + 7 * Day, plan := Gold)
  }

  /** sub_add1: one more day from the same base (admin/index.js:512-521). */
  function AddOneDay(u: Subscriber, now: int): (v: Subscriber)
    ensures v.subscriptionExpiry >= now + Day && v.subscriptionExpiry >= u.subscriptionExpiry + Day
    ensures v.subscriptionExpiry == now + Day || v.subscriptionExpiry == u.subscriptionExpiry + Day
    ensures v.(subscriptionExpiry := u.subscriptionExpiry) == u
  {
    u.(subscriptionExpiry := ExtensionBase(u, now) + Day)
  }

  /** sub_sub1: one day less, only while the subscription runs; an expired
      subscription is left alone (admin/index.js:532-544). */
  function SubtractOneDay(u: Subscriber, now: int): (v: Subscriber)
    ensures u.subscriptionExpiry > now ==> v.subscriptionExpiry == u.subscriptionExpiry - Day
    ensures u.subscriptionExpiry <= now ==> v == u
    ensures v.(subscriptionExpiry := u.subscriptionExpiry) == u
  {
    if u.subscriptionExpiry > now then u.(subscriptionExpiry := u.subscriptionExpiry - Day) else u
  }

  /** sub_renew30: thirty days from now, whatever was left
      (admin/index.js:551-557). */
  function RenewThirtyDays(u: Subscriber, now: int): (v: Subscriber)
    ensures v.subscriptionExpiry == now + 30 * Day
    ensures v.(subscriptionExpiry := u.subscriptionExpiry) == u
  {
    u.(subscriptionExpiry := now + 30 * Day)
  }

  /** sub_plan_*: the new plan; demoting to bronze also ends the subscription
      now (admin/index.js:567-573). */
  function ChangePlan(u: Subscriber, plan: Plan, now: int): (v: Subscriber)
    ensures v.plan == plan
    ensures v.subscriptionExpiry == (if plan == Bronze then now else u.subscriptionExpiry)
    ensures v.(subscriptionExpiry := u.subscriptionExpiry, plan := u.plan) == u
  {
    if plan == Bronze then u.(plan := plan, subscriptionExpiry := now) else u.(plan := plan)
  }

  /** toggle_block: the stored activity flag negated (admin/index.js:358). */
  function ToggleBlock(u: Subscriber): (v: Subscriber)
    ensures v.isActive != u.isActive
    ensures v.(isActive := u.isActive) == u
  {
    u.(isActive := !u.isActive)
  }

  /** Adding a day to a running subscription and taking it away again
      restores it; on an expired one the pair leaves it expiring now. */
  lemma AddThenSubtract(u: Subscriber, now: int)
    ensures u.subscriptionExpiry > now ==> SubtractOneDay(AddOneDay(u, now), now) == u
    ensures u.subscriptionExpiry <= now ==> SubtractOneDay(AddOneDay(u, now), now) == u.(subscriptionExpiry := now)
  {
    var v := AddOneDay(u, now);
    assert v.subscriptionExpiry > now;
    assert v == u.(subscriptionExpiry := v.subscriptionExpiry);
  }

  /** Taking a day away and adding it back never leaves less time than before. */
  lemma SubtractThenAddLosesNothing(u: Subscriber, now: int)
    ensures AddOneDay(SubtractOneDay(u, now), now).subscriptionExpiry >= u.subscriptionExpiry
    ensures AddOneDay(SubtractOneDay(u, now), now).subscriptionExpiry > now
  {
  }

  /** Blocking twice restores the subscriber. */
  lemma ToggleTwice(u: Subscriber)
    ensures ToggleBlock(ToggleBlock(u)) == u
  {
  }

  /** A subscriber demoted to bronze receives no further listings and may not
      ask for today's listings any more. */
  lemma BronzeEndsDelivery(u: Subscriber, now: int, later: int, price: PriceText.ParsedPrice, cityId: int)
    requires later > now
    ensures !Eligible(ChangePlan(u, Bronze, now), price, cityId, later)
    ensures TodayAdsLimit(Some(ChangePlan(u, Bronze, now)), later).None?
  {
  }

  /** A gift makes an active subscriber eligible for a week at least
      (given the price and city filters let the listing through). */
  lemma GiftMakesEligible(u: Subscriber, now: int, t: int, price: PriceText.ParsedPrice)
    requires u.isActive && now <= t < now + 7 * Day
    requires u.filters.maxPrice >= (if price.Negotiable? then 0 else price.value)
    ensures Eligible(GiftSevenDays(u, now), price, u.filters.cityId, t)
  {
  }

  // ---------------------------------------------------------------------------
  // Days left
  // ---------------------------------------------------------------------------

  /** `Math.ceil(diff / day)` for a positive `diff = expiry - now`; none
      (shown as expired) otherwise (admin/index.js:443-455). */
  function DaysLeft(expiry: int, now: int): (days: Option<nat>)
    ensures days.Some? <==> expiry > now
    ensures days.Some? ==> days.value >= 1 && (days.value - 1) * Day < expiry - now <= days.value * Day
  {
    if expiry > now then Some((expiry - now + Day - 1) / Day) else None
  }

  /** After a renewal the panel shows thirty days. */
  lemma RenewalShowsThirtyDays(u: Subscriber, now: int)
    ensures DaysLeft(RenewThirtyDays(u, now).subscriptionExpiry, now) == Some(30)
  {
  }

  /** A gift to an expired subscriber shows seven days; to a running one,
      seven more than before. */
  lemma GiftShowsSevenMoreDays(u: Subscriber, now: int)
    ensures u.subscriptionExpiry <= now ==> DaysLeft(GiftSevenDays(u, now).subscriptionExpiry, now) == Some(7)
    ensures u.subscriptionExpiry > now ==>
              DaysLeft(GiftSevenDays(u, now).subscriptionExpiry, now).value == DaysLeft(u.subscriptionExpiry, now).value + 7
  {
    if u.subscriptionExpiry > now {
      var d := u.subscriptionExpiry - now;
      assert (d + 7 * Day + Day - 1) / Day == (d + Day - 1) / Day + 7 by {
        assert d + 7 * Day + Day - 1 == (d + Day - 1) + 7 * Day;
      }
    }
  }

  // ---------------------------------------------------------------------------
  // The token list an administrator types (admin/index.js:17-42)
  // ---------------------------------------------------------------------------

  const CancelCommand: string := "/cancel"

  /** Only entries longer than ten characters are taken for tokens. */
  predicate IsLongToken(t: string) { |t| > 10 }

  /** One token per line, trimmed; short entries are dropped. */
  function ParseTokenInput(input: string): (tokens: seq<string>)
    ensures forall t :: t in tokens ==> IsLongToken(t) && !IsWhitespace(t[0]) && !IsWhitespace(t[|t| - 1])
    ensures forall t :: t in tokens ==> '\n' !in t
  {
    TrimmedLinesHaveNoNewline(input);
    Filter(Map(SplitOn(input, {'\n'}), Trim), IsLongToken)
  }

  lemma TrimmedLinesHaveNoNewline(input: string)
    ensures forall t :: t in Map(SplitOn(input, {'\n'}), Trim) ==> '\n' !in t
  {
    var lines := SplitOn(input, {'\n'});
    var trimmed := Map(lines, Trim);
    SplitPiecesHaveNoDelimiter(input, {'\n'});
    forall i | 0 <= i < |trimmed| ensures '\n' !in trimmed[i] {
      assert lines[i] in lines;
      TrimKeepsChars(lines[i]);
    }
  }

  /** A token is taken exactly when it is the trimmed form of a line longer
      than ten characters once trimmed. */
  lemma TokenIsTrimmedLine(input: string, t: string)
    ensures t in ParseTokenInput(input) <==>
              IsLongToken(t) && exists line :: line in SplitOn(input, {'\n'}) && Trim(line) == t
  {
    MapMembers(SplitOn(input, {'\n'}), Trim, t);
  }

  /** Tokens pasted one per line are read back exactly. */
  lemma PastedTokensAreRead(tokens: seq<string>)
    requires tokens != []
    requires forall t :: t in tokens ==> IsLongToken(t) && '\n' !in t && !IsWhitespace(t[0]) && !IsWhitespace(t[|t| - 1])
    ensures ParseTokenInput(Join(tokens, "\n")) == tokens
  {
    SplitPastedLines(tokens);
    TrimEachToken(tokens);
    forall i | 0 <= i < |tokens| ensures IsLongToken(tokens[i]) {
      assert tokens[i] in tokens;
    }
    FilterAllKept(tokens, IsLongToken);
  }

  lemma SplitPastedLines(lines: seq<string>)
    requires lines != [] && forall t :: t in lines ==> '\n' !in t
    ensures SplitOn(Join(lines, "\n"), {'\n'}) == lines
  {
    forall t, c | t in lines && c in t ensures c !in {'\n'} {
      assert '\n' !in t;
    }
    SplitJoined(lines, '\n', {'\n'});
  }

  lemma TrimEachToken(tokens: seq<string>)
    requires forall t :: t in tokens ==> t != [] && !IsWhitespace(t[0]) && !IsWhitespace(t[|t| - 1])
    ensures Map(tokens, Trim) == tokens
  {
    var trimmed := Map(tokens, Trim);
    forall i | 0 <= i < |tokens| ensures trimmed[i] == tokens[i] {
      assert tokens[i] in tokens;
      TrimOfTrimmed(tokens[i]);
    }
  }

  datatype TokenReply = Cancelled | NoValidTokens | Saved(count: nat)

  /** The reply to the administrator's message: `/cancel` aborts, an input
      without a usable token aborts, otherwise the tokens are saved. */
  function TokenSubmission(text: string): (r: TokenReply)
    ensures r.Saved? <==> text != CancelCommand && ParseTokenInput(text) != []
    ensures r.Saved? ==> r.count == |ParseTokenInput(text)| && r.count > 0
  {
    if text == CancelCommand then Cancelled
    else
      var tokens := ParseTokenInput(text);
      if |tokens| == 0 then NoValidTokens else Saved(|tokens|)
  }

  /** The scene's second step: the pool is replaced wholesale by the typed
      tokens, or left as it was. */
  method SubmitTokens(pool: CredentialPool, text: string) returns (reply: TokenReply)
    modifies pool
    ensures reply == TokenSubmission(text)
    ensures reply.Saved? ==> pool.file == Some(ParseTokenInput(text))
    ensures !reply.Saved? ==> pool.file == old(pool.file)
  {
    if text == CancelCommand {
      return Cancelled;
    }
    var newTokens := ParseTokenInput(text);
    if |newTokens| == 0 {
      return NoValidTokens;
    }
    pool.SaveTokens(newTokens);
    reply := Saved(|newTokens|);
  }

  // ---------------------------------------------------------------------------
  // Paging the user lists (admin/index.js:163-262, 371-414)
  // ---------------------------------------------------------------------------

  const PageSize: nat := 5

  /** `parseInt(ctx.match[1]) || 1`: the page in the button's data, page 1
      when there is none or it is 0. The captured group is digits only. */
  function PageNumber(arg: Option<string>): (page: nat)
    requires arg.Some? ==> arg.value != "" && AllAsciiDigits(arg.value)
    ensures page >= 1
    ensures arg.Some? && DecimalValue(arg.value) > 0 ==> page == DecimalValue(arg.value)
  {
    if arg.None? || DecimalValue(arg.value) == 0 then 1 else DecimalValue(arg.value)
  }

  /** How many users the page's query skips. */
  function Skip(page: nat): nat
    requires page >= 1
  {
    (page - 1) * PageSize
  }

  /** `Math.ceil(total / 5) || 1`. */
  function TotalPages(total: nat): (n: nat)
    ensures n >= 1
    ensures total > 0 ==> (n - 1) * PageSize < total <= n * PageSize
    ensures total == 0 ==> n == 1
  {
    if total == 0 then 1 else (total + PageSize - 1) / PageSize
  }

  /** The users a page lists: `.skip(skip).limit(5)` over the sorted list. */
  function PageOf(users: seq<Subscriber>, page: nat): (r: seq<Subscriber>)
    requires page >= 1
    ensures |r| <= PageSize
    ensures Skip(page) + PageSize <= |users| ==> |r| == PageSize
    ensures Skip(page) + PageSize > |users| ==> |r| == if Skip(page) < |users| then |users| - Skip(page) else 0
    ensures forall k :: 0 <= k < |r| ==> Skip(page) + k < |users| && r[k] == users[Skip(page) + k]
  {
    var from := if Skip(page) < |users| then Skip(page) else |users|;
    var to := if Skip(page) + PageSize < |users| then Skip(page) + PageSize else |users|;
    users[from..to]
  }

  /** The first `n` pages, one after the other. */
  function FirstPages(users: seq<Subscriber>, n: nat): seq<Subscriber>
  {
    if n == 0 then [] else FirstPages(users, n - 1) + PageOf(users, n)
  }

  lemma {:induction false} FirstPagesArePrefix(users: seq<Subscriber>, n: nat)
    ensures FirstPages(users, n) == users[..if n * PageSize < |users| then n * PageSize else |users|]
  {
    if n > 0 {
      FirstPagesArePrefix(users, n - 1);
    }
  }

  /** Paging through all pages lists every user once, in order. */
  lemma PagesCoverEveryUser(users: seq<Subscriber>)
    ensures FirstPages(users, TotalPages(|users|)) == users
  {
    FirstPagesArePrefix(users, TotalPages(|users|));
  }

  /** The user at position `i` is on page `i / 5 + 1`, which exists. */
  lemma EveryUserHasAPage(total: nat, i: nat)
    requires i < total
    ensures var page := i / PageSize + 1;
            page <= TotalPages(total) && Skip(page) <= i < Skip(page) + PageSize
  {
  }

  datatype PageButton = Previous(target: nat) | Position(page: nat, of: nat) | Next(target: nat)

  /** The pagination row: a previous button, the position, a next button. */
  function PaginationRow(page: nat, totalPages: nat): (row: seq<PageButton>)
    requires page >= 1
    ensures row != []
    ensures row[0].Previous? <==> page > 1
    ensures row[|row| - 1].Next? <==> page < totalPages
    ensures Position(page, totalPages) in row
    ensures forall b :: b in row && b.Previous? ==> b.target == page - 1
    ensures forall b :: b in row && b.Next? ==> b.target == page + 1
  {
    (if page > 1 then [Previous(page - 1)] else [])
    + [Position(page, totalPages)]
    + (if page < totalPages then [Next(page + 1)] else [])
  }
}
