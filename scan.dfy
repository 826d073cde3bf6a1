/** One pass of `checkDivar` over a city's search results
    (bot/index.js:928-1232): the stored-listing check, the subscriber query
    and title filter, the detail analysis, the insert into the listing store
    and the hand-over to the per-subscriber loop. The search request, the
    detail request and Telegram are parameters: the rows, the detail for a
    token, and the delivery outcome for a chat. */
module Scan {
  import opened Text
  import L = Lexicon
  import opened Records
  import opened PriceText
  import opened Matching
  import opened Subscribers
  import Payload
  import Condition
  import Specs
  import Benchmark
  import PriceVerdict
  import Dispatch

  // ---------------------------------------------------------------------------
  // The listing store
  // ---------------------------------------------------------------------------

  /** The unique index on `token` (models/Ad.js). */
  predicate UniqueTokens(ads: seq<StoredAd>)
  {
    forall i, j :: 0 <= i < j < |ads| ==> ads[i].token != ads[j].token
  }

  predicate Stored(ads: seq<StoredAd>, token: string)
  {
    exists i :: 0 <= i < |ads| && ads[i].token == token
  }

  /** `Ad.create(input)`: the document is validated first, then the unique
      index refuses a token already stored (code 11000). */
  function InsertAd(ads: seq<StoredAd>, input: AdInput, now: int): (r: InsertResult)
    ensures r.Inserted? <==> Validate(input, now).Inserted? && !Stored(ads, input.token)
    ensures r.Inserted? ==> r == Validate(input, now)
    ensures r == Rejected(DuplicateKey) <==> Validate(input, now).Inserted? && Stored(ads, input.token)
  {
    match Validate(input, now)
    case Rejected(e) => Rejected(e)
    case Inserted(ad) => if Stored(ads, input.token) then Rejected(DuplicateKey) else Inserted(ad)
  }

  /** The store after an insert. */
  function AfterInsert(ads: seq<StoredAd>, r: InsertResult): seq<StoredAd>
  {
    if r.Inserted? then ads + [r.ad] else ads
  }

  /** An insert keeps the tokens unique and stores the token it accepts. */
  lemma InsertKeepsTokensUnique(ads: seq<StoredAd>, input: AdInput, now: int)
    requires UniqueTokens(ads)
    ensures var r := InsertAd(ads, input, now);
            UniqueTokens(AfterInsert(ads, r))
            && (r.Inserted? || r == Rejected(DuplicateKey) ==> Stored(AfterInsert(ads, r), input.token))
  {
    var r := InsertAd(ads, input, now);
    if r.Inserted? {
      var ads' := ads + [r.ad];
      assert ads'[|ads|].token == input.token;
    }
  }

  class AdStore {
    var ads: seq<StoredAd>

    predicate Valid()
      reads this
    {
      UniqueTokens(ads)
    }

    constructor ()
      ensures Valid() && ads == []
    {
      ads := [];
    }

    /** `Ad.findOne({ token })` is not null. */
    function HasToken(token: string): bool
      reads this
    {
      Stored(ads, token)
    }

    /** `Ad.create(input)`. */
    method Create(input: AdInput, now: int) returns (r: InsertResult)
      requires Valid()
      modifies this
      ensures Valid()
      ensures r == InsertAd(old(ads), input, now)
      ensures ads == AfterInsert(old(ads), r)
    {
      InsertKeepsTokensUnique(ads, input, now);
      r := InsertAd(ads, input, now);
      if r.Inserted? {
        ads := ads + [r.ad];
      }
    }
  }

  // ---------------------------------------------------------------------------
  // The price that is stored
  // ---------------------------------------------------------------------------

  /** Which program a pass runs: the source as written, or the source with
      its two defects mended — a number stored as the price of a negotiable
      listing (`ExactPrice`), and the benchmark year matched as the number
      it is stored as (`Benchmark.AveragePrice`). */
  datatype Build = AsWritten | Corrected

  /** `fullAdJson.webengage?.price || price || 0` as written, where `price`
      is `parsePriceNew(priceText)`: for a negotiable listing the sentinel
      string itself is stored (bot/index.js:1047). */
  function ExactPriceAsWritten(d: Payload.AdDetail, price: ParsedPrice): BsonValue
  {
    if d.price.Some? && d.price.value != 0 then BsonNumber(d.price.value)
    else match price
      case Negotiable => BsonString(L.Negotiable)
      case Amount(n) => BsonNumber(n)
  }

  /** Without a detail price, a negotiable listing is refused by the schema as
      written: the price "توافقی" does not cast to a number, so the listing
      is never stored and is announced again on every later pass. */
  lemma NegotiableNeverStoredAsWritten(ads: seq<StoredAd>, d: Payload.AdDetail, input: AdInput, now: int)
    requires d.price.None? || d.price == Some(0)
    requires input.price == ExactPriceAsWritten(d, Negotiable)
    ensures InsertAd(ads, input, now) == Rejected(ValidationError)
    ensures AfterInsert(ads, InsertAd(ads, input, now)) == ads
  {
    assert input.price == BsonString(L.Negotiable);
    assert !IsAsciiDigit(L.Negotiable[0]);
  }

  /** The stored price: the detail's price when set, else the listed amount,
      else 0 — always a number. */
  function ExactPrice(d: Payload.AdDetail, price: ParsedPrice): (p: int)
    ensures d.price.Some? && d.price.value != 0 ==> p == d.price.value
    ensures (d.price.None? || d.price == Some(0)) ==> p == (if price.Amount? then price.value else 0)
  {
    if d.price.Some? && d.price.value != 0 then d.price.value
    else if price.Amount? then price.value
    else 0
  }

  /** The two agree on every listing with a price; they differ exactly on a
      negotiable listing without a detail price. */
  lemma ExactPriceAgreesWhenPriced(d: Payload.AdDetail, price: ParsedPrice)
    ensures ExactPriceAsWritten(d, price) == BsonNumber(ExactPrice(d, price))
            <==> price.Amount? || (d.price.Some? && d.price.value != 0)
  {
  }

  // ---------------------------------------------------------------------------
  // One search row
  // ---------------------------------------------------------------------------

  /** A search result: its widget type, whether its sort date is today,
      `data.action.payload.token`, `data.token`, the title, the price text,
      and the image ("" stands for a missing field). */
  datatype ListingRow = ListingRow(
    widgetType: string,
    fromToday: bool,
    actionToken: string,
    dataToken: string,
    title: string,
    priceText: string,
    imageUrl: string)

  function TokenOf(row: ListingRow): string
  {
    if row.actionToken != "" then row.actionToken else row.dataToken
  }

  /** `data.middle_description_text || "توافقی"`. */
  function PriceTextOf(row: ListingRow): (t: string)
    ensures t != ""
  {
    if row.priceText != "" then row.priceText else L.Negotiable
  }

  datatype SkipReason = NotPostRow | NotToday | AlreadyStored | NoDetail | DuplicateInsert

  /** How a row ends: skipped, or stored (or refused by validation) and sent
      to the listed alerts. */
  datatype ListingOutcome = Skipped(reason: SkipReason) | Processed(stored: bool, alerts: seq<Dispatch.Alert>)

  /** The outcome and the two collections after a row. */
  datatype StepResult = StepResult(outcome: ListingOutcome, ads: seq<StoredAd>, users: seq<Subscriber>)

  /** The subscribers a row is sent to: the eligible ones whose title filter
      lets its title through. */
  function RowRecipients(users: seq<Subscriber>, row: ListingRow, cityId: int, now: int): seq<Subscriber>
  {
    MatchedUsers(EligibleUsers(users, ParsePrice(PriceTextOf(row)), cityId, now), row.title)
  }

  /** What the loop body reads off a fetched detail: the condition analysis
      and the specs (bot/index.js:1034-1035), the publication time
      (bot/index.js:1062-1066), the description shown and the map link
      (bot/index.js:1073-1093). */
  datatype Analysis = Analysis(
    detail: Payload.AdDetail,
    condition: Condition.CarCondition,
    specs: Specs.CarSpecs,
    publishTime: string,
    description: string,
    mapUrl: Option<string>)

  /** The analysis of a detail. */
  function Analyzed(d: Payload.AdDetail): (a: Analysis)
    ensures a.detail == d && a.description != "" && a.publishTime != ""
  {
    Analysis(d, Condition.Analyze(d), Specs.ExtractSpecs(d), Payload.PublishTimeText(d),
             Payload.DescriptionOrPlaceholder(d), Payload.MapUrl(d))
  }

  function AnalyzedIfFetched(detail: Option<Payload.AdDetail>): (r: Option<Analysis>)
    ensures r.Some? <==> detail.Some?
  {
    if detail.Some? then Some(Analyzed(detail.value)) else None
  }

  /** The statements that compute the analysis. */
  method AnalyzeDetail(fullAdJson: Payload.AdDetail) returns (a: Analysis)
    ensures a == Analyzed(fullAdJson)
  {
    var condition := Condition.AnalyzeCarCondition(fullAdJson);
    var specs := Specs.ExtractCarSpecs(fullAdJson);
    var publishTimeText := Payload.PublishTimeText(fullAdJson);
    var adDescription := Payload.DescriptionOrPlaceholder(fullAdJson);
    var mapUrl := Payload.MapUrl(fullAdJson);
    a := Analysis(fullAdJson, condition, specs, publishTimeText, adDescription, mapUrl);
  }

  /** The price a build stores for a row. */
  function StoredPrice(build: Build, row: ListingRow, a: Analysis): BsonValue
  {
    var price := ParsePrice(PriceTextOf(row));
    if build.AsWritten? then ExactPriceAsWritten(a.detail, price) else BsonNumber(ExactPrice(a.detail, price))
  }

  /** A row's listing has a price: the detail's, or an amount in its price
      text. */
  predicate Priced(row: ListingRow, a: Analysis)
  {
    ParsePrice(PriceTextOf(row)).Amount? || (a.detail.price.Some? && a.detail.price.value != 0)
  }

  /** The document given to `Ad.create` (bot/index.js:1095-1120). The price
      is a number whenever the listing is priced; as written, a negotiable
      listing without a detail price carries the string "توافقی". */
  function AdInputFor(build: Build, row: ListingRow, a: Analysis, cityId: int, cityName: string): (input: AdInput)
    ensures input.token == TokenOf(row) && input.title == row.title && input.city == cityName
    ensures input.brandModel == (if a.specs.brandModel != "" then a.specs.brandModel else NormalizeText(row.title))
    ensures input.price.BsonNumber? <==> build.Corrected? || Priced(row, a)
    ensures input.price.BsonString? ==> input.price == BsonString(L.Negotiable)
  {
    AdInput(TokenOf(row), row.title,
            if a.specs.brandModel != "" then a.specs.brandModel else NormalizeText(row.title),
            Benchmark.YearNumber(a.specs.year),
            StoredPrice(build, row, a),
            cityName, cityId)
  }

  /** The verdict against the benchmark read before the insert. As written
      the benchmark is always 0, so no listing is ever a good deal. */
  function VerdictFor(build: Build, ads: seq<StoredAd>, a: Analysis, now: int): (v: PriceVerdict.Verdict)
    ensures build.AsWritten? ==> !v.isGoodDeal && (v.tag == PriceVerdict.Suspicious || v.tag == PriceVerdict.NoTag)
  {
    var store := Benchmark.Reachable(ads);
    if build.AsWritten? then
      Benchmark.AsWrittenAlwaysZero(store, a.specs.brandModel, a.specs.year, now);
      PriceVerdict.EvaluatePrice(a.detail, Benchmark.AveragePriceAsWritten(store, a.specs.brandModel, a.specs.year, now))
    else
      PriceVerdict.EvaluatePrice(a.detail, Benchmark.AveragePrice(store, a.specs.brandModel, a.specs.year, now))
  }

  /** What the per-subscriber loop is given for a row. */
  function OfferFor(row: ListingRow, a: Analysis, verdict: PriceVerdict.Verdict): (o: Dispatch.Offer)
    ensures o.priceDisplay == (if verdict.isFakePrice then L.PlaceholderPriceText else PriceTextOf(row))
    ensures o.shown.token == TokenOf(row) && o.isGoodDeal == verdict.isGoodDeal
    ensures o.title == row.title && o.rawDescription == a.detail.description
    ensures o.publishTime == a.publishTime
  {
    Dispatch.Offer(
      Dispatch.Shown(TokenOf(row), row.imageUrl, a.condition.tags, verdict.tag.Label()),
      row.title,
      if verdict.isFakePrice then L.PlaceholderPriceText else PriceTextOf(row),
      verdict.isGoodDeal,
      a.detail.description,
      a.description,
      a.mapUrl,
      a.publishTime)
  }

  /** `Ad.create` for a row with its analysis. */
  function Insertion(build: Build, ads: seq<StoredAd>, row: ListingRow, a: Analysis, cityId: int, cityName: string,
                     now: int): InsertResult
  {
    InsertAd(ads, AdInputFor(build, row, a, cityId, cityName), now)
  }

  /** The alerts for a row and the subscribers after their delivery; no
      match, no alert (bot/index.js:1134, 1154-1222). */
  function Announce(users: seq<Subscriber>, row: ListingRow, o: Dispatch.Offer, cityId: int, now: int,
                    deliver: int -> SendOutcome): (r: (seq<Dispatch.Alert>, seq<Subscriber>))
    ensures r.0 == Dispatch.Alerts(RowRecipients(users, row, cityId, now), o)
    ensures r.1 == Dispatch.Delivered(users, r.0, deliver)
  {
    var matched := RowRecipients(users, row, cityId, now);
    if matched == [] then ([], users)
    else
      var alerts := Dispatch.Alerts(matched, o);
      (alerts, Dispatch.Delivered(users, alerts, deliver))
  }

  /** A row once its detail is analysed: the verdict against the benchmark
      read before the insert, the insert, and the alerts unless the insert
      hit the unique index (bot/index.js:1028-1222). */
  function HandleDetail(build: Build, ads: seq<StoredAd>, users: seq<Subscriber>, row: ListingRow, a: Analysis,
                        cityId: int, cityName: string, now: int, deliver: int -> SendOutcome): (s: StepResult)
    ensures s.ads == AfterInsert(ads, Insertion(build, ads, row, a, cityId, cityName, now))
    ensures s.outcome.Skipped? <==> Insertion(build, ads, row, a, cityId, cityName, now) == Rejected(DuplicateKey)
    ensures s.outcome.Skipped? ==> s.outcome.reason == DuplicateInsert && s.users == users
    ensures s.outcome.Processed? ==>
              s.outcome.stored == Insertion(build, ads, row, a, cityId, cityName, now).Inserted?
              && (s.outcome.alerts, s.users) == Announce(users, row, OfferFor(row, a, VerdictFor(build, ads, a, now)), cityId, now, deliver)
  {
    var verdict := VerdictFor(build, ads, a, now);
    var inserted := Insertion(build, ads, row, a, cityId, cityName, now);
    var ads' := AfterInsert(ads, inserted);
    if inserted == Rejected(DuplicateKey) then StepResult(Skipped(DuplicateInsert), ads', users)
    else
      var (alerts, users') := Announce(users, row, OfferFor(row, a, verdict), cityId, now, deliver);
      StepResult(Processed(inserted.Inserted?, alerts), ads', users')
  }

  /** One row of the loop (bot/index.js:970-1222), with the analysis of the
      detail fetched for its token and the delivery outcome of each chat. */
  function ListingStep(build: Build, ads: seq<StoredAd>, users: seq<Subscriber>, row: ListingRow, fetched: Option<Analysis>,
                       cityId: int, cityName: string, now: int, deliver: int -> SendOutcome): (s: StepResult)
    ensures s.outcome.Skipped? ==> s.users == users
    ensures s.outcome.Skipped? && s.outcome.reason != DuplicateInsert ==> s.ads == ads
  {
    if row.widgetType != L.PostRow then StepResult(Skipped(NotPostRow), ads, users)
    else if !row.fromToday then StepResult(Skipped(NotToday), ads, users)
    else if Stored(ads, TokenOf(row)) then StepResult(Skipped(AlreadyStored), ads, users)
    else if fetched.None? then StepResult(Skipped(NoDetail), ads, users)
    else HandleDetail(build, ads, users, row, fetched.value, cityId, cityName, now, deliver)
  }

  /** The part of the loop body after the detail is analysed. */
  method HandleFetchedListing(build: Build, adStore: AdStore, subs: SubscriberStore, row: ListingRow, a: Analysis,
                              matchedUsers: seq<Subscriber>, cityId: int, cityName: string, now: int,
                              deliver: int -> SendOutcome)
    returns (outcome: ListingOutcome)
    requires adStore.Valid() && subs.Valid()
    requires matchedUsers == RowRecipients(subs.users, row, cityId, now)
    modifies adStore, subs
    ensures adStore.Valid() && subs.Valid()
    ensures var s := HandleDetail(build, old(adStore.ads), old(subs.users), row, a, cityId, cityName, now, deliver);
            outcome == s.outcome && adStore.ads == s.ads && subs.users == s.users
  {
    var store := Benchmark.Reachable(adStore.ads);
    var avgPrice := if build.AsWritten? then Benchmark.AveragePriceAsWritten(store, a.specs.brandModel, a.specs.year, now)
                    else Benchmark.AveragePrice(store, a.specs.brandModel, a.specs.year, now);
    var priceEval := PriceVerdict.EvaluatePrice(a.detail, avgPrice);
    var offer := OfferFor(row, a, priceEval);
    var created := adStore.Create(AdInputFor(build, row, a, cityId, cityName), now);
    if created == Rejected(DuplicateKey) {
      return Skipped(DuplicateInsert);
    }
    if |matchedUsers| == 0 {
      return Processed(created.Inserted?, []);
    }
    var alerts := Dispatch.DispatchListing(subs, matchedUsers, offer, deliver);
    outcome := Processed(created.Inserted?, alerts);
  }

  /** The body of the loop over the search results. */
  method ProcessListing(build: Build, adStore: AdStore, subs: SubscriberStore, row: ListingRow, detail: Option<Payload.AdDetail>,
                        cityId: int, cityName: string, now: int, deliver: int -> SendOutcome)
    returns (outcome: ListingOutcome)
    requires adStore.Valid() && subs.Valid()
    modifies adStore, subs
    ensures adStore.Valid() && subs.Valid()
    ensures var s := ListingStep(build, old(adStore.ads), old(subs.users), row, AnalyzedIfFetched(detail), cityId, cityName, now, deliver);
            outcome == s.outcome && adStore.ads == s.ads && subs.users == s.users
  {
    if row.widgetType != L.PostRow {
      return Skipped(NotPostRow);
    }
    if !row.fromToday {
      return Skipped(NotToday);
    }
    var token := if row.actionToken != "" then row.actionToken else row.dataToken;
    if adStore.HasToken(token) {
      return Skipped(AlreadyStored);
    }
    var title := row.title;
    var priceText := if row.priceText != "" then row.priceText else L.Negotiable;
    var price := ParsePrice(priceText);
    var eligibleUsers := EligibleUsers(subs.users, price, cityId, now);
    var matchedUsers := MatchUsers(eligibleUsers, title);
    if detail.None? {
      return Skipped(NoDetail);
    }
    var analysis := AnalyzeDetail(detail.value);
    outcome := HandleFetchedListing(build, adStore, subs, row, analysis, matchedUsers, cityId, cityName, now, deliver);
  }

  // ---------------------------------------------------------------------------
  // What a step promises
  // ---------------------------------------------------------------------------

  /** A row whose token is already stored is skipped before its detail is
      used: nothing is sent and nothing changes, whatever the detail. */
  lemma StoredRowIsSkipped(build: Build, ads: seq<StoredAd>, users: seq<Subscriber>, row: ListingRow, fetched: Option<Analysis>,
                           cityId: int, cityName: string, now: int, deliver: int -> SendOutcome)
    requires row.widgetType == L.PostRow && row.fromToday && Stored(ads, TokenOf(row))
    ensures ListingStep(build, ads, users, row, fetched, cityId, cityName, now, deliver) == StepResult(Skipped(AlreadyStored), ads, users)
  {
  }

  /** Once a row has been handled it is not announced again: on a later pass
      over the store it left, with any subscribers and any detail, the same
      row is skipped. */
  lemma HandledRowIsSkippedNextPass(build: Build, ads: seq<StoredAd>, users: seq<Subscriber>, row: ListingRow,
                                    fetched: Option<Analysis>, cityId: int, cityName: string, now: int,
                                    deliver: int -> SendOutcome, users': seq<Subscriber>,
                                    fetched': Option<Analysis>, later: int)
    requires UniqueTokens(ads)
    requires var s := ListingStep(build, ads, users, row, fetched, cityId, cityName, now, deliver);
             s.outcome.Processed? && s.outcome.stored
    ensures var s := ListingStep(build, ads, users, row, fetched, cityId, cityName, now, deliver);
            ListingStep(build, s.ads, users', row, fetched', cityId, cityName, later, deliver).outcome == Skipped(AlreadyStored)
  {
    InsertKeepsTokensUnique(ads, AdInputFor(build, row, fetched.value, cityId, cityName), now);
  }

  /** A new post from today with a detail, a token, a title and a city
      name is stored exactly when its price is a number: always in the
      corrected build, and as written only when the listing is priced. */
  lemma NewListingStoredIffNumericPrice(build: Build, ads: seq<StoredAd>, users: seq<Subscriber>, row: ListingRow,
                                        a: Analysis, cityId: int, cityName: string, now: int,
                                        deliver: int -> SendOutcome)
    requires row.widgetType == L.PostRow && row.fromToday && !Stored(ads, TokenOf(row))
    requires TokenOf(row) != "" && row.title != "" && cityName != ""
    requires a.specs.brandModel != "" || NormalizeText(row.title) != ""
    ensures var s := ListingStep(build, ads, users, row, Some(a), cityId, cityName, now, deliver);
            s.outcome.Processed?
            && (s.outcome.stored <==> build.Corrected? || Priced(row, a))
            && (s.outcome.stored <==> Stored(s.ads, TokenOf(row)))
  {
    var input := AdInputFor(build, row, a, cityId, cityName);
    var r := InsertAd(ads, input, now);
    if input.price.BsonString? {
      assert input.price == BsonString(L.Negotiable);
      assert !IsAsciiDigit(L.Negotiable[0]);
    } else {
      assert CastNumber(input.price).Some?;
      assert (ads + [r.ad])[|ads|].token == TokenOf(row);
    }
  }

  /** As written, a negotiable listing without a detail price is refused by
      validation and still announced; the store is unchanged, so the next
      pass announces it again. */
  lemma NegotiableAnnouncedEveryPassAsWritten(ads: seq<StoredAd>, users: seq<Subscriber>, row: ListingRow,
                                              a: Analysis, cityId: int, cityName: string, now: int,
                                              deliver: int -> SendOutcome, users': seq<Subscriber>, later: int)
    requires row.widgetType == L.PostRow && row.fromToday && !Stored(ads, TokenOf(row))
    requires ParsePrice(PriceTextOf(row)).Negotiable? && (a.detail.price.None? || a.detail.price == Some(0))
    ensures var s := ListingStep(AsWritten, ads, users, row, Some(a), cityId, cityName, now, deliver);
            s.ads == ads
            && s.outcome == Processed(false, Dispatch.Alerts(RowRecipients(users, row, cityId, now),
                                                             OfferFor(row, a, VerdictFor(AsWritten, ads, a, now))))
            && ListingStep(AsWritten, s.ads, users', row, Some(a), cityId, cityName, later, deliver).outcome
               == Processed(false, Dispatch.Alerts(RowRecipients(users', row, cityId, later),
                                                   OfferFor(row, a, VerdictFor(AsWritten, ads, a, later))))
  {
    var input := AdInputFor(AsWritten, row, a, cityId, cityName);
    NegotiableNeverStoredAsWritten(ads, a.detail, input, now);
    NegotiableNeverStoredAsWritten(ads, a.detail, input, later);
  }

  /** Corrected, the same listing is stored, and a later pass over that
      store skips it. */
  lemma NegotiableStoredOnceCorrected(ads: seq<StoredAd>, users: seq<Subscriber>, row: ListingRow,
                                      a: Analysis, cityId: int, cityName: string, now: int,
                                      deliver: int -> SendOutcome, users': seq<Subscriber>,
                                      fetched': Option<Analysis>, later: int)
    requires UniqueTokens(ads)
    requires row.widgetType == L.PostRow && row.fromToday && !Stored(ads, TokenOf(row))
    requires TokenOf(row) != "" && row.title != "" && cityName != ""
    requires a.specs.brandModel != "" || NormalizeText(row.title) != ""
    ensures var s := ListingStep(Corrected, ads, users, row, Some(a), cityId, cityName, now, deliver);
            s.outcome.Processed? && s.outcome.stored
            && ListingStep(Corrected, s.ads, users', row, fetched', cityId, cityName, later, deliver).outcome
               == Skipped(AlreadyStored)
  {
    NewListingStoredIffNumericPrice(Corrected, ads, users, row, a, cityId, cityName, now, deliver);
    HandledRowIsSkippedNextPass(Corrected, ads, users, row, Some(a), cityId, cityName, now, deliver, users', fetched', later);
  }

  /** A listing refused by validation is still announced: the error is only
      logged, and the matched subscribers receive their alerts. */
  lemma ValidationErrorStillAlerts(build: Build, ads: seq<StoredAd>, users: seq<Subscriber>, row: ListingRow, a: Analysis,
                                   cityId: int, cityName: string, now: int, deliver: int -> SendOutcome)
    requires row.widgetType == L.PostRow && row.fromToday && !Stored(ads, TokenOf(row))
    requires Validate(AdInputFor(build, row, a, cityId, cityName), now).Rejected?
    ensures var s := ListingStep(build, ads, users, row, Some(a), cityId, cityName, now, deliver);
            s.outcome.Processed? && !s.outcome.stored && s.ads == ads
            && s.outcome.alerts == Dispatch.Alerts(RowRecipients(users, row, cityId, now), OfferFor(row, a, VerdictFor(build, ads, a, now)))
  {
  }

  /** Every alert of a row goes to an eligible subscriber whose title filter
      matches and whose negative words do not exclude the listing, and is the
      alert their plan allows. */
  lemma AlertsGoToMatchedSubscribers(build: Build, ads: seq<StoredAd>, users: seq<Subscriber>, row: ListingRow, a: Analysis,
                                     cityId: int, cityName: string, now: int, deliver: int -> SendOutcome,
                                     alert: Dispatch.Alert)
    requires var s := ListingStep(build, ads, users, row, Some(a), cityId, cityName, now, deliver);
             s.outcome.Processed? && alert in s.outcome.alerts
    ensures exists u :: u in users && Eligible(u, ParsePrice(PriceTextOf(row)), cityId, now)
                        && QueryMatches(u.filters.query, NormalizeText(row.title))
                        && !ExcludedByNegativeWords(u, row.title, a.detail.description)
                        && alert == Dispatch.AlertFor(u, OfferFor(row, a, VerdictFor(build, ads, a, now)))
  {
    var o := OfferFor(row, a, VerdictFor(build, ads, a, now));
    var eligible := EligibleUsers(users, ParsePrice(PriceTextOf(row)), cityId, now);
    var matched := RowRecipients(users, row, cityId, now);
    Dispatch.AlertsReachTheRightSubscribers(matched, o, alert);
    var u :| u in matched && !ExcludedByNegativeWords(u, o.title, o.rawDescription) && alert == Dispatch.AlertFor(u, o);
    assert u in eligible && QueryFilter(NormalizeText(row.title))(u);
  }

  // ---------------------------------------------------------------------------
  // A city's results
  // ---------------------------------------------------------------------------

  /** The state after the rows, in the order they are handled. */
  datatype ScanState = ScanState(outcomes: seq<ListingOutcome>, ads: seq<StoredAd>, users: seq<Subscriber>)

  /** The rows in order, each with the analysis of the detail fetched for
      its token. */
  function ScanRows(build: Build, ads: seq<StoredAd>, users: seq<Subscriber>, rows: seq<ListingRow>,
                    fetch: string -> Option<Analysis>, cityId: int, cityName: string, now: int,
                    deliver: int -> SendOutcome): (st: ScanState)
    ensures |st.outcomes| == |rows|
  {
    if rows == [] then ScanState([], ads, users)
    else
      var prev := ScanRows(build, ads, users, rows[..|rows| - 1], fetch, cityId, cityName, now, deliver);
      var row := rows[|rows| - 1];
      var s := ListingStep(build, prev.ads, prev.users, row, fetch(TokenOf(row)), cityId, cityName, now, deliver);
      ScanState(prev.outcomes + [s.outcome], s.ads, s.users)
  }

  function Reversed<T>(s: seq<T>): (r: seq<T>)
    ensures |r| == |s|
    ensures forall i :: 0 <= i < |s| ==> r[i] == s[|s| - 1 - i]
  {
    if s == [] then [] else [s[|s| - 1]] + Reversed(s[..|s| - 1])
  }

  /** The detail fetch followed by the analysis. */
  function AnalyzedFetch(details: string -> Option<Payload.AdDetail>): string -> Option<Analysis>
  {
    (t: string) => AnalyzedIfFetched(details(t))
  }

  /** `for (const widget of widgets.reverse())` for one city: the rows are
      handled oldest first (bot/index.js:969-1222); `details` stands for
      `fetchFullAdDetails`. */
  method ScanCity(build: Build, adStore: AdStore, subs: SubscriberStore, widgets: seq<ListingRow>,
                  details: string -> Option<Payload.AdDetail>, cityId: int, cityName: string, now: int,
                  deliver: int -> SendOutcome)
    returns (outcomes: seq<ListingOutcome>)
    requires adStore.Valid() && subs.Valid()
    modifies adStore, subs
    ensures adStore.Valid() && subs.Valid()
    ensures var st := ScanRows(build, old(adStore.ads), old(subs.users), Reversed(widgets), AnalyzedFetch(details),
                               cityId, cityName, now, deliver);
            outcomes == st.outcomes && adStore.ads == st.ads && subs.users == st.users
  {
    var rows := Reversed(widgets);
    outcomes := [];
    for i := 0 to |rows|
      invariant adStore.Valid() && subs.Valid()
      invariant var st := ScanRows(build, old(adStore.ads), old(subs.users), rows[..i], AnalyzedFetch(details),
                                   cityId, cityName, now, deliver);
                outcomes == st.outcomes && adStore.ads == st.ads && subs.users == st.users
    {
      var row := rows[i];
      ScanRowsStep(build, old(adStore.ads), old(subs.users), rows, i, AnalyzedFetch(details), cityId, cityName, now, deliver);
      var outcome := ProcessListing(build, adStore, subs, row, details(TokenOf(row)), cityId, cityName, now, deliver);
      outcomes := outcomes + [outcome];
    }
    assert rows[..|rows|] == rows;
  }

  /** The rows up to `i` and then row `i`. */
  lemma ScanRowsStep(build: Build, ads: seq<StoredAd>, users: seq<Subscriber>, rows: seq<ListingRow>, i: nat,
                     fetch: string -> Option<Analysis>, cityId: int, cityName: string, now: int,
                     deliver: int -> SendOutcome)
    requires i < |rows|
    ensures var prev := ScanRows(build, ads, users, rows[..i], fetch, cityId, cityName, now, deliver);
            var s := ListingStep(build, prev.ads, prev.users, rows[i], fetch(TokenOf(rows[i])), cityId, cityName, now, deliver);
            ScanRows(build, ads, users, rows[..i + 1], fetch, cityId, cityName, now, deliver)
            == ScanState(prev.outcomes + [s.outcome], s.ads, s.users)
  {
    assert rows[..i + 1][..i] == rows[..i];
  }

  /** A pass never removes a stored listing and keeps the tokens unique. */
  lemma {:induction false} ScanOnlyAddsListings(build: Build, ads: seq<StoredAd>, users: seq<Subscriber>, rows: seq<ListingRow>,
                                                fetch: string -> Option<Analysis>, cityId: int,
                                                cityName: string, now: int, deliver: int -> SendOutcome)
    requires UniqueTokens(ads)
    ensures var st := ScanRows(build, ads, users, rows, fetch, cityId, cityName, now, deliver);
            |ads| <= |st.ads| && st.ads[..|ads|] == ads && UniqueTokens(st.ads)
    decreases |rows|
  {
    if rows != [] {
      var prev := ScanRows(build, ads, users, rows[..|rows| - 1], fetch, cityId, cityName, now, deliver);
      ScanOnlyAddsListings(build, ads, users, rows[..|rows| - 1], fetch, cityId, cityName, now, deliver);
      var row := rows[|rows| - 1];
      StepOnlyAddsListing(build, prev.ads, prev.users, row, fetch(TokenOf(row)), cityId, cityName, now, deliver);
    }
  }

  /** A step stores at most its own listing, after those already stored. */
  lemma StepOnlyAddsListing(build: Build, ads: seq<StoredAd>, users: seq<Subscriber>, row: ListingRow, fetched: Option<Analysis>,
                            cityId: int, cityName: string, now: int, deliver: int -> SendOutcome)
    requires UniqueTokens(ads)
    ensures var s := ListingStep(build, ads, users, row, fetched, cityId, cityName, now, deliver);
            |ads| <= |s.ads| && s.ads[..|ads|] == ads && UniqueTokens(s.ads)
  {
    if row.widgetType == L.PostRow && row.fromToday && !Stored(ads, TokenOf(row)) && fetched.Some? {
      var input := AdInputFor(build, row, fetched.value, cityId, cityName);
      InsertKeepsTokensUnique(ads, input, now);
      var ads' := AfterInsert(ads, InsertAd(ads, input, now));
      assert ads'[..|ads|] == ads;
    }
  }

  /** Within one pass a listing is announced at most once: a stored token
      stays stored for the rest of the pass, so a later row carrying it is
      skipped. */
  lemma StoredTokenSkippedLaterInPass(build: Build, ads: seq<StoredAd>, users: seq<Subscriber>, rows: seq<ListingRow>,
                                      fetch: string -> Option<Analysis>, cityId: int, cityName: string,
                                      now: int, deliver: int -> SendOutcome, row: ListingRow)
    requires UniqueTokens(ads) && Stored(ads, TokenOf(row))
    requires row.widgetType == L.PostRow && row.fromToday
    ensures var st := ScanRows(build, ads, users, rows, fetch, cityId, cityName, now, deliver);
            Stored(st.ads, TokenOf(row))
            && ScanRows(build, ads, users, rows + [row], fetch, cityId, cityName, now, deliver).outcomes
               == st.outcomes + [Skipped(AlreadyStored)]
  {
    var st := ScanRows(build, ads, users, rows, fetch, cityId, cityName, now, deliver);
    ScanOnlyAddsListings(build, ads, users, rows, fetch, cityId, cityName, now, deliver);
    var i :| 0 <= i < |ads| && ads[i].token == TokenOf(row);
    assert st.ads[i] == st.ads[..|ads|][i];
    assert (rows + [row])[..|rows|] == rows;
  }
}
