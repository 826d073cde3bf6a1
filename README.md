# auto-moto-bot: the listing and subscriber rules, in Dafny

auto-moto-bot watches Divar's car listings city by city and forwards new
listings to Telegram subscribers. This project models the decisions it makes
on the way and proves what they promise:

- reading a listing's price text and normalising free text (`parsePriceNew`, `normalizeText`);
- reading the car's condition and specifications from the listing's detail document (`analyzeCarCondition`, `extractCarSpecs`);
- the market benchmark over the stored listings (`normalizeYear`, `getAveragePriceFromDB`);
- judging a price against that benchmark (`evaluatePrice`);
- the pass of `checkDivar` over a city's search results:
  - skipping listings already stored;
  - choosing the subscribers a listing reaches;
  - inserting the listing;
  - per-subscriber negative-word exclusion and plan redaction;
- what `sendTelegramAlert` decides: the cut description, the buttons, and switching off a subscriber who blocked the bot;
- the seller's phone lookup: contact parsing with the CAPTCHA trap, and evicting a Divar credential that Divar rejects;
- the credential pool kept in `tokens.json` (`tokenManager.js`);
- the administrator's subscription buttons, token entry and paging (`admin/index.js`);
- the cleaning of typed negative words and the daily limit of each plan.

Modules, one file each:

| file | module | models |
|---|---|---|
| text.dfy | Text | JavaScript string helpers: `trim`, `split`, `includes`, digit folding, filters |
| records.dfy | Records | the `User` and `Ad` records, Mongo value comparison, `Ad` schema validation |
| lexicon.dfy | Lexicon | every literal text the bot matches or produces, and the description patterns |
| payload.dfy | Payload | the parts of Divar's detail document the bot reads |
| price.dfy | PriceText | `parsePriceNew`, `normalizeText` |
| evaluate.dfy | PriceVerdict | `evaluatePrice` |
| condition.dfy | Condition | `analyzeCarCondition` |
| specs.dfy | Specs | `extractCarSpecs` |
| benchmark.dfy | Benchmark | `normalizeYear`, `getAveragePriceFromDB` |
| credentials.dfy | Credentials | `tokenManager.js`, as the class `CredentialPool` |
| subscribers.dfy | Subscribers | the `User` collection as the class `SubscriberStore`, and the handlers that write to it |
| matching.dfy | Matching | eligibility, the title filter, negative words, the daily limits |
| dispatch.dfy | Dispatch | the per-subscriber loop and `sendTelegramAlert` |
| contact.dfy | Contact | `fetchPhoneNumber` and the `get_phone_` callback |
| scan.dfy | Scan | the loop of `checkDivar` over one city's results, with the `Ad` collection as the class `AdStore` |
| admin.dfy | Admin | the administrator's panel |

Modelling conventions:

- Time is an integer number of milliseconds, and a calendar day is 86 400 000 ms.
- Prices are integers (tomans), and `Math.round` and `Math.ceil` are written out exactly.
- A field JavaScript reads as missing or empty is the empty string, because both are falsy there.
- A value stored in Mongo is a `BsonValue`: a number or a string, and the two never compare equal.
- Code that loops and pushes in the source is a method with loop invariants, proved against a function that states its result. This covers the condition analysis, the spec extraction, `normalizeYear`, the matching loop, the redaction, the contact parsing and the city loop.
- State the source writes in place is a class: the token file, the users and the listings.
- The network, Telegram and `Math.random()` are parameters:
  - the search results are a sequence of rows;
  - the detail fetch is a function from token to detail;
  - Divar's contact reply is a function of the listing token and the credential;
  - the delivery outcome is a function of the chat id;
  - the random draw is a real in [0, 1).

## Model

| member | source | states |
|---|---|---|
| PriceText.ParsePrice | bot/utils/index.js:9 | an empty text or one containing "توافقی" is negotiable |
| PriceText.ParsePriceReadsDigits | bot/utils/index.js:8-16 | the price is the number the text's digits spell, Persian and Arabic-Indic digits taken at their value and every other character dropped; a text without digits is negotiable |
| PriceText.FoldDigitChar | bot/utils/index.js:12-13 | a character becomes an ASCII digit after both replacements exactly when it was a digit of one of the three scripts, with the same value |
| PriceText.ParsePersianNumeral | bot/utils/index.js:8-16 | a price written in Persian digits is read back as its value |
| PriceText.FoldDigits | bot/utils/index.js:37-38 | each character is replaced by its ASCII digit when it is a Persian or Arabic-Indic digit and kept otherwise; the length is kept |
| PriceText.NormalizeText | bot/utils/index.js:31-39 | the result is trimmed, no longer than the input, and holds no upper-case letter and no Persian or Arabic-Indic digit |
| PriceText.NormalizeReadsTrimmedText | bot/utils/index.js:31-39 | for any text written as leading whitespace, a trimmed middle and trailing whitespace, the result is the middle, character for character lower-cased and digit-folded |
| PriceText.NormalizedChars | bot/utils/index.js:36-38 | lower-casing then folding removes every upper-case letter and foreign digit and keeps whitespace where it was |
| PriceText.NormalizeIdempotent | bot/utils/index.js:31-39 | normalising twice is normalising once |
| PriceText.NormalizeOfTrimmedLower | bot/utils/index.js:33-38 | an already trimmed lower-case text only has its digits folded |
| PriceText.NormalizeNumeral | bot/utils/index.js:31-39 | an ASCII numeral is already normal |
| PriceText.NormalizeDigitScripts | bot/utils/index.js:37-38 | a number in Persian digits and the same number in ASCII digits normalise to the same text |
| PriceVerdict.Assess | bot/utils/index.js:240-292 | the exact price is echoed; 0 < price < 50 000 000 is fake, never a deal and tagged suspicious, before any comparison; with price 0 or no benchmark there is no tag and no deal; it is a deal exactly when tagged hot or fair |
| PriceVerdict.AssessMatchesReference | bot/utils/index.js:265-291 | the integer verdict equals the verdict computed over the real drop percentage with `Math.round` |
| PriceVerdict.DropAtLeast | bot/utils/index.js:265-266 | drop ≥ t per cent exactly when 100·(avg − price) ≥ t·avg |
| PriceVerdict.RoundedDropIsMathRound | bot/utils/index.js:279 | the printed percentage, computed in integers, is `Math.round` of the real drop |
| PriceVerdict.GoodDealBand | bot/utils/index.js:265-284 | with a benchmark and a plausible price: a deal exactly when 5 ≤ drop < 40; far below exactly when drop ≥ 40; fair exactly when 5 ≤ drop < 10; hot exactly when 10 ≤ drop < 40 |
| PriceVerdict.HotDealPercentRange | bot/utils/index.js:276-279 | a hot deal's percentage lies between 10 and 40 |
| PriceVerdict.Examples | bot/utils/index.js:246-291 | 140M against 200M is a 30% hot deal; 100 000 is suspicious whatever the benchmark; 0 gets no tag |
| Condition.ScoreRows | bot/utils/index.js:108-116 | exactly the SCORE_ROW widgets of the first LIST_DATA section, in their order there |
| Condition.LastScoreIsLast | bot/utils/index.js:127-140 | the score read for a title is that of its last row, and there is none exactly when no row has the title |
| Condition.ReadRowsSnoc | bot/utils/index.js:127-174 | the state after one more score row is that row's update of the state before it |
| Condition.ScanScoreRows | bot/utils/index.js:127-174 | the loop over the score rows leaves the parts, values and tags `ReadRows` defines |
| Condition.ReadStructuredChassis | bot/utils/index.js:177-200 | the chassis from the rows: a non-empty general score wins; otherwise front and rear parts are joined by a vertical-bar separator and tagged sealed or warned |
| Condition.ReadChassis | bot/utils/index.js:177-221 | the chassis from the rows when a chassis row exists, otherwise guessed from the description with damage tested first |
| Condition.ReadBody | bot/utils/index.js:143-232 | the body from the last body row, otherwise guessed from the description with paint tested first |
| Condition.AnalyzeCarCondition | bot/utils/index.js:89-235 | the method computes `Analyze`: the seller tag, the row tags, then the chassis and body tags, in push order |
| Condition.SellerTagLeads | bot/utils/index.js:96-99 | the first tag is the seller tag; the consumer tag appears exactly when `business_type` is "personal", the dealer tag exactly otherwise |
| Condition.GeneralChassisWins | bot/utils/index.js:178-181 | a non-empty general chassis score is the chassis; the sealed tag is pushed exactly when it reads sound or sealed, a warning otherwise, and no front or rear tag, sealed or warning |
| Condition.RowsOverrideText | bot/utils/index.js:206 | with a chassis row, the damaged-chassis text guess is never made |
| Condition.DamageMentionWins | bot/utils/index.js:206-214 | without chassis rows, a description mentioning damage gives a damaged chassis even if it also claims a sealed one |
| Condition.BodyRowWins | bot/utils/index.js:143-223 | a body row decides the body, its tag is pushed and no body guess is made |
| Condition.PaintMentionWins | bot/utils/index.js:223-227 | without a body row, a description mentioning paint or a crash gives a painted body even if it also claims a clean one |
| Condition.EngineIsLastEngineRow | bot/utils/index.js:166-173 | the engine is the last engine row's score, or unknown when there is none |
| Condition.NothingKnown | bot/utils/index.js:89-94 | with no score rows and a description matching no pattern, only the seller tag is pushed and chassis, body and engine stay unknown |
| Condition.TagsByOrigin | bot/utils/index.js:89-235 | every tag is the seller tag, a row tag, a chassis tag or a body guess |
| Condition.SellerTagsStandApart | bot/utils/index.js:99-100 | the seller tags are no row, chassis or body tag |
| Condition.SealedTagsStandApart | bot/utils/index.js:180-193 | the sealed-chassis tags differ from each other and from every row, body, seller and warning tag |
| Condition.DamagedGuessStandsApart | bot/utils/index.js:212 | the damaged-chassis guess is no tag any rule of the rows pushes |
| Condition.BodyGuessesStandApart | bot/utils/index.js:226-229 | the two body guesses are neither row nor chassis tags and differ |
| Specs.ReadGroupItems | bot/utils/index.js:309-313 | year and mileage are the last items with their titles, unknown without one; every other item is kept in order |
| Specs.ReadSpecRows | bot/utils/index.js:321-329 | rows with a title and a value, other than the base price, are appended in order |
| Specs.ExtractCarSpecs | bot/utils/index.js:294-336 | the method returns `ExtractSpecs` |
| Specs.LastValueIsLast | bot/utils/index.js:309-312 | the value read for a title is that of the last item with it, none exactly when no item has it |
| Specs.ExtraSpecsMembership | bot/utils/index.js:294-329 | a pair is listed exactly when it is a group item other than year and mileage, or a titled and valued UNEXPANDABLE_ROW other than the base price |
| Specs.YearAndMileageAreLast | bot/utils/index.js:295-312 | year and mileage default to "نامشخص" and otherwise are the last group item's value |
| Specs.ExtraSpecsOrder | bot/utils/index.js:308-329 | the group's specifications come first, in their order |
| Benchmark.NormalizedYear | bot/utils/AveragePrice.js:4-23 | same length; each Persian digit becomes its ASCII digit and every other character stays |
| Benchmark.NormalizeYear | bot/utils/AveragePrice.js:18-22 | the ten global replacements compute `NormalizedYear` |
| Benchmark.NormalizedYearOfPersianNumeral | bot/utils/AveragePrice.js:4-23 | a year in Persian digits becomes the same year in ASCII digits |
| Benchmark.YearNumberOfNumerals | bot/index.js:1101 | "1400" and "۱۴۰۰" are stored as the same year |
| Benchmark.MeanWithinBounds | bot/utils/AveragePrice.js:74 | the rounded mean lies between any lower and upper bound of the prices |
| Benchmark.RoundedMeanIsMathRound | bot/utils/AveragePrice.js:74 | the integer rounding is `Math.round` of the real average |
| Benchmark.QualifyingPrices | bot/utils/AveragePrice.js:43-56 | every counted price is above the floor |
| Benchmark.Aggregate | bot/utils/AveragePrice.js:39-87 | 0 or above the floor; non-zero exactly when the store is readable and at least three listings qualify |
| Benchmark.AveragePrice | bot/utils/AveragePrice.js:30-88 | 0 when the model or year is missing or the store fails; otherwise 0 or above the floor |
| Benchmark.BenchmarkNeedsThreeSamples | bot/utils/AveragePrice.js:73-81 | there is a benchmark exactly when at least three listings qualify |
| Benchmark.BenchmarkIsRoundedMean | bot/utils/AveragePrice.js:57-75 | the benchmark is `Math.round` of the qualifying prices' mean and lies between their bounds |
| Benchmark.StoredListingIsCounted | bot/utils/AveragePrice.js:43-56 | a listing of the same model and year, within 14 days and above the floor, is counted; the as-written query never counts it |
| Benchmark.AsWrittenAlwaysZero | bot/utils/AveragePrice.js:48 | matching the year as a string against numeric years makes the benchmark always 0 |
| Credentials.Evict | bot/utils/tokenManager.js:33 | the bad token is gone and every other token is kept |
| Credentials.Pick | bot/utils/tokenManager.js:23-28 | none exactly for an empty pool, otherwise a member of the pool |
| Credentials.PickIndex | bot/utils/tokenManager.js:26 | the drawn index lies in [0, n) |
| Credentials.EveryTokenCanBePicked | bot/utils/tokenManager.js:26-27 | every token is drawn by some r |
| Credentials.CredentialPool.GetTokens | bot/utils/tokenManager.js:8-15 | returns the stored list; a missing file is created holding [] |
| Credentials.CredentialPool.SaveTokens | bot/utils/tokenManager.js:18-20 | the file holds exactly the given list |
| Credentials.CredentialPool.GetRandomToken | bot/utils/tokenManager.js:23-28 | returns `Pick` of the stored list for the draw; the list is unchanged |
| Credentials.CredentialPool.RemoveBadToken | bot/utils/tokenManager.js:31-36 | the file holds the list without the bad token, and its length is returned |
| Credentials.EvictCounts | bot/utils/tokenManager.js:33 | every copy of the bad token is removed and every other token keeps its number of copies; the length drops by the bad token's count |
| Credentials.EvictKeepsOrder | bot/utils/tokenManager.js:33 | the survivors keep their order |
| Credentials.EvictAbsent | bot/utils/tokenManager.js:33-35 | evicting an absent token changes nothing |
| Credentials.EvictTwice | bot/utils/tokenManager.js:33-35 | evicting twice is evicting once |
| Records.NewSubscriber | models/User.js:6-25 | a new subscriber is active, bronze, expiring at creation, with the default filters |
| Records.CastNumber | models/Ad.js:31-35 | a number is kept and a non-numeral string fails to cast |
| Records.Validate | models/Ad.js:7-52 | a listing is accepted exactly when token, title, model and city are non-empty and the price casts to a number; the accepted record carries the token, time, year and price |
| Matching.EligibleUsers | bot/index.js:1000-1005 | exactly the active, unexpired subscribers whose ceiling admits the price (negotiable as 0) and who follow the city |
| Matching.MatchUsers | bot/index.js:1007-1016 | the loop computes `MatchedUsers` |
| Matching.PassesQuery | bot/index.js:1009-1013 | a blank query passes; otherwise the normalised query must occur in the normalised title |
| Matching.MatchedAreOrderedSubset | bot/index.js:1007-1016 | the matched subscribers are an order-preserving subsequence of the eligible ones: exactly those whose filter accepts the title |
| Matching.BlankQueryMatchesAll | bot/index.js:1010 | a subscriber with an empty or blank query matches every title |
| Matching.QueryInTitleMatches | bot/index.js:1011-1012 | a query occurring in the title once both are normalised matches |
| Matching.PersianDigitsQueryMatches | bot/index.js:1011-1012 | a number typed in Persian digits finds the title with it in ASCII digits |
| Matching.NewSubscriberIsNotEligible | bot/index.js:1002 | a subscriber with the schema's default expiry receives no listing |
| Matching.NegativeWordInTitleExcludes | bot/index.js:1160-1171 | a negative word in the title excludes the listing exactly for silver and gold |
| Matching.NoMentionNoExclusion | bot/index.js:1163-1167 | a listing mentioning none of the words is never excluded |
| Matching.CleanWord | bot/index.js:825-828 | the cleaned word keeps only Arabic-script letters, ASCII letters, digits and whitespace from the word, and is trimmed |
| Matching.CleanNegativeWords | bot/index.js:821-830 | every stored word is longer than one character, holds only kept characters and no delimiter, and is trimmed |
| Matching.CleanWordKeepsCleanWord | bot/index.js:825-828 | cleaning a clean word changes nothing |
| Matching.TypedWordsAreStored | bot/index.js:821-830 | clean words typed with commas between them are stored exactly as typed |
| Matching.PlanLimit | bot/index.js:455-457 | 3 for bronze, 10 for silver, 50 for gold |
| Matching.TodayAdsLimit | bot/index.js:450-457 | no limit exactly for an unknown, inactive or expired subscriber; otherwise the plan's limit |
| Matching.LimitGrowsWithPlan | bot/index.js:455-457 | a better plan never gets a smaller limit |
| Dispatch.Redact | bot/index.js:1176-1201 | gold sees everything; a deal is locked for bronze and silver; for a non-deal bronze loses exactly the seller-type tags, in order; silver sees a non-deal as it is |
| Dispatch.RedactFor | bot/index.js:1176-1201 | the reassignments compute `Redact` |
| Dispatch.BronzeSeesNoSellerTag | bot/index.js:1194-1201 | bronze never sees the seller tag the analysis pushes first |
| Dispatch.SafeDescription | bot/index.js:1282-1287 | a description over 300 characters becomes its first 300 followed by the marker; a shorter one is unchanged |
| Dispatch.SafeDescriptionIdempotent | bot/index.js:1282-1287 | cutting a cut description changes nothing |
| Dispatch.AlertKeyboard | bot/index.js:1293-1329 | a locked listing gets only the upgrade button; otherwise the link row first, the phone action for gold or the locked button for others, and a map row exactly when there is a map link |
| Dispatch.PhoneButtonOnlyForGold | bot/index.js:1311-1319 | the phone is offered exactly to gold on an unlocked listing; the listing is linked exactly when unlocked |
| Dispatch.GoodDealLockedBelowGold | bot/index.js:1296-1305 | a deal reaches bronze and silver with no link and no phone button |
| Dispatch.SendAlert | bot/index.js:1235-1356 | the alert is built for the subscriber, and only the delivery outcome changes the users |
| Dispatch.DispatchListing | bot/index.js:1154-1222 | the loop sends `Alerts` and leaves the users as the outcomes make them |
| Dispatch.AlertsReachTheRightSubscribers | bot/index.js:1154-1222 | an alert is sent exactly to each matched subscriber not excluded by their negative words, and it is the one their plan allows |
| Dispatch.AlertsRespectPlans | bot/index.js:1158-1201 | a bronze subscriber sees no seller tag on a non-deal; a deal is locked below gold; gold sees the listing unchanged |
| Subscribers.Lookup | models/User.js:6 | finds a record with the chat id, and none exactly when no record has it |
| Subscribers.WithRecord | bot/index.js:1353 | the record with the chat id is replaced and every other record kept |
| Subscribers.WithRecordUpdatesOne | models/User.js:6 | an update keeps chat ids unique, the updated record is found under its id, nothing else changes, and an unknown id changes nothing |
| Subscribers.AfterDelivery | bot/index.js:1348-1356 | any outcome but a 403 leaves the users unchanged |
| Subscribers.BlockedRecipientIsDropped | bot/index.js:1350-1353 | after a 403 the recipient is ineligible for every listing and nobody else is affected |
| Subscribers.SubscriberStore.Gift | admin/index.js:317-336 | the record becomes `GiftSevenDays` of itself; an unknown id changes nothing |
| Subscribers.SubscriberStore.AddDay | admin/index.js:507-521 | the record becomes `AddOneDay` of itself |
| Subscribers.SubscriberStore.SubtractDay | admin/index.js:528-544 | the record becomes `SubtractOneDay` of itself; nothing is written for an expired subscription |
| Subscribers.SubscriberStore.Renew | admin/index.js:549-557 | the record becomes `RenewThirtyDays` of itself |
| Subscribers.SubscriberStore.SetPlan | admin/index.js:563-573 | the record becomes `ChangePlan` of itself |
| Subscribers.SubscriberStore.ToggleBlocked | admin/index.js:353-358 | the record becomes `ToggleBlock` of itself |
| Subscribers.SubscriberStore.SubmitNegativeWords | bot/index.js:817-849 | accepted exactly when the subscriber is waiting for negative words and at least one clean word was typed; then the words are replaced and the state is idle; otherwise nothing changes |
| Subscribers.SubscriberStore.RecordDelivery | bot/index.js:1348-1356 | the users become `AfterDelivery` of the outcome |
| Admin.ExtensionBase | admin/index.js:322-325 | the base is the later of the current expiry and now |
| Admin.GiftSevenDays | admin/index.js:322-336 | gold, and seven days from the later of expiry and now; nothing else changes |
| Admin.AddOneDay | admin/index.js:512-521 | one day from the later of expiry and now; nothing else changes |
| Admin.SubtractOneDay | admin/index.js:532-544 | one day less while the subscription runs; an expired one is unchanged |
| Admin.RenewThirtyDays | admin/index.js:551-557 | expiry is now plus thirty days, whatever it was |
| Admin.ChangePlan | admin/index.js:567-573 | the new plan; bronze also expires now, gold and silver keep the expiry |
| Admin.ToggleBlock | admin/index.js:358 | the activity flag is negated and nothing else changes |
| Admin.AddThenSubtract | admin/index.js:507-544 | adding then taking a day restores a running subscription, and leaves an expired one expiring now |
| Admin.SubtractThenAddLosesNothing | admin/index.js:507-544 | taking then adding a day never leaves less time than before |
| Admin.ToggleTwice | admin/index.js:353-358 | blocking twice restores the subscriber |
| Admin.BronzeEndsDelivery | admin/index.js:567-573 | a subscriber demoted to bronze gets no further listing and may not ask for today's listings |
| Admin.GiftMakesEligible | admin/index.js:322-336 | a gift makes an active subscriber eligible for at least a week |
| Admin.DaysLeft | admin/index.js:443-455 | days are shown exactly for a future expiry, and are the least n ≥ 1 with n days covering the time left |
| Admin.RenewalShowsThirtyDays | admin/index.js:549-557 | after a renewal the panel shows thirty days |
| Admin.GiftShowsSevenMoreDays | admin/index.js:322-336 | a gift shows seven days on an expired subscriber and seven more on a running one |
| Admin.ParseTokenInput | admin/index.js:24-28 | every taken token is longer than ten characters, trimmed and free of newlines |
| Admin.TokenIsTrimmedLine | admin/index.js:25-28 | a token is taken exactly when it is the trimmed form of a line and longer than ten characters |
| Admin.PastedTokensAreRead | admin/index.js:24-28 | tokens pasted one per line are read back exactly |
| Admin.TokenSubmission | admin/index.js:17-42 | saved exactly when the text is not `/cancel` and holds a usable token, with their count |
| Admin.SubmitTokens | admin/index.js:17-42 | on saving the pool holds exactly the typed tokens; otherwise it is unchanged |
| Admin.PageNumber | admin/index.js:165 | the page is at least 1, and the number in the button's data when it is positive |
| Admin.TotalPages | admin/index.js:185 | the least number of five-user pages holding every user, and 1 for none |
| Admin.PageOf | admin/index.js:166-191 | page n lists the users from position (n − 1) × 5 on, in order: five of them, or as many as remain |
| Admin.FirstPagesArePrefix | admin/index.js:166-191 | the first n pages are the first 5·n users |
| Admin.PagesCoverEveryUser | admin/index.js:185-191 | paging through all pages lists every user once, in order |
| Admin.EveryUserHasAPage | admin/index.js:165-191 | the user at position i is on page i/5 + 1, which exists |
| Admin.PaginationRow | admin/index.js:245-262 | a previous button exactly when page > 1, a next button exactly when page < totalPages, the position always, and the targets page − 1 and page + 1 |
| Payload.FindSection | bot/utils/index.js:105-107 | the first section with the name, none exactly when no section has it |
| Payload.FindWidget | bot/index.js:1080-1082 | the first widget of the kind, none exactly when no widget is of that kind |
| Payload.TitleText | bot/index.js:1062-1066 | the text of the first EXPANDABLE_SECTION of the first TITLE section, "" when either is missing |
| Payload.DescriptionOrPlaceholder | bot/index.js:1073-1074 | the description when present, otherwise the placeholder, and never empty |
| Payload.PublishTimeText | bot/index.js:1062-1066 | the TITLE text up to its first line break, or "لحظاتی پیش" when that first line is empty; never empty and never holding a line break |
| Payload.MapUrl | bot/index.js:1077-1093 | a link exactly when the first MAP section's first MAP_ROW carries a point, and then the Google Maps prefix, the latitude, a comma and the longitude |
| Contact.ContactOf | bot/index.js:912-913 | the phone is kept and a missing title reads "شماره" |
| Contact.ParseContacts | bot/index.js:906-919 | the loop computes `ContactList` |
| Contact.ContactListMembers | bot/index.js:906-919 | a contact is listed exactly when a CALL_PHONE row with a number gives it |
| Contact.FetchPhoneNumber | bot/index.js:868-927 | a CAPTCHA demand is thrown as 403; a failed request is rethrown with its status; the contacts are returned when there are any; null exactly when an answer has none |
| Contact.PhoneLookup | bot/index.js:614-695 | an empty pool or an empty token drawn (`!divarToken`) aborts with the system-updating reply exactly, before any request; an inactive subscriber is refused with the pool kept; a retry reports the number of credentials left |
| Contact.GetPhone | bot/index.js:614-695 | the callback gives the answer `PhoneLookup` gives and leaves the pool it gives |
| Contact.EvictsExactlyRejectedCredential | bot/index.js:666-674 | the credential used is evicted exactly when the reply is 401, 403, 429 or a CAPTCHA demand, and then the subscriber is told to retry |
| Contact.CaptchaEvictsCredential | bot/index.js:895-901 | a CAPTCHA demand costs the credential its place |
| Contact.NoRequestWithoutCredentialOrSubscription | bot/index.js:617-634 | with no credential or no subscription the outcome does not depend on Divar |
| Contact.PoolShrinksOnlyOnRejection | bot/index.js:666-674 | only a rejection shrinks the pool, and then to an order-preserving part of it |
| Scan.InsertAd | models/Ad.js:7-12 | inserted exactly when valid and the token is new; a valid listing with a stored token is a duplicate-key error |
| Scan.InsertKeepsTokensUnique | models/Ad.js:7-12 | an insert keeps tokens unique and leaves the token stored when accepted or a duplicate |
| Scan.AdStore.Create | bot/index.js:1096-1120 | the store grows exactly by the accepted listing |
| Scan.ExactPrice | bot/index.js:1047 | the corrected stored price: the detail's price when set, else the listed amount, else 0 |
| Scan.ExactPriceAgreesWhenPriced | bot/index.js:1047 | the as-written and corrected prices differ exactly on a negotiable listing without a detail price |
| Scan.NegotiableNeverStoredAsWritten | bot/index.js:1047 | as written, a negotiable listing without a detail price fails validation and is never stored |
| Scan.AdInputFor | bot/index.js:1096-1120 | the stored document carries the row's token, title and city, and the detail's model or else the normalised title; its price is a number exactly when the build is corrected or the listing is priced, and otherwise the string "توافقی" |
| Scan.VerdictFor | bot/index.js:1055-1060 | as written the benchmark is 0, so no listing is a good deal and the only tag is the fake-price one |
| Scan.OfferFor | bot/index.js:1147-1151 | the price shown is the placeholder exactly for a fake price; the offer carries the row's token, title and raw description |
| Scan.Announce | bot/index.js:1134-1222 | the alerts are those for the row's recipients, and the users are as the deliveries leave them |
| Scan.HandleDetail | bot/index.js:1028-1222 | the store is as the insert leaves it; a duplicate key skips the row and sends nothing; otherwise the alerts go out, stored or not |
| Scan.ListingStep | bot/index.js:970-1222 | a skipped row changes no subscriber, and changes no listing unless the insert hit the unique index |
| Scan.HandleFetchedListing | bot/index.js:1028-1222 | the method leaves the stores and outcome `HandleDetail` gives |
| Scan.ProcessListing | bot/index.js:970-1222 | the loop body leaves the stores and outcome `ListingStep` gives for the chosen build |
| Scan.ScanCity | bot/index.js:969-1222 | for the chosen build, as written or corrected, the rows are handled oldest first, as `ScanRows` of the reversed list |
| Scan.StoredRowIsSkipped | bot/index.js:982-985 | a row whose token is stored is skipped and nothing changes, whatever the detail |
| Scan.HandledRowIsSkippedNextPass | bot/index.js:982-985 | a handled row is skipped on a later pass while its listing is still stored |
| Scan.NewListingStoredIffNumericPrice | bot/index.js:1096-1129 | a new post from today with a detail, token, title and city is processed, and stored exactly when the build is corrected or the listing is priced |
| Scan.NegotiableAnnouncedEveryPassAsWritten | bot/index.js:1047-1129 | as written, a negotiable listing without a detail price leaves the store unchanged, is announced, and is announced again on the next pass |
| Scan.NegotiableStoredOnceCorrected | bot/index.js:1096-1120 | corrected, the same listing is stored and skipped on a later pass while it is still stored |
| Scan.ValidationErrorStillAlerts | bot/index.js:1123-1129 | a listing refused by validation is still announced to its matched subscribers |
| Scan.AlertsGoToMatchedSubscribers | bot/index.js:1000-1222 | every alert goes to an eligible subscriber whose title filter matches and whose negative words do not exclude the listing |
| Scan.ScanOnlyAddsListings | bot/index.js:969-1222 | a pass never removes a stored listing and keeps tokens unique |
| Scan.StoredTokenSkippedLaterInPass | bot/index.js:982-985 | within a pass, a listing stored already is skipped again |

## Left out

- Stored listings never expire. The database's 14-day purge (`expireAfterSeconds` at models/Ad.js:136) is not modelled, so "a later pass" in the scan rows means a later pass while the listing is still stored; after the purge a reappearing row would be announced again.
- One time `now` serves a whole pass of `ScanCity`, while the source reads the clock again for each row (`isAdFromToday` at bot/index.js:974, the expiry filter at bot/index.js:1002, and the store's creation time). The properties proved hold for any value of it.

- Network and I/O are inputs: the Divar search (`axios.post` in `checkDivar`), `fetchFullAdDetails`, the contact request, Telegram and `tokens.json`. A failed search simply yields no rows. The top-level catch of the city loop is not modelled.
- `isAdFromToday` and `getTodayDateStr` depend on Tehran-time locale dates. Each row carries the answer as the field `fromToday`.
- Timers, random delays and the random user agent are left out; `Math.random()` in `getRandomToken` is the parameter `r`.
- Telegram presentation is left out: menus, scenes' first steps, the broadcast, the channel-membership check, caption and HTML assembly, the phone-number reply text, the admin warning message and `Intl` number formatting.
- Strings are sequences of code points. JavaScript measures `length` and `substring` in UTF-16 units, which differ only for characters outside the Basic Multilingual Plane.
- `toLowerCase` is modelled on ASCII letters only; the texts the bot compares are Persian, which has no case.
- `trim` uses the JavaScript whitespace set.
- Floating point is replaced by exact arithmetic. `Math.round` and `Math.ceil` are written out on integers and proved equal to the real-valued formulas.
- A calendar day (`setDate`) is 86 400 000 ms; daylight-saving shifts are not modelled.
- The description patterns are modelled as the regular expressions written: alternatives of a word or `a.*b`, with `.` not crossing a line end.
- Payload shapes that would make the source throw (a missing `data.items`, a non-string title) are read as empty. A crash in a loop body is not modelled.
- `CastNumber` accepts digit strings only. Mongoose would also cast signed, decimal and spaced numerals, which never arise here.
- `StoredAd` holds only the fields the core reads back: token, model, year, price, creation time.
- `getTokens` on a file that is not valid JSON throws; the model assumes the file holds a list.
- The aggregation error in `getAveragePriceFromDB` (bot/utils/AveragePrice.js:84-87) is the store state `Unreachable`, which yields 0.
- `fetch_today_ads` is modelled only as far as its access check and plan limit (bot/index.js:450-457). Its query, sort and send (bot/index.js:459-545) are left out, because they pass arguments to `sendTelegramAlert` in an order that does not match its signature and filter by `user.cityId`, a field the schema does not have.
- `analyzeCarCondition`'s `isBadChassis` is defined but never used, so it is not modelled.
- The token scene's first step (which shows the count) and non-text messages are left out. The administrator's text is taken as a string.
- The steps of the text handler other than negative words (maximum price, search query, city) are left out.
- `mileage`, `district`, the image, `extraSpecs` text and the other display-only fields of a stored listing are not modelled.
- The delivery outcome is a function of the chat id, so two deliveries to one chat within a pass are taken to end alike.
- A missing listing token is modelled as "".
- HandleDetail, ListingStep, HandleFetchedListing, ProcessListing, ScanRows and ScanCity take a `Build`. With `AsWritten` they run the source as written. With `Corrected` they run it with the two corrections of "## Findings": `Scan.ExactPrice` and `Benchmark.AveragePrice`. Their rows hold for both builds. As written, the benchmark is always 0, so no alert is ever a good deal and the good-deal lock (`Dispatch.GoodDealLockedBelowGold`) never fires; see `Scan.VerdictFor`.

## Findings

| source | as written | input that shows it | evidently intended | confidence | as-written member | corrected member |
|---|---|---|---|---|---|---|
| bot/utils/AveragePrice.js:48 | the aggregate matches `year: englishYear`, a string, while models/Ad.js:25-29 stores `year` as a Number, and aggregation pipelines are not cast, so no listing ever qualifies | any store, e.g. three listings of model "پژو 206", year 1400, price 300 000 000, and the query ("پژو 206", "1400") | match the year as the number `parseInt(normalizeYear(year))` the listings are stored with | not executed | Benchmark.AsWrittenAlwaysZero | Benchmark.StoredListingIsCounted |
| bot/index.js:1047 | taking `webengage.price`, else the parsed price, else 0, stores the sentinel string "توافقی" as the price of a negotiable listing without a detail price; the Number cast fails, the error is only logged (bot/index.js:1123-1129), so the listing is never stored and is announced again on every pass | a row with price text "توافقی" and a detail without `webengage.price` | store a number (0) for a negotiable listing, so it is stored once and skipped while it stays stored | not executed | Scan.NegotiableAnnouncedEveryPassAsWritten | Scan.NegotiableStoredOnceCorrected |
