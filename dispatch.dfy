/** Sending a listing to its matched subscribers: the per-subscriber loop of
    `checkDivar` (bot/index.js:1154-1229) with its negative-word exclusion and
    plan redaction, and the parts of `sendTelegramAlert` that decide what is
    sent (bot/index.js:1235-1356): the truncated description, the button
    rows, and the deactivation of a recipient who blocked the bot. */
module Dispatch {
  import opened Text
  import L = Lexicon
  import opened Records
  import opened Matching
  import opened Subscribers
  import Condition
  import Payload

  // ---------------------------------------------------------------------------
  // Redaction by plan
  // ---------------------------------------------------------------------------

  /** What a subscriber is shown of a listing: the token behind the links,
      the image, the condition tags and the price tag. */
  datatype Shown = Shown(token: string, imageUrl: string, tags: seq<string>, priceTag: string)

  /** A tag naming the seller type. */
  predicate NamesSeller(tag: string)
  {
    Contains(tag, L.DealerWord) || Contains(tag, L.ConsumerWord)
  }

  predicate KeepsForBronze(tag: string) { !NamesSeller(tag) }

  /** The locked version of a good deal. */
  const LockedDeal: Shown := Shown(L.UpgradeRequired, L.PlaceholderImage, [L.UpsellTag], L.LockedPriceTag)

  /** A good deal is locked for bronze and silver; an ordinary listing loses
      its seller-type tags for bronze; everything else is shown as it is. */
  function Redact(plan: Plan, isGoodDeal: bool, s: Shown): (r: Shown)
    ensures plan == Gold ==> r == s
    ensures isGoodDeal && plan != Gold ==> r == LockedDeal
    ensures !isGoodDeal && plan == Silver ==> r == s
    ensures !isGoodDeal && plan == Bronze ==>
              r.token == s.token && r.imageUrl == s.imageUrl && r.priceTag == s.priceTag
              && IsSubsequence(r.tags, s.tags)
              && forall t :: t in r.tags <==> t in s.tags && !NamesSeller(t)
  {
    match plan
    case Gold => s
    case Silver => if isGoodDeal then LockedDeal else s
    case Bronze =>
      if isGoodDeal then LockedDeal
      else
        FilterIsSubsequence(s.tags, KeepsForBronze);
        s.(tags := Filter(s.tags, KeepsForBronze))
  }

  /** The reassignments of `displayTags`, `displayPriceTag`, `finalToken`
      and `finalImageUrl` (bot/index.js:1176-1201). */
  method RedactFor(userPlan: Plan, isGoodDeal: bool, s: Shown) returns (r: Shown)
    ensures r == Redact(userPlan, isGoodDeal, s)
  {
    var displayTags := s.tags;
    var displayPriceTag := s.priceTag;
    var finalToken := s.token;
    var finalImageUrl := s.imageUrl;
    if isGoodDeal {
      if userPlan == Bronze || userPlan == Silver {
        displayPriceTag := L.LockedPriceTag;
        displayTags := [L.UpsellTag];
        finalToken := L.UpgradeRequired;
        finalImageUrl := L.PlaceholderImage;
      }
    } else {
      if userPlan == Bronze {
        displayTags := Filter(displayTags, KeepsForBronze);
      }
    }
    r := Shown(finalToken, finalImageUrl, displayTags, displayPriceTag);
  }

  lemma SellerTagsNameSeller()
    ensures NamesSeller(L.ConsumerTag) && NamesSeller(L.DealerTag)
  {
    assert L.ConsumerTag == "👤 " + L.ConsumerWord;
    assert OccursAt(L.ConsumerTag, L.ConsumerWord, 2);
    ContainsAt(L.ConsumerTag, L.ConsumerWord, 2);
    assert L.DealerTag == "🏢 نمایشگاه/" + L.DealerWord;
    assert OccursAt(L.DealerTag, L.DealerWord, 11);
    ContainsAt(L.DealerTag, L.DealerWord, 11);
  }

  /** A bronze subscriber never learns from an ordinary listing whether the
      seller is a dealer or a private person: the seller tag the condition
      analysis puts first is removed. */
  lemma BronzeSeesNoSellerTag(d: Payload.AdDetail, s: Shown)
    requires s.tags == Condition.Analyze(d).tags
    ensures L.ConsumerTag !in Redact(Bronze, false, s).tags
    ensures L.DealerTag !in Redact(Bronze, false, s).tags
    ensures Condition.SellerTag(d) !in Redact(Bronze, false, s).tags
  {
    SellerTagsNameSeller();
  }

  // ---------------------------------------------------------------------------
  // The description and the buttons of an alert
  // ---------------------------------------------------------------------------

  const DescriptionLimit: nat := 300

  /** The description shown: at most 300 characters of it, with a marker
      when it was cut (bot/index.js:1282-1287). */
  function SafeDescription(description: string): (r: string)
    ensures |description| <= DescriptionLimit ==> r == description
    ensures |description| > DescriptionLimit ==>
              |r| == DescriptionLimit + |L.TruncationMarker| && IsPrefix(r[..DescriptionLimit], description)
              && r[DescriptionLimit..] == L.TruncationMarker
  {
    if |description| > DescriptionLimit then description[..DescriptionLimit] + L.TruncationMarker else description
  }

  /** Cutting an already cut description changes nothing. */
  lemma SafeDescriptionIdempotent(description: string)
    ensures SafeDescription(SafeDescription(description)) == SafeDescription(description)
  {
    var r := SafeDescription(description);
    if |description| > DescriptionLimit {
      assert r[..DescriptionLimit] == description[..DescriptionLimit];
      assert r[..DescriptionLimit] + L.TruncationMarker == r;
    }
  }

  datatype Button = CallbackButton(caption: string, data: string) | UrlButton(caption: string, url: string)

  /** The inline keyboard of an alert (bot/index.js:1293-1329). */
  function AlertKeyboard(token: string, userPlan: Plan, mapUrl: Option<string>): (rows: seq<seq<Button>>)
    ensures token == L.UpgradeRequired ==> rows == [[CallbackButton(L.UpgradeLabel, L.UpgradeAction)]]
    ensures token != L.UpgradeRequired ==>
              (|rows| == 3 <==> mapUrl.Some?) && 2 <= |rows| <= 3
              && rows[0] == [UrlButton(L.OpenLinkLabel, L.DivarLinkPrefix + token)]
              && rows[1] == (if userPlan == Gold then [CallbackButton(L.GetPhoneLabel, L.GetPhoneActionPrefix + token)]
                             else [CallbackButton(L.LockedPhoneLabel, L.LockedPhoneAction)])
              && (mapUrl.Some? ==> rows[2] == [UrlButton(L.MapLabel, mapUrl.value)])
  {
    if token == L.UpgradeRequired then
      [[CallbackButton(L.UpgradeLabel, L.UpgradeAction)]]
    else
      var mainButtons := [UrlButton(L.OpenLinkLabel, L.DivarLinkPrefix + token)];
      var secondRow :=
        if userPlan == Gold then [CallbackButton(L.GetPhoneLabel, L.GetPhoneActionPrefix + token)]
        else [CallbackButton(L.LockedPhoneLabel, L.LockedPhoneAction)];
      [mainButtons, secondRow] + (if mapUrl.Some? then [[UrlButton(L.MapLabel, mapUrl.value)]] else [])
  }

  /** Some button asks for the seller's phone number. */
  predicate OffersPhone(rows: seq<seq<Button>>)
  {
    exists i, j :: 0 <= i < |rows| && 0 <= j < |rows[i]| && rows[i][j].CallbackButton?
                   && IsPrefix(L.GetPhoneActionPrefix, rows[i][j].data)
  }

  /** Some button links to the listing on Divar. */
  predicate LinksListing(rows: seq<seq<Button>>)
  {
    exists i, j :: 0 <= i < |rows| && 0 <= j < |rows[i]| && rows[i][j].UrlButton?
                   && IsPrefix(L.DivarLinkPrefix, rows[i][j].url)
  }

  /** Only gold subscribers get the phone button, and only on an unlocked
      listing. */
  lemma PhoneButtonOnlyForGold(token: string, userPlan: Plan, mapUrl: Option<string>)
    requires mapUrl.Some? ==> !IsPrefix(L.DivarLinkPrefix, mapUrl.value)
    ensures OffersPhone(AlertKeyboard(token, userPlan, mapUrl)) <==> userPlan == Gold && token != L.UpgradeRequired
    ensures LinksListing(AlertKeyboard(token, userPlan, mapUrl)) <==> token != L.UpgradeRequired
  {
    var rows: seq<seq<Button>> := AlertKeyboard(token, userPlan, mapUrl);
    assert !IsPrefix(L.GetPhoneActionPrefix, L.UpgradeAction) by { assert L.UpgradeAction[0] != L.GetPhoneActionPrefix[0]; }
    assert !IsPrefix(L.GetPhoneActionPrefix, L.LockedPhoneAction) by { assert L.LockedPhoneAction[0] != L.GetPhoneActionPrefix[0]; }
    if token != L.UpgradeRequired {
      assert IsPrefix(L.DivarLinkPrefix, rows[0][0].url);
      if userPlan == Gold {
        assert IsPrefix(L.GetPhoneActionPrefix, rows[1][0].data);
      }
    }
  }

  /** A good deal reaches bronze and silver subscribers locked: no link to
      the listing, no phone button, only the upgrade button. */
  lemma GoodDealLockedBelowGold(userPlan: Plan, s: Shown, mapUrl: Option<string>)
    requires userPlan != Gold
    ensures var r := Redact(userPlan, true, s);
            r == LockedDeal
            && AlertKeyboard(r.token, userPlan, mapUrl) == [[CallbackButton(L.UpgradeLabel, L.UpgradeAction)]]
            && !OffersPhone(AlertKeyboard(r.token, userPlan, mapUrl))
            && !LinksListing(AlertKeyboard(r.token, userPlan, mapUrl))
  {
    assert L.UpgradeAction[0] != L.GetPhoneActionPrefix[0];
  }

  // ---------------------------------------------------------------------------
  // The per-subscriber loop
  // ---------------------------------------------------------------------------

  /** A listing as the loop sends it: what every subscriber could see before
      redaction, the description as Divar gave it (for negative words), the
      description shown, the map link and the publication time. */
  datatype Offer = Offer(
    shown: Shown,
    title: string,
    priceDisplay: string,
    isGoodDeal: bool,
    rawDescription: Option<string>,
    description: string,
    mapUrl: Option<string>,
    publishTime: string)

  /** One alert: its recipient and what decides its content. */
  datatype Alert = Alert(chatId: int, title: string, priceDisplay: string, shown: Shown,
                         publishTime: string, description: string, keyboard: seq<seq<Button>>)

  /** The alert a subscriber receives. */
  function AlertFor(u: Subscriber, o: Offer): Alert
  {
    var shown := Redact(u.plan, o.isGoodDeal, o.shown);
    Alert(u.chatId, o.title, o.priceDisplay, shown, o.publishTime, SafeDescription(o.description),
          AlertKeyboard(shown.token, u.plan, o.mapUrl))
  }

  /** The alerts sent for a listing, one per matched subscriber not excluded
      by their negative words, in order. */
  function Alerts(matched: seq<Subscriber>, o: Offer): seq<Alert>
  {
    if matched == [] then []
    else
      var u := matched[|matched| - 1];
      Alerts(matched[..|matched| - 1], o)
      + (if ExcludedByNegativeWords(u, o.title, o.rawDescription) then [] else [AlertFor(u, o)])
  }

  /** The subscribers after the alerts were delivered with the given outcomes. */
  function Delivered(users: seq<Subscriber>, alerts: seq<Alert>, deliver: int -> SendOutcome): seq<Subscriber>
  {
    if alerts == [] then users
    else
      var a := alerts[|alerts| - 1];
      AfterDelivery(Delivered(users, alerts[..|alerts| - 1], deliver), a.chatId, deliver(a.chatId))
  }

  /** `sendTelegramAlert`: builds the alert and records the delivery outcome
      (Telegram's answer is the parameter `deliver`). */
  method SendAlert(store: SubscriberStore, u: Subscriber, o: Offer, shown: Shown, deliver: int -> SendOutcome)
    returns (a: Alert)
    requires store.Valid()
    requires shown == Redact(u.plan, o.isGoodDeal, o.shown)
    modifies store
    ensures store.Valid()
    ensures a == AlertFor(u, o)
    ensures store.users == AfterDelivery(old(store.users), u.chatId, deliver(u.chatId))
  {
    var description := o.description;
    var safeDescription := if |description| > DescriptionLimit then description[..DescriptionLimit] + L.TruncationMarker else description;
    var keyboard := AlertKeyboard(shown.token, u.plan, o.mapUrl);
    a := Alert(u.chatId, o.title, o.priceDisplay, shown, o.publishTime, safeDescription, keyboard);
    store.RecordDelivery(u.chatId, deliver(u.chatId));
  }

  /** The loop over `matchedUsers` (bot/index.js:1154-1229). */
  method DispatchListing(store: SubscriberStore, matched: seq<Subscriber>, o: Offer, deliver: int -> SendOutcome)
    returns (alerts: seq<Alert>)
    requires store.Valid()
    modifies store
    ensures store.Valid()
    ensures alerts == Alerts(matched, o)
    ensures store.users == Delivered(old(store.users), alerts, deliver)
  {
    alerts := [];
    for i := 0 to |matched|
      invariant store.Valid()
      invariant alerts == Alerts(matched[..i], o)
      invariant store.users == Delivered(old(store.users), alerts, deliver)
    {
      assert matched[..i + 1][..i] == matched[..i];
      var user := matched[i];
      if ExcludedByNegativeWords(user, o.title, o.rawDescription) {
        continue;
      }
      var shown := RedactFor(user.plan, o.isGoodDeal, o.shown);
      var a := SendAlert(store, user, o, shown, deliver);
      assert (alerts + [a])[..|alerts|] == alerts;
      alerts := alerts + [a];
    }
    assert matched[..|matched|] == matched;
  }

  /** Exactly the matched subscribers whose negative words do not exclude the
      listing receive an alert, and each receives the one their plan allows. */
  lemma {:induction false} AlertsReachTheRightSubscribers(matched: seq<Subscriber>, o: Offer, a: Alert)
    ensures a in Alerts(matched, o) <==>
              exists u :: u in matched && !ExcludedByNegativeWords(u, o.title, o.rawDescription) && a == AlertFor(u, o)
    decreases |matched|
  {
    if matched != [] {
      var init, u := matched[..|matched| - 1], matched[|matched| - 1];
      AlertsReachTheRightSubscribers(init, o, a);
      InitLast(matched);
      var last := if ExcludedByNegativeWords(u, o.title, o.rawDescription) then [] else [AlertFor(u, o)];
      assert Alerts(matched, o) == Alerts(init, o) + last;
      if a in Alerts(matched, o) {
        if a in Alerts(init, o) {
          var v :| v in init && !ExcludedByNegativeWords(v, o.title, o.rawDescription) && a == AlertFor(v, o);
          assert v in matched;
        } else {
          assert a in last;
        }
      }
      if v :| v in matched && !ExcludedByNegativeWords(v, o.title, o.rawDescription) && a == AlertFor(v, o) {
        if v != u {
          assert v in init;
        } else {
          assert a in last;
        }
      }
    }
  }

  /** No alert is sent to a bronze subscriber that shows a seller tag, and a
      good deal reaches no bronze or silver subscriber unlocked. */
  lemma AlertsRespectPlans(matched: seq<Subscriber>, o: Offer, u: Subscriber)
    requires u in matched && !ExcludedByNegativeWords(u, o.title, o.rawDescription)
    ensures AlertFor(u, o) in Alerts(matched, o)
    ensures u.plan == Bronze && !o.isGoodDeal ==> forall t :: t in AlertFor(u, o).shown.tags ==> !NamesSeller(t)
    ensures u.plan != Gold && o.isGoodDeal ==> AlertFor(u, o).shown == LockedDeal
    ensures u.plan == Gold ==> AlertFor(u, o).shown == o.shown
  {
    AlertsReachTheRightSubscribers(matched, o, AlertFor(u, o));
  }
}
