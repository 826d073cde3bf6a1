/** Revealing a seller's phone number: reading Divar's contact response
    (`fetchPhoneNumber`, bot/index.js:867-927) and the `get_phone_` callback
    that picks a Divar credential, checks the subscriber and evicts a
    credential Divar rejects (bot/index.js:615-695). The HTTP exchange is the
    parameter `respond`: the reply Divar gives for a listing token and a
    credential. */
module Contact {
  import opened Text
  import L = Lexicon
  import opened Records
  import opened Credentials
  import opened Subscribers

  // ---------------------------------------------------------------------------
  // The contact response
  // ---------------------------------------------------------------------------

  /** One widget of `widget_list`: its type, `data.action.type` when present,
      `data.title` and `data.action.payload.phone_number` ("" when missing). */
  datatype ContactWidget = ContactWidget(widgetType: string, actionType: Option<string>, title: string, phone: string)

  /** The response body: `hip_action.method` when present and the widgets. */
  datatype ContactResponse = ContactResponse(hipMethod: Option<string>, widgets: seq<ContactWidget>)

  /** What the contact endpoint answers: a body, or an error carrying an HTTP
      status when the server answered at all. */
  datatype HttpReply = Answered(body: ContactResponse) | Failed(status: Option<int>)

  datatype PhoneContact = PhoneContact(title: string, phone: string)

  /** A row that calls a phone number. */
  predicate IsCallRow(w: ContactWidget)
  {
    w.widgetType == L.UnexpandableRow && w.actionType == Some(L.CallPhone)
  }

  /** A call row that carries a number is kept. */
  predicate Kept(w: ContactWidget)
  {
    IsCallRow(w) && w.phone != ""
  }

  /** The contact a kept row gives: a missing title reads "شماره". */
  function ContactOf(w: ContactWidget): (c: PhoneContact)
    ensures c.phone == w.phone && c.title != ""
    ensures w.title != "" ==> c.title == w.title
  {
    PhoneContact(if w.title == "" then L.DefaultContactTitle else w.title, w.phone)
  }

  /** The contacts a widget list gives, in order. */
  function ContactList(widgets: seq<ContactWidget>): (r: seq<PhoneContact>)
    ensures |r| <= |widgets|
    ensures forall c :: c in r ==> c.title != "" && c.phone != ""
  {
    if widgets == [] then []
    else
      var w := widgets[|widgets| - 1];
      ContactList(widgets[..|widgets| - 1]) + (if Kept(w) then [ContactOf(w)] else [])
  }

  /** The loop over `widget_list` (bot/index.js:906-919). */
  method ParseContacts(widgetList: seq<ContactWidget>) returns (contacts: seq<PhoneContact>)
    ensures contacts == ContactList(widgetList)
  {
    contacts := [];
    for i := 0 to |widgetList|
      invariant contacts == ContactList(widgetList[..i])
    {
      assert widgetList[..i + 1][..i] == widgetList[..i];
      var widget := widgetList[i];
      if widget.widgetType == L.UnexpandableRow && widget.actionType == Some(L.CallPhone) {
        var title := if widget.title != "" then widget.title else L.DefaultContactTitle;
        var phone := widget.phone;
        if phone != "" {
          contacts := contacts + [PhoneContact(title, phone)];
        }
      }
    }
    assert widgetList[..|widgetList|] == widgetList;
  }

  /** A contact is listed exactly when some call row with a number gives it. */
  lemma {:induction false} ContactListMembers(widgets: seq<ContactWidget>, c: PhoneContact)
    ensures c in ContactList(widgets) <==> exists w :: w in widgets && Kept(w) && c == ContactOf(w)
    decreases |widgets|
  {
    if widgets != [] {
      var init, last := widgets[..|widgets| - 1], widgets[|widgets| - 1];
      ContactListMembers(init, c);
      assert widgets == init + [last];
      if w :| w in widgets && Kept(w) && c == ContactOf(w) {
        if w != last {
          assert w in init;
        }
      }
    }
  }

  /** What `fetchPhoneNumber` ends with: the contacts, null, or a thrown
      error with its status. */
  datatype Fetched = Found(contacts: seq<PhoneContact>) | NotFound | Thrown(status: Option<int>)

  /** `fetchPhoneNumber`: a CAPTCHA demand is thrown as a 403; an empty
      contact list is null; a failed request is rethrown. */
  function FetchPhoneNumber(reply: HttpReply): (r: Fetched)
    ensures reply.Answered? && reply.body.hipMethod == Some(L.Captcha) ==> r == Thrown(Some(403))
    ensures reply.Failed? ==> r == Thrown(reply.status)
    ensures r.Found? ==> r.contacts != [] && reply.Answered? && r.contacts == ContactList(reply.body.widgets)
    ensures r.NotFound? <==> reply.Answered? && reply.body.hipMethod != Some(L.Captcha) && ContactList(reply.body.widgets) == []
  {
    match reply
    case Failed(status) => Thrown(status)
    case Answered(body) =>
      if body.hipMethod == Some(L.Captcha) then Thrown(Some(403))
      else
        var contacts := ContactList(body.widgets);
        if |contacts| > 0 then Found(contacts) else NotFound
  }

  /** The statuses that mark a credential as expired, banned or throttled. */
  predicate Rejects(f: Fetched)
  {
    f.Thrown? && f.status.Some? && f.status.value in {401, 403, 429}
  }

  // ---------------------------------------------------------------------------
  // The get_phone_ callback
  // ---------------------------------------------------------------------------

  /** The answer the subscriber sees. `Retry` follows an eviction and
      carries the number of credentials left, as told to the admin. */
  datatype PhoneAnswer =
    | SystemUpdating
    | SubscriptionInactive
    | ShowContacts(contacts: seq<PhoneContact>)
    | NumberHidden
    | Retry(remaining: nat)
    | UnknownError

  /** The answer and the credential pool after the callback. */
  datatype PhoneResult = PhoneResult(answer: PhoneAnswer, pool: seq<string>)

  /** `!divarToken`: the pool is empty, or the token drawn is the empty
      string. */
  predicate NoCredential(tokens: seq<string>, r: real)
    requires 0.0 <= r < 1.0
  {
    tokens == [] || Pick(tokens, r).value == ""
  }

  predicate CanRevealPhone(user: Option<Subscriber>, now: int)
  {
    user.Some? && user.value.isActive && user.value.subscriptionExpiry >= now
  }

  /** The callback for the pool `tokens`, the draw `r`, the subscribers
      `users`, the caller `chatId` and the listing `listingToken`. */
  function PhoneLookup(tokens: seq<string>, r: real, users: seq<Subscriber>, chatId: int, now: int,
                       listingToken: string, respond: (string, string) -> HttpReply): (res: PhoneResult)
    requires 0.0 <= r < 1.0
    ensures tokens == [] ==> res == PhoneResult(SystemUpdating, [])
    ensures NoCredential(tokens, r) <==> res.answer == SystemUpdating
    ensures NoCredential(tokens, r) ==> res.pool == tokens
    ensures !NoCredential(tokens, r) && !CanRevealPhone(Lookup(users, chatId), now)
            ==> res == PhoneResult(SubscriptionInactive, tokens)
    ensures res.answer.Retry? ==> res.answer.remaining == |res.pool|
  {
    match Pick(tokens, r)
    case None => PhoneResult(SystemUpdating, tokens)
    case Some(divarToken) =>
      if divarToken == "" then PhoneResult(SystemUpdating, tokens)
      else if !CanRevealPhone(Lookup(users, chatId), now) then PhoneResult(SubscriptionInactive, tokens)
      else
        var fetched := FetchPhoneNumber(respond(listingToken, divarToken));
        if Rejects(fetched) then
          var left := Evict(tokens, divarToken);
          PhoneResult(Retry(|left|), left)
        else
          match fetched
          case Found(contacts) => PhoneResult(ShowContacts(contacts), tokens)
          case NotFound => PhoneResult(NumberHidden, tokens)
          case Thrown(_) => PhoneResult(UnknownError, tokens)
  }

  /** `bot.action(/^get_phone_(.+)$/, …)`; `Math.random()` is `r`. */
  method GetPhone(pool: CredentialPool, r: real, store: SubscriberStore, chatId: int, now: int,
                  listingToken: string, respond: (string, string) -> HttpReply)
    returns (answer: PhoneAnswer)
    requires 0.0 <= r < 1.0
    modifies pool
    ensures var res := PhoneLookup(old(pool.Stored()), r, store.users, chatId, now, listingToken, respond);
            answer == res.answer && pool.file == Some(res.pool)
  {
    var divarToken := pool.GetRandomToken(r);
    if divarToken.None? || divarToken.value == "" {
      return SystemUpdating;
    }
    var user := store.Find(chatId);
    if user.None? || !user.value.isActive || user.value.subscriptionExpiry < now {
      return SubscriptionInactive;
    }
    var contactsArray := FetchPhoneNumber(respond(listingToken, divarToken.value));
    if contactsArray.Thrown? && contactsArray.status.Some?
       && (contactsArray.status.value == 401 || contactsArray.status.value == 403 || contactsArray.status.value == 429) {
      var leftTokensCount := pool.RemoveBadToken(divarToken.value);
      return Retry(leftTokensCount);
    }
    match contactsArray
    case Found(contacts) => answer := ShowContacts(contacts);
    case NotFound => answer := NumberHidden;
    case Thrown(_) => answer := UnknownError;
  }

  /** The credential that was used is evicted exactly when Divar rejects it
      (401, 403, 429 or a CAPTCHA demand); otherwise the pool is kept. */
  lemma EvictsExactlyRejectedCredential(tokens: seq<string>, r: real, users: seq<Subscriber>, chatId: int, now: int,
                                        listingToken: string, respond: (string, string) -> HttpReply)
    requires 0.0 <= r < 1.0 && !NoCredential(tokens, r)
    requires CanRevealPhone(Lookup(users, chatId), now)
    ensures var used := Pick(tokens, r).value;
            var res := PhoneLookup(tokens, r, users, chatId, now, listingToken, respond);
            res.pool == (if Rejects(FetchPhoneNumber(respond(listingToken, used))) then Evict(tokens, used) else tokens)
            && (Rejects(FetchPhoneNumber(respond(listingToken, used))) <==> res.answer.Retry?)
            && (Rejects(FetchPhoneNumber(respond(listingToken, used))) ==> used !in res.pool)
  {
  }

  /** A CAPTCHA demand costs the credential its place in the pool. */
  lemma CaptchaEvictsCredential(tokens: seq<string>, r: real, users: seq<Subscriber>, chatId: int, now: int,
                                listingToken: string, respond: (string, string) -> HttpReply)
    requires 0.0 <= r < 1.0 && !NoCredential(tokens, r)
    requires CanRevealPhone(Lookup(users, chatId), now)
    requires var reply := respond(listingToken, Pick(tokens, r).value);
             reply.Answered? && reply.body.hipMethod == Some(L.Captcha)
    ensures Pick(tokens, r).value !in PhoneLookup(tokens, r, users, chatId, now, listingToken, respond).pool
    ensures PhoneLookup(tokens, r, users, chatId, now, listingToken, respond).answer.Retry?
  {
    EvictsExactlyRejectedCredential(tokens, r, users, chatId, now, listingToken, respond);
  }

  /** With no usable credential or an inactive subscriber no request is
      made: the outcome does not depend on Divar's answers. */
  lemma NoRequestWithoutCredentialOrSubscription(tokens: seq<string>, r: real, users: seq<Subscriber>, chatId: int,
                                                 now: int, listingToken: string,
                                                 respond: (string, string) -> HttpReply,
                                                 respond': (string, string) -> HttpReply)
    requires 0.0 <= r < 1.0
    requires NoCredential(tokens, r) || !CanRevealPhone(Lookup(users, chatId), now)
    ensures PhoneLookup(tokens, r, users, chatId, now, listingToken, respond)
         == PhoneLookup(tokens, r, users, chatId, now, listingToken, respond')
  {
  }

  /** Only a rejection shrinks the pool; every other outcome keeps it. */
  lemma PoolShrinksOnlyOnRejection(tokens: seq<string>, r: real, users: seq<Subscriber>, chatId: int, now: int,
                                   listingToken: string, respond: (string, string) -> HttpReply)
    requires 0.0 <= r < 1.0
    ensures var res := PhoneLookup(tokens, r, users, chatId, now, listingToken, respond);
            res.answer.Retry? || res.pool == tokens
    ensures var res := PhoneLookup(tokens, r, users, chatId, now, listingToken, respond);
            res.answer.Retry? ==> |res.pool| < |tokens| && IsSubsequence(res.pool, tokens)
  {
    var res := PhoneLookup(tokens, r, users, chatId, now, listingToken, respond);
    if res.answer.Retry? {
      var used := Pick(tokens, r).value;
      EvictCounts(tokens, used, used);
      EvictKeepsOrder(tokens, used);
      CountZero(tokens, used);
    }
  }
}
