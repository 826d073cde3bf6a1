/** The subscriber collection and the handlers that change it: the
    administrator's subscription buttons (admin/index.js:317-573), the
    negative-word step of the text handler (bot/index.js:770-849) and the
    deactivation of a subscriber who blocked the bot (bot/index.js:1345-1356).
    Every change is `User.updateOne({ chatId }, …)`. */
module Subscribers {
  import opened Text
  import opened Records
  import opened Matching
  import opened Admin

  /** No two subscribers share a chat id (models/User.js:6). */
  predicate UniqueChatIds(users: seq<Subscriber>)
  {
    forall i, j :: 0 <= i < j < |users| ==> users[i].chatId != users[j].chatId
  }

  /** `User.findOne({ chatId })`. */
  function Lookup(users: seq<Subscriber>, chatId: int): (r: Option<Subscriber>)
    ensures r.Some? ==> r.value in users && r.value.chatId == chatId
    ensures r.None? <==> forall i :: 0 <= i < |users| ==> users[i].chatId != chatId
  {
    FindFirst(users, (u: Subscriber) => u.chatId == chatId)
  }

  /** The collection after the record with `chatId` is overwritten by `v`. */
  function WithRecord(users: seq<Subscriber>, chatId: int, v: Subscriber): (r: seq<Subscriber>)
    ensures |r| == |users|
    ensures forall i :: 0 <= i < |users| ==> r[i] == (if users[i].chatId == chatId then v else users[i])
  {
    seq(|users|, i requires 0 <= i < |users| => if users[i].chatId == chatId then v else users[i])
  }

  /** Overwriting a record keeps chat ids unique, makes the new record the one
      found under its chat id, and changes what no other chat id finds. */
  lemma WithRecordUpdatesOne(users: seq<Subscriber>, v: Subscriber, other: int)
    requires UniqueChatIds(users)
    ensures var r := WithRecord(users, v.chatId, v);
            UniqueChatIds(r)
            && (Lookup(users, v.chatId).Some? ==> Lookup(r, v.chatId) == Some(v))
            && (Lookup(users, v.chatId).None? ==> r == users)
            && (other != v.chatId ==> Lookup(r, other) == Lookup(users, other))
  {
    WithRecordFindsNew(users, v);
    if other != v.chatId {
      WithRecordKeepsOthers(users, v, other);
    }
  }

  lemma WithRecordFindsNew(users: seq<Subscriber>, v: Subscriber)
    requires UniqueChatIds(users)
    ensures var r := WithRecord(users, v.chatId, v);
            UniqueChatIds(r)
            && (Lookup(users, v.chatId).Some? ==> Lookup(r, v.chatId) == Some(v))
            && (Lookup(users, v.chatId).None? ==> r == users)
  {
    WithRecordKeepsUnique(users, v);
    if Lookup(users, v.chatId).Some? {
      WithRecordFindsIt(users, v);
    } else {
      WithRecordOfAbsent(users, v);
    }
  }

  lemma WithRecordKeepsUnique(users: seq<Subscriber>, v: Subscriber)
    requires UniqueChatIds(users)
    ensures UniqueChatIds(WithRecord(users, v.chatId, v))
  {
    var r := WithRecord(users, v.chatId, v);
    forall i, j | 0 <= i < j < |r| ensures r[i].chatId != r[j].chatId {
      assert users[i].chatId != users[j].chatId;
    }
  }

  lemma WithRecordFindsIt(users: seq<Subscriber>, v: Subscriber)
    requires Lookup(users, v.chatId).Some?
    ensures Lookup(WithRecord(users, v.chatId, v), v.chatId) == Some(v)
  {
    var r := WithRecord(users, v.chatId, v);
    var k :| 0 <= k < |users| && users[k].chatId == v.chatId;
    assert r[k] == v;
    LookupFindsOnly(r, v.chatId, v);
  }

  lemma WithRecordOfAbsent(users: seq<Subscriber>, v: Subscriber)
    requires Lookup(users, v.chatId).None?
    ensures WithRecord(users, v.chatId, v) == users
  {
    var r := WithRecord(users, v.chatId, v);
    assert forall i :: 0 <= i < |users| ==> r[i] == users[i];
  }

  /** Writing back the record found under a chat id changes nothing. */
  lemma WithFoundRecordIsSame(users: seq<Subscriber>, chatId: int)
    requires UniqueChatIds(users) && Lookup(users, chatId).Some?
    ensures WithRecord(users, chatId, Lookup(users, chatId).value) == users
  {
    var u := Lookup(users, chatId).value;
    var r := WithRecord(users, chatId, u);
    forall i | 0 <= i < |users| ensures r[i] == users[i] {
      if users[i].chatId == chatId {
        var k :| 0 <= k < |users| && users[k] == u;
        assert k == i;
      }
    }
  }

  lemma WithRecordKeepsOthers(users: seq<Subscriber>, v: Subscriber, other: int)
    requires other != v.chatId
    ensures Lookup(WithRecord(users, v.chatId, v), other) == Lookup(users, other)
  {
    var r := WithRecord(users, v.chatId, v);
    var keep := (u: Subscriber) => u.chatId == other;
    forall i | 0 <= i < |r| ensures keep(r[i]) == keep(users[i]) && (keep(r[i]) ==> r[i] == users[i]) {
    }
    FindFirstAgrees(r, users, keep);
  }

  /** When every record with the chat id is `v`, looking it up finds `v`. */
  lemma LookupFindsOnly(users: seq<Subscriber>, chatId: int, v: Subscriber)
    requires exists i :: 0 <= i < |users| && users[i].chatId == chatId
    requires forall i :: 0 <= i < |users| && users[i].chatId == chatId ==> users[i] == v
    ensures Lookup(users, chatId) == Some(v)
  {
  }

  /** Two collections that agree on which records match, and on the matching
      records themselves, give the same first match. */
  lemma {:induction false} FindFirstAgrees(a: seq<Subscriber>, b: seq<Subscriber>, p: Subscriber -> bool)
    requires |a| == |b|
    requires forall i :: 0 <= i < |a| ==> p(a[i]) == p(b[i]) && (p(a[i]) ==> a[i] == b[i])
    ensures FindFirst(a, p) == FindFirst(b, p)
    decreases |a|
  {
    if a != [] && !p(a[0]) {
      FindFirstAgrees(a[1..], b[1..], p);
    }
  }

  /** What a delivery attempt ended with: sent, or an error carrying
      Telegram's error code when it gave one. */
  datatype SendOutcome = Sent | Failed(errorCode: Option<int>)

  /** The bot was blocked by the recipient. */
  predicate IsBlocked(o: SendOutcome)
  {
    o.Failed? && o.errorCode == Some(403)
  }

  /** The collection after a delivery to `chatId`: a 403 deactivates the
      recipient; any other outcome changes nothing (bot/index.js:1348-1356). */
  function AfterDelivery(users: seq<Subscriber>, chatId: int, outcome: SendOutcome): (r: seq<Subscriber>)
    ensures !IsBlocked(outcome) ==> r == users
  {
    if !IsBlocked(outcome) then users
    else
      match Lookup(users, chatId)
      case None => users
      case Some(u) => WithRecord(users, chatId, u.(isActive := false))
  }

  /** After a 403 the recipient is inactive, so no later listing reaches
      them; nobody else is affected. */
  lemma BlockedRecipientIsDropped(users: seq<Subscriber>, chatId: int, other: int,
                                  price: PriceText.ParsedPrice, cityId: int, now: int)
    requires UniqueChatIds(users)
    ensures var r := AfterDelivery(users, chatId, Failed(Some(403)));
            UniqueChatIds(r)
            && (forall u :: u in r && u.chatId == chatId ==> !Eligible(u, price, cityId, now))
            && (other != chatId ==> Lookup(r, other) == Lookup(users, other))
  {
    match Lookup(users, chatId)
    case None =>
      NoRecordUnder(users, chatId);
    case Some(u) =>
      var v := u.(isActive := false);
      WithRecordUpdatesOne(users, v, other);
      OnlyRecordUnder(users, v);
  }

  lemma NoRecordUnder(users: seq<Subscriber>, chatId: int)
    requires Lookup(users, chatId).None?
    ensures forall u :: u in users ==> u.chatId != chatId
  {
    forall u | u in users ensures u.chatId != chatId {
      var i :| 0 <= i < |users| && users[i] == u;
    }
  }

  lemma OnlyRecordUnder(users: seq<Subscriber>, v: Subscriber)
    ensures forall w :: w in WithRecord(users, v.chatId, v) && w.chatId == v.chatId ==> w == v
  {
    var r := WithRecord(users, v.chatId, v);
    forall w | w in r && w.chatId == v.chatId ensures w == v {
      var i :| 0 <= i < |r| && r[i] == w;
    }
  }

  const WaitingForNegatives: string := "WAITING_FOR_NEGATIVES"
  const Idle: string := "IDLE"

  class SubscriberStore {
    var users: seq<Subscriber>

    predicate Valid()
      reads this
    {
      UniqueChatIds(users)
    }

    constructor (initial: seq<Subscriber>)
      requires UniqueChatIds(initial)
      ensures users == initial && Valid()
    {
      users := initial;
    }

    function Find(chatId: int): Option<Subscriber>
      reads this
    {
      Lookup(users, chatId)
    }

    /** `User.updateOne({ chatId }, …)` leaving the subscriber as `v`; an
        unknown chat id changes nothing. */
    method Update(chatId: int, v: Subscriber)
      requires Valid() && v.chatId == chatId
      modifies this
      ensures Valid()
      ensures users == WithRecord(old(users), chatId, v)
    {
      WithRecordUpdatesOne(users, v, chatId);
      users := WithRecord(users, chatId, v);
    }

    /** gift_7 (admin/index.js:317-336). */
    method Gift(chatId: int, now: int)
      requires Valid()
      modifies this
      ensures Valid()
      ensures old(Find(chatId)).None? ==> users == old(users)
      ensures old(Find(chatId)).Some? ==> users == WithRecord(old(users), chatId, GiftSevenDays(old(Find(chatId)).value, now))
    {
      var user := Find(chatId);
      if user.Some? {
        Update(chatId, GiftSevenDays(user.value, now));
      }
    }

    /** sub_add1 (admin/index.js:507-521). */
    method AddDay(chatId: int, now: int)
      requires Valid()
      modifies this
      ensures Valid()
      ensures old(Find(chatId)).None? ==> users == old(users)
      ensures old(Find(chatId)).Some? ==> users == WithRecord(old(users), chatId, AddOneDay(old(Find(chatId)).value, now))
    {
      var user := Find(chatId);
      if user.Some? {
        Update(chatId, AddOneDay(user.value, now));
      }
    }

    /** sub_sub1 (admin/index.js:528-544): nothing is written for an expired
        subscription. */
    method SubtractDay(chatId: int, now: int)
      requires Valid()
      modifies this
      ensures Valid()
      ensures old(Find(chatId)).None? ==> users == old(users)
      ensures old(Find(chatId)).Some? ==> users == WithRecord(old(users), chatId, SubtractOneDay(old(Find(chatId)).value, now))
    {
      var user := Find(chatId);
      if user.Some? {
        if user.value.subscriptionExpiry > now {
          Update(chatId, SubtractOneDay(user.value, now));
        } else {
          WithFoundRecordIsSame(users, chatId);
        }
      }
    }

    /** sub_renew30 (admin/index.js:549-557). */
    method Renew(chatId: int, now: int)
      requires Valid()
      modifies this
      ensures Valid()
      ensures old(Find(chatId)).None? ==> users == old(users)
      ensures old(Find(chatId)).Some? ==> users == WithRecord(old(users), chatId, RenewThirtyDays(old(Find(chatId)).value, now))
    {
      var user := Find(chatId);
      if user.Some? {
        Update(chatId, RenewThirtyDays(user.value, now));
      }
    }

    /** sub_plan_* (admin/index.js:563-573). */
    method SetPlan(chatId: int, plan: Plan, now: int)
      requires Valid()
      modifies this
      ensures Valid()
      ensures old(Find(chatId)).None? ==> users == old(users)
      ensures old(Find(chatId)).Some? ==> users == WithRecord(old(users), chatId, ChangePlan(old(Find(chatId)).value, plan, now))
    {
      var user := Find(chatId);
      if user.Some? {
        Update(chatId, ChangePlan(user.value, plan, now));
      }
    }

    /** toggle_block (admin/index.js:353-358). */
    method ToggleBlocked(chatId: int)
      requires Valid()
      modifies this
      ensures Valid()
      ensures old(Find(chatId)).None? ==> users == old(users)
      ensures old(Find(chatId)).Some? ==> users == WithRecord(old(users), chatId, ToggleBlock(old(Find(chatId)).value))
    {
      var user := Find(chatId);
      if user.Some? {
        Update(chatId, ToggleBlock(user.value));
      }
    }

    /** The text handler while a subscriber is typing negative words: a list
        with at least one clean word replaces theirs and returns them to the
        idle state; otherwise nothing changes (bot/index.js:817-849). */
    method SubmitNegativeWords(chatId: int, text: string) returns (accepted: bool)
      requires Valid()
      modifies this
      ensures Valid()
      ensures accepted <==> old(Find(chatId)).Some? && old(Find(chatId)).value.state == WaitingForNegatives
                            && CleanNegativeWords(text) != []
      ensures !accepted ==> users == old(users)
      ensures accepted ==>
                var u := old(Find(chatId)).value;
                users == WithRecord(old(users), chatId,
                                    u.(filters := u.filters.(negativeWords := CleanNegativeWords(text)), state := Idle))
    {
      var user := Find(chatId);
      if user.None? || user.value.state != WaitingForNegatives {
        return false;
      }
      var cleanWords := CleanNegativeWords(text);
      if |cleanWords| == 0 {
        return false;
      }
      var u := user.value;
      Update(chatId, u.(filters := u.filters.(negativeWords := cleanWords), state := Idle));
      accepted := true;
    }

    /** The error branch of `sendTelegramAlert` (bot/index.js:1345-1356). */
    method RecordDelivery(chatId: int, outcome: SendOutcome)
      requires Valid()
      modifies this
      ensures Valid()
      ensures users == AfterDelivery(old(users), chatId, outcome)
    {
      if outcome.Failed? && outcome.errorCode == Some(403) {
        var user := Find(chatId);
        if user.Some? {
          Update(chatId, user.value.(isActive := false));
        }
      }
    }
  }
}
