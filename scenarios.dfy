/** Client runs of the handlers, following the create / read / update / delete
    sequence of crud_test.py and the message and statistics checks of
    backend_test.py. Each one is proved from the handlers' contracts alone. */
module Scenarios {
  import opened Wrappers
  import opened Models
  import opened StatusEngine
  import opened Repository
  import opened Server

  /** A request body create accepts: it passes validation and its name does
      not normalise to the empty name. */
  predicate Creatable(raw: SubscriberInput)
  {
    ValidateCreate(raw).Success? && ValidateCreate(raw).value.name != ""
  }

  /** Request data as validation leaves it, within the record bounds. */
  predicate Clean(data: SubscriberCreate)
  {
    && IsNormalName(data.name) && IsNormalPhone(data.phone)
    && MinNameLength <= |data.name| <= MaxNameLength
    && MinPhoneLength <= |data.phone| <= MaxPhoneLength
  }

  /** A record stored by create is what a later read returns: it is found at
      its position, and reading it on the same day changes nothing. */
  lemma CreateThenFind(xs: seq<Subscriber>, raw: SubscriberInput, id: string, today: Date, now: Timestamp)
    requires !HasId(xs, id) && Creatable(raw)
    ensures FindIndex(xs + [NewSubscriber(ValidateCreate(raw).value, id, today, now)], id) == Some(|xs|)
    ensures ReadView(NewSubscriber(ValidateCreate(raw).value, id, today, now), today)
         == Success(NewSubscriber(ValidateCreate(raw).value, id, today, now))
  {
    var s := NewSubscriber(ValidateCreate(raw).value, id, today, now);
    CreateStoredUnlessBlank(raw, id, today, now);
    ValidateCreateNormalises(raw);
    var ys := xs + [s];
    assert forall k :: 0 <= k < |xs| ==> ys[k].id != id;
    assert ys[|xs|].id == id;
    var r := FindIndex(ys, id);
    assert r.Some? && r.value == |xs|;
    assert Rebuilds(s) && Normalised(s);
  }

  /** Create, read, rename with a new date, delete, then read again: the last
      read is not found. */
  method CrudRoundTrip(raw: SubscriberInput, newName: string, today: Date, now: Timestamp, later: Timestamp)
    requires Creatable(raw) && raw.expirationDate == today + 10
    requires MinNameLength <= |NormalizeName(newName)| <= MaxNameLength
  {
    var db := new Database();
    var created := CreateSubscriber(db, raw, "id-1", today, now);
    assert created.Success?;
    var s := created.value;
    assert s.daysRemaining == 10 && s.status == Active;
    CreateThenFind([], raw, "id-1", today, now);
    assert db.subscribers == [s];

    var read := GetSubscriber(db, "id-1", today);
    assert read == created;

    var rename := SubscriberUpdateInput(None, Some(newName), None, None, Some(today + 20));
    assert ValidateUpdate(rename).Success?;
    CreateStoredUnlessBlank(raw, "id-1", today, now);
    ValidateCreateNormalises(raw);
    UpdatedRecordReadable(s, rename, today, later);
    NormalizeNameIdempotent(newName);
    var updated := UpdateSubscriber(db, "id-1", rename, today, later);
    assert updated.Success?;
    assert updated.value.name == NormalizeName(newName) && updated.value.phone == s.phone;
    assert updated.value.daysRemaining == 20 && updated.value.status == Active;
    assert updated.value.createdAt == now && updated.value.updatedAt == later;

    var removed := DeleteSubscriber(db, "id-1");
    assert removed.Success?;
    var gone := GetSubscriber(db, "id-1", today);
    assert gone == Failure(NotFound);
  }

  /** The record create builds from clean request data rebuilds to itself. */
  lemma CleanRebuilds(data: SubscriberCreate, id: string, today: Date, now: Timestamp)
    requires Clean(data)
    ensures ValidateSubscriber(NewSubscriber(data, id, today, now)) == Success(NewSubscriber(data, id, today, now))
  {
    ValidateSubscriberNormalised(NewSubscriber(data, id, today, now));
  }

  /** Every record carries the name and phone of `data`. */
  predicate FromData(xs: seq<Subscriber>, data: SubscriberCreate)
  {
    forall k :: 0 <= k < |xs| ==> xs[k].name == data.name && xs[k].phone == data.phone
  }

  lemma FromDataAppend(xs: seq<Subscriber>, s: Subscriber, data: SubscriberCreate)
    requires FromData(xs, data) && s.name == data.name && s.phone == data.phone
    ensures FromData(xs + [s], data)
  {
  }

  /** An id that no record had is still free after appending a record with another id. */
  lemma FreshAppend(xs: seq<Subscriber>, s: Subscriber, id: string)
    requires !HasId(xs, id) && s.id != id
    ensures !HasId(xs + [s], id)
  {
    var ys := xs + [s];
    assert forall k :: 0 <= k < |ys| ==> ys[k].id != id;
  }

  /** Appending a record adds one to the past-due count exactly when it is past due. */
  lemma {:induction false} PastDueAppend(xs: seq<Subscriber>, s: Subscriber, today: Date)
    ensures CountPastDue(xs + [s], today) == CountPastDue(xs, today) + if s.expirationDate < today then 1 else 0
  {
    if xs == [] {
      assert xs + [s] == [s] && [s][1..] == [];
    } else {
      PastDueAppend(xs[1..], s, today);
      assert (xs + [s])[1..] == xs[1..] + [s];
    }
  }

  /** A listing of records that all carry the name and phone of clean request
      data refuses none of them. */
  lemma CleanListed(xs: seq<Subscriber>, data: SubscriberCreate, today: Date, now: Timestamp)
    requires Clean(data) && FromData(xs, data)
    ensures FirstRejected(RefreshAll(xs, today, now)) == |xs|
  {
    ListingOfWellFormedStore(xs, today, now);
  }

  /** Creates the record for clean data with expiration date `e` under an id
      no record has: the store grows by that record, and counts it past due
      when it is. */
  method AddFromData(db: Database, data: SubscriberCreate, e: Date, id: string, today: Date, now: Timestamp)
    returns (s: Subscriber)
    requires Clean(data) && db.Valid() && FromData(db.subscribers, data) && !HasId(db.subscribers, id)
    modifies db
    ensures db.Valid() && FromData(db.subscribers, data)
    ensures db.subscribers == old(db.subscribers) + [s] && s.id == id
    ensures CountPastDue(db.subscribers, today)
         == CountPastDue(old(db.subscribers), today) + if e < today then 1 else 0
  {
    ghost var xs := db.subscribers;
    var d := data.(expirationDate := e);
    s := NewSubscriber(d, id, today, now);
    CleanRebuilds(d, id, today, now);
    var r := db.CreateSubscriber(d, id, today, now);
    FromDataAppend(xs, s, data);
    PastDueAppend(xs, s, today);
  }

  /** A store of three records from clean data under distinct ids, fifteen,
      three and minus five days out: one of them is past due. */
  method ThreeTiers(data: SubscriberCreate, a: string, b: string, c: string, today: Date, now: Timestamp)
    returns (db: Database)
    requires Clean(data) && a != b && a != c && b != c
    ensures fresh(db) && db.Valid() && FromData(db.subscribers, data)
    ensures |db.subscribers| == 3 && CountPastDue(db.subscribers, today) == 1
  {
    db := new Database();
    ghost var s0 := db.subscribers;
    var sa := AddFromData(db, data, today + 15, a, today, now);
    FreshAppend(s0, sa, b);
    FreshAppend(s0, sa, c);
    ghost var s1 := db.subscribers;
    var sb := AddFromData(db, data, today + 3, b, today, now);
    FreshAppend(s1, sb, c);
    var sc := AddFromData(db, data, today - 5, c, today, now);
  }

  /** The statistics of that store count three subscribers, one of them
      expired, and the revenue of the other two. */
  method TiersAndStats(data: SubscriberCreate, a: string, b: string, c: string, today: Date, now: Timestamp)
    requires Clean(data) && a != b && a != c && b != c
  {
    var db := ThreeTiers(data, a, b, c, today, now);
    CleanListed(db.subscribers, data, today, now);
    var st := db.GetStats(today, now);
    assert st.Success? && st.value.total == 3;
    assert st.value.expired == 1 && st.value.revenue == 2 * PricePerSubscription;
  }

  /** Sending to an unknown id is not found and records nothing; a reminder to
      a stored subscriber records one log that names them. */
  method SendScenario(data: SubscriberCreate, today: Date, now: Timestamp, dateText: Date -> string)
    requires Clean(data)
  {
    var db := new Database();
    ValidateSubscriberNormalised(NewSubscriber(data, "a", today, now));
    var s := db.CreateSubscriber(data, "a", today, now);
    assert s.Success? && db.subscribers == [s.value];
    var missing := SendMessage(db, MessageLogCreate("nobody", Recordatorio, None), "log-0", today, now, dateText);
    assert missing == Failure(NotFound) && db.messageLogs == [];

    var sent := SendMessage(db, MessageLogCreate("a", Recordatorio, None), "log-1", today, now, dateText);
    assert sent.Success? && sent.value.success;
    assert |db.messageLogs| == 1 && db.messageLogs[0].status == Sent;
    ReminderMentionsSubscriber(s.value, None, dateText);
    assert Contains(db.messageLogs[0].message.value, data.name);
  }
}
