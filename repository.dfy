/** The subscriber repository (backend/database.py:53-234): two collections,
    subscribers and message logs, with the status engine applied on the read
    and write paths. The document store is modelled by two sequences in
    insertion order; ids, timestamps and today's date come from the caller. */
module Repository {
  import opened Wrappers
  import opened Models
  import opened StatusEngine

  /** The price counted per active or expiring subscription. */
  const PricePerSubscription := 15

  // ---------------------------------------------------------------------------
  // Records and their derived fields
  // ---------------------------------------------------------------------------

  /** The derived fields of `s` are what the status engine gives on `today`. */
  predicate Consistent(s: Subscriber, today: Date)
  {
    s.daysRemaining == DaysRemaining(s.expirationDate, today)
    && s.status == CalculateStatus(s.daysRemaining)
  }

  /** `a` and `b` agree on every field but the derived ones and `updatedAt`. */
  predicate SameRecord(a: Subscriber, b: Subscriber)
  {
    a.id == b.id && a.service == b.service && a.name == b.name && a.phone == b.phone
    && a.email == b.email && a.expirationDate == b.expirationDate && a.createdAt == b.createdAt
  }

  /** The record with its derived fields recomputed for `today`, nothing else changed. */
  function WithDerived(s: Subscriber, today: Date): (r: Subscriber)
    ensures Consistent(r, today) && SameRecord(r, s) && r.updatedAt == s.updatedAt
  {
    var d := DaysRemaining(s.expirationDate, today);
    s.(daysRemaining := d, status := CalculateStatus(d))
  }

  /** What a listing writes back: fresh derived fields and `updatedAt := now`. */
  function Refreshed(s: Subscriber, today: Date, now: Timestamp): (r: Subscriber)
    ensures Consistent(r, today) && SameRecord(r, s) && r.updatedAt == now
  {
    WithDerived(s, today).(updatedAt := now)
  }

  /** What a read hands out for the stored record `s` on `today`: the record
      with fresh derived fields, rebuilt as a `Subscriber`. The rebuild fails
      exactly when the stored name or phone breaks the bounds, and a
      well-formed record reads back with only its derived fields changed. */
  function ReadView(s: Subscriber, today: Date): (r: Result<Subscriber, seq<FieldError>>)
    ensures r.Success? <==> Rebuilds(s)
    ensures r.Success? ==> Consistent(r.value, today) && r.value.id == s.id && r.value.updatedAt == s.updatedAt
    ensures Normalised(s) && WithinBounds(s) ==> r == Success(WithDerived(s, today))
  {
    ValidateSubscriberNormalised(WithDerived(s, today));
    ValidateSubscriber(WithDerived(s, today))
  }

  /** Every record refreshed, in the same order. */
  function RefreshAll(xs: seq<Subscriber>, today: Date, now: Timestamp): (r: seq<Subscriber>)
    ensures |r| == |xs|
    ensures forall k :: 0 <= k < |xs| ==> r[k] == Refreshed(xs[k], today, now)
  {
    if xs == [] then [] else [Refreshed(xs[0], today, now)] + RefreshAll(xs[1..], today, now)
  }

  /** Listing twice is listing once at the later instant: the day counts and
      tiers of the second listing are those of the first. */
  lemma RefreshAllTwice(xs: seq<Subscriber>, today: Date, now1: Timestamp, now2: Timestamp)
    ensures RefreshAll(RefreshAll(xs, today, now1), today, now2) == RefreshAll(xs, today, now2)
  {
  }

  /** The record built by `create_subscriber` from a validated request. */
  function NewSubscriber(data: SubscriberCreate, id: string, today: Date, now: Timestamp): (s: Subscriber)
    ensures s.id == id && s.createdAt == now && s.updatedAt == now
    ensures s.service == data.service && s.name == data.name && s.phone == data.phone
    ensures s.email == data.email && s.expirationDate == data.expirationDate
    ensures Consistent(s, today)
  {
    var d := DaysRemaining(data.expirationDate, today);
    Subscriber(id, data.service, data.name, data.phone, data.email, data.expirationDate,
               CalculateStatus(d), d, now, now)
  }

  /** A request that passes create validation builds its record exactly when
      the normalised name is not empty, and the record built is then exactly
      `NewSubscriber`'s. The request bounds apply to the raw name and the
      record bounds to the normalised one, so a name of blanks gets through
      the first and not the second. */
  lemma CreateStoredUnlessBlank(raw: SubscriberInput, id: string, today: Date, now: Timestamp)
    requires ValidateCreate(raw).Success?
    ensures var s := NewSubscriber(ValidateCreate(raw).value, id, today, now);
      && (ValidateSubscriber(s).Success? <==> ValidateCreate(raw).value.name != "")
      && (ValidateSubscriber(s).Success? ==> ValidateSubscriber(s).value == s)
  {
    var s := NewSubscriber(ValidateCreate(raw).value, id, today, now);
    ValidateCreateNormalises(raw);
    assert |s.phone| <= |raw.phone|;
    assert Normalised(s);
    ValidateSubscriberNormalised(s);
  }

  // ---------------------------------------------------------------------------
  // Listing: refresh, write back, rebuild
  // ---------------------------------------------------------------------------

  /** The position of the first record the rebuild refuses, or `|xs|` when it
      refuses none. */
  function FirstRejected(xs: seq<Subscriber>): (i: nat)
    ensures i <= |xs|
    ensures forall k :: 0 <= k < i ==> Rebuilds(xs[k])
    ensures i < |xs| ==> !Rebuilds(xs[i])
  {
    if xs == [] || !Rebuilds(xs[0]) then 0 else 1 + FirstRejected(xs[1..])
  }

  /** The store after `get_subscribers`. The loop writes each record's fresh
      derived fields and `updatedAt` back before it rebuilds the record, and
      stops at the first record the rebuild refuses: every record up to and
      including that one is refreshed, the rest are as they were. */
  function ListedStore(xs: seq<Subscriber>, today: Date, now: Timestamp): (r: seq<Subscriber>)
    ensures |r| == |xs|
    ensures forall k :: 0 <= k < |xs| ==>
      r[k] == if k <= FirstRejected(RefreshAll(xs, today, now)) then Refreshed(xs[k], today, now) else xs[k]
  {
    var ys := RefreshAll(xs, today, now);
    var j := FirstRejected(ys);
    if j == |xs| then ys else ys[..j + 1] + xs[j + 1..]
  }

  /** The walk that meets its first refusal at `i` (or none, when `i == |xs|`)
      leaves exactly `ListedStore` behind: the first `i + 1` records refreshed,
      the rest as they were. */
  lemma ListingStopsAt(xs: seq<Subscriber>, today: Date, now: Timestamp, i: nat)
    requires i <= |xs|
    requires forall k :: 0 <= k < i ==> Rebuilds(RefreshAll(xs, today, now)[k])
    requires i < |xs| ==> !Rebuilds(RefreshAll(xs, today, now)[i])
    ensures FirstRejected(RefreshAll(xs, today, now)) == i
    ensures forall k :: 0 <= k < |xs| ==>
      ListedStore(xs, today, now)[k] == if k <= i then RefreshAll(xs, today, now)[k] else xs[k]
  {
  }

  /** A walk that refreshed every record and rebuilt each of them leaves the
      listed store, with unique ids kept. */
  lemma ListingDone(xs: seq<Subscriber>, zs: seq<Subscriber>, list: seq<Subscriber>, today: Date, now: Timestamp)
    requires UniqueIds(xs)
    requires |zs| == |xs| && forall k :: 0 <= k < |xs| ==> zs[k] == RefreshAll(xs, today, now)[k]
    requires |list| == |xs|
    requires forall k {:trigger list[k]} :: 0 <= k < |xs| ==> ValidateSubscriber(RefreshAll(xs, today, now)[k]) == Success(list[k])
    ensures FirstRejected(RefreshAll(xs, today, now)) == |xs|
    ensures zs == RefreshAll(xs, today, now) == ListedStore(xs, today, now)
    ensures UniqueIds(zs)
  {
    forall k | 0 <= k < |xs| ensures Rebuilds(RefreshAll(xs, today, now)[k]) {
      assert ValidateSubscriber(RefreshAll(xs, today, now)[k]) == Success(list[k]);
    }
    ListingStopsAt(xs, today, now, |xs|);
    KeepsIds(xs, zs);
  }

  /** A walk whose rebuild of record `i` failed, after the rebuilds before it
      succeeded, leaves the listed store, with unique ids kept. */
  lemma ListingFailed(xs: seq<Subscriber>, zs: seq<Subscriber>, list: seq<Subscriber>, i: nat, today: Date, now: Timestamp)
    requires UniqueIds(xs) && i < |xs|
    requires |zs| == |xs|
    requires forall k :: 0 <= k < |xs| ==> zs[k] == if k <= i then RefreshAll(xs, today, now)[k] else xs[k]
    requires |list| == i
    requires forall k {:trigger list[k]} :: 0 <= k < i ==> ValidateSubscriber(RefreshAll(xs, today, now)[k]) == Success(list[k])
    requires ValidateSubscriber(RefreshAll(xs, today, now)[i]).Failure?
    ensures FirstRejected(RefreshAll(xs, today, now)) == i
    ensures zs == ListedStore(xs, today, now)
    ensures UniqueIds(zs)
  {
    forall k | 0 <= k < i ensures Rebuilds(RefreshAll(xs, today, now)[k]) {
      assert ValidateSubscriber(RefreshAll(xs, today, now)[k]) == Success(list[k]);
    }
    ListingStopsAt(xs, today, now, i);
    KeepsIds(xs, zs);
  }

  /** Writing the replacement of position `i` into a store replaced below `i`
      moves the boundary one place on. */
  lemma ReplaceNext<T>(xs: seq<T>, ys: seq<T>, zs: seq<T>, i: nat)
    requires |ys| == |xs| == |zs| && i < |xs|
    requires forall k :: 0 <= k < |xs| ==> zs[k] == if k < i then ys[k] else xs[k]
    ensures zs[i] == xs[i]
    ensures forall k :: 0 <= k < |xs| ==> zs[i := ys[i]][k] == if k < i + 1 then ys[k] else xs[k]
  {
  }

  /** One more record rebuilt extends the list of rebuilt records by its result. */
  lemma RebuiltNext(ys: seq<Subscriber>, list: seq<Subscriber>, i: nat, built: Subscriber)
    requires i < |ys| && |list| == i
    requires forall k {:trigger list[k]} :: 0 <= k < i ==> ValidateSubscriber(ys[k]) == Success(list[k])
    requires ValidateSubscriber(ys[i]) == Success(built)
    ensures forall k {:trigger (list + [built])[k]} :: 0 <= k < i + 1 ==> ValidateSubscriber(ys[k]) == Success((list + [built])[k])
  {
    forall k | 0 <= k < i + 1 ensures ValidateSubscriber(ys[k]) == Success((list + [built])[k]) {
      if k < i {
        assert (list + [built])[k] == list[k];
      }
    }
  }

  /** When every stored record is well formed, the listing refreshes them all
      and the rebuild refuses none. */
  lemma ListingOfWellFormedStore(xs: seq<Subscriber>, today: Date, now: Timestamp)
    requires forall k :: 0 <= k < |xs| ==> Normalised(xs[k]) && WithinBounds(xs[k])
    ensures FirstRejected(RefreshAll(xs, today, now)) == |xs|
    ensures ListedStore(xs, today, now) == RefreshAll(xs, today, now)
    ensures forall k {:trigger ValidateSubscriber(RefreshAll(xs, today, now)[k])} :: 0 <= k < |xs| ==>
      ValidateSubscriber(RefreshAll(xs, today, now)[k]) == Success(RefreshAll(xs, today, now)[k])
  {
    var ys := RefreshAll(xs, today, now);
    forall k | 0 <= k < |xs| ensures ValidateSubscriber(ys[k]) == Success(ys[k]) {
      ValidateSubscriberNormalised(ys[k]);
    }
  }

  // ---------------------------------------------------------------------------
  // Looking records up by id
  // ---------------------------------------------------------------------------

  /** The position of the first record with `id`, if any. */
  function FindIndex(xs: seq<Subscriber>, id: string): (r: Option<nat>)
    ensures r.Some? ==> r.value < |xs| && xs[r.value].id == id
    ensures r.Some? ==> forall k :: 0 <= k < r.value ==> xs[k].id != id
    ensures r.None? <==> forall k :: 0 <= k < |xs| ==> xs[k].id != id
  {
    if xs == [] then None
    else if xs[0].id == id then Some(0)
    else match FindIndex(xs[1..], id)
      case None => None
      case Some(k) => Some(k + 1)
  }

  /** What a listing of a well-formed store rebuilds is the refreshed store. */
  lemma RebuiltWellFormedStore(xs: seq<Subscriber>, list: seq<Subscriber>, today: Date, now: Timestamp)
    requires forall k :: 0 <= k < |xs| ==> Normalised(xs[k]) && WithinBounds(xs[k])
    requires |list| == |xs|
    requires forall k {:trigger list[k]} :: 0 <= k < |xs| ==> ValidateSubscriber(RefreshAll(xs, today, now)[k]) == Success(list[k])
    ensures list == RefreshAll(xs, today, now)
  {
    var ys := RefreshAll(xs, today, now);
    ListingOfWellFormedStore(xs, today, now);
    forall k | 0 <= k < |xs| ensures list[k] == ys[k] {
      assert Success(list[k]) == ValidateSubscriber(ys[k]) == Success(ys[k]);
    }
  }

  /** Lookups by id see only the ids. */
  lemma FindIndexSameIds(xs: seq<Subscriber>, ys: seq<Subscriber>, id: string)
    requires |xs| == |ys| && forall k :: 0 <= k < |xs| ==> xs[k].id == ys[k].id
    ensures FindIndex(xs, id) == FindIndex(ys, id)
  {
    var a, b := FindIndex(xs, id), FindIndex(ys, id);
    if a.Some? && b.Some? {
      assert !(a.value < b.value) && !(b.value < a.value);
    }
  }

  predicate HasId(xs: seq<Subscriber>, id: string)
  {
    FindIndex(xs, id).Some?
  }

  /** No two records share an id. */
  predicate UniqueIds(xs: seq<Subscriber>)
  {
    forall i, j :: 0 <= i < j < |xs| ==> Ids(xs)[i] != Ids(xs)[j]
  }

  /** The ids of the records, in store order. */
  function Ids(xs: seq<Subscriber>): (r: seq<string>)
    ensures |r| == |xs| && forall k {:trigger r[k]} :: 0 <= k < |xs| ==> r[k] == xs[k].id
  {
    seq(|xs|, k requires 0 <= k < |xs| => xs[k].id)
  }

  /** A new id appended to a store with unique ids keeps them unique. */
  lemma AppendKeepsIds(xs: seq<Subscriber>, s: Subscriber)
    requires UniqueIds(xs) && !HasId(xs, s.id)
    ensures UniqueIds(xs + [s])
  {
    var ys := xs + [s];
    forall i, j | 0 <= i < j < |ys| ensures Ids(ys)[i] != Ids(ys)[j] {
      assert Ids(ys)[i] == xs[i].id == Ids(xs)[i];
      if j < |xs| {
        assert Ids(ys)[j] == Ids(xs)[j];
      }
    }
  }

  /** A store whose records keep their ids in place keeps unique ids. */
  lemma KeepsIds(xs: seq<Subscriber>, ys: seq<Subscriber>)
    requires |ys| == |xs| && forall k :: 0 <= k < |xs| ==> ys[k].id == xs[k].id
    requires UniqueIds(xs)
    ensures UniqueIds(ys)
  {
    assert Ids(ys) == Ids(xs);
  }

  /** Overwriting a record by one with the same id keeps the ids unique and
      every lookup by id where it was. */
  lemma OverwriteKeepsIds(xs: seq<Subscriber>, k: nat, s: Subscriber, id: string)
    requires k < |xs| && s.id == xs[k].id && UniqueIds(xs)
    ensures UniqueIds(xs[k := s])
    ensures FindIndex(xs[k := s], id) == FindIndex(xs, id)
  {
    var ys := xs[k := s];
    assert forall j :: 0 <= j < |ys| ==> ys[j].id == xs[j].id;
    KeepsIds(xs, ys);
    FindIndexSameIds(ys, xs, id);
  }

  /** Once the record with `id` is taken out of a store with unique ids, no
      record with `id` remains, and the rest keep unique ids. */
  lemma RemoveAt(xs: seq<Subscriber>, k: nat)
    requires UniqueIds(xs) && k < |xs|
    ensures !HasId(xs[..k] + xs[k + 1..], xs[k].id)
    ensures UniqueIds(xs[..k] + xs[k + 1..])
  {
    var ys := xs[..k] + xs[k + 1..];
    forall i | 0 <= i < |ys| ensures ys[i] == xs[if i < k then i else i + 1] {
    }
    forall i | 0 <= i < |ys| ensures ys[i].id != xs[k].id {
      var m := if i < k then i else i + 1;
      assert Ids(xs)[m] != Ids(xs)[k] by { if m < k {} else {} }
    }
    forall i, j | 0 <= i < j < |ys| ensures Ids(ys)[i] != Ids(ys)[j] {
      var m, n := if i < k then i else i + 1, if j < k then j else j + 1;
      assert Ids(ys)[i] == Ids(xs)[m] && Ids(ys)[j] == Ids(xs)[n];
    }
  }


  // ---------------------------------------------------------------------------
  // Sparse update
  // ---------------------------------------------------------------------------

  /** The record after `$set` of the fields present in `upd`. `updatedAt`
      always becomes `now`; the derived fields are recomputed only when the
      update carries an expiration date, and are otherwise left as stored. */
  function ApplyUpdate(s: Subscriber, upd: SubscriberUpdate, today: Date, now: Timestamp): (r: Subscriber)
    ensures r.id == s.id && r.createdAt == s.createdAt && r.updatedAt == now
    ensures r.service == GetOr(upd.service, s.service)
    ensures r.name == GetOr(upd.name, s.name)
    ensures r.phone == GetOr(upd.phone, s.phone)
    ensures r.email == GetOr(upd.email, s.email)
    ensures r.expirationDate == GetOr(upd.expirationDate, s.expirationDate)
    ensures upd.expirationDate.Some? ==> Consistent(r, today)
    ensures upd.expirationDate.None? ==> r.daysRemaining == s.daysRemaining && r.status == s.status
  {
    var t := s.(
      service := GetOr(upd.service, s.service),
      name := GetOr(upd.name, s.name),
      phone := GetOr(upd.phone, s.phone),
      email := GetOr(upd.email, s.email),
      updatedAt := now);
    if upd.expirationDate.Some? then
      var d := DaysRemaining(upd.expirationDate.value, today);
      t.(expirationDate := upd.expirationDate.value, daysRemaining := d, status := CalculateStatus(d))
    else t
  }

  /** Applying the same update a second time changes nothing more. */
  lemma ApplyUpdateIdempotent(s: Subscriber, upd: SubscriberUpdate, today: Date, now: Timestamp)
    ensures ApplyUpdate(ApplyUpdate(s, upd, today, now), upd, today, now) == ApplyUpdate(s, upd, today, now)
  {
  }

  /** An update that carries no field only refreshes `updatedAt`. */
  lemma EmptyUpdateOnlyTouchesTimestamp(s: Subscriber, today: Date, now: Timestamp)
    ensures ApplyUpdate(s, SubscriberUpdate(None, None, None, None, None), today, now) == s.(updatedAt := now)
  {
  }

  /** A validated update applied to a well-formed record leaves a record that
      reads back exactly when a new name is 1 to 100 characters long and a new
      phone at most 15 digits. */
  lemma UpdateReadable(s: Subscriber, upd: SubscriberUpdate, today: Date, now: Timestamp)
    requires Normalised(s) && WithinBounds(s)
    requires upd.name.Some? ==> IsNormalName(upd.name.value)
    requires upd.phone.Some? ==> IsNormalPhone(upd.phone.value) && |upd.phone.value| >= MinPhoneDigits
    ensures ReadView(ApplyUpdate(s, upd, today, now), today).Success? <==>
      && (upd.name.Some? ==> MinNameLength <= |upd.name.value| <= MaxNameLength)
      && (upd.phone.Some? ==> |upd.phone.value| <= MaxPhoneLength)
  {
    var u := ApplyUpdate(s, upd, today, now);
    assert u.name == GetOr(upd.name, s.name) && u.phone == GetOr(upd.phone, s.phone);
    assert IsNormalPhone(u.phone) && |u.phone| >= MinPhoneDigits;
  }

  /** An update that passes request validation, applied to a well-formed
      record, leaves a record that still reads back exactly when the new name
      normalises to 1 to 100 characters and the new phone has at most 15
      digits. The update request checks neither bound, so the store accepts
      records that no read can hand out afterwards. */
  lemma UpdatedRecordReadable(s: Subscriber, raw: SubscriberUpdateInput, today: Date, now: Timestamp)
    requires Normalised(s) && WithinBounds(s)
    requires ValidateUpdate(raw).Success?
    ensures ReadView(ApplyUpdate(s, ValidateUpdate(raw).value, today, now), today).Success? <==>
      && (raw.name.Some? ==> MinNameLength <= |NormalizeName(raw.name.value)| <= MaxNameLength)
      && (raw.phone.Some? ==> |Digits(raw.phone.value)| <= MaxPhoneLength)
  {
    ValidateUpdateNormalises(raw);
    UpdateReadable(s, ValidateUpdate(raw).value, today, now);
  }

  // ---------------------------------------------------------------------------
  // Statistics
  // ---------------------------------------------------------------------------

  datatype Stats = Stats(total: nat, active: nat, expiring: nat, expired: nat, revenue: int)

  /** How many records carry status `st`. */
  function CountStatus(xs: seq<Subscriber>, st: SubscriberStatus): nat
  {
    if xs == [] then 0 else (if xs[0].status == st then 1 else 0) + CountStatus(xs[1..], st)
  }

  /** Every record is counted in exactly one tier. */
  lemma {:induction false} TiersPartition(xs: seq<Subscriber>)
    ensures CountStatus(xs, Active) + CountStatus(xs, Expiring) + CountStatus(xs, Expired) == |xs|
  {
    if xs != [] {
      TiersPartition(xs[1..]);
    }
  }

  /** How many records expire before `today`. */
  function CountPastDue(xs: seq<Subscriber>, today: Date): nat
  {
    if xs == [] then 0 else (if xs[0].expirationDate < today then 1 else 0) + CountPastDue(xs[1..], today)
  }

  /** After a refresh, the `Expired` tier holds exactly the records whose
      expiration date is before `today`. */
  lemma {:induction false} ExpiredArePastDue(xs: seq<Subscriber>, today: Date, now: Timestamp)
    ensures CountStatus(RefreshAll(xs, today, now), Expired) == CountPastDue(xs, today)
  {
    if xs != [] {
      ExpiredArePastDue(xs[1..], today, now);
      assert RefreshAll(xs, today, now)[1..] == RefreshAll(xs[1..], today, now);
    }
  }

  /** The dashboard figures of `get_stats`: the tiers add up to the total, and
      revenue is the price times the records that are not expired. */
  function StatsOf(xs: seq<Subscriber>): (r: Stats)
    ensures r.total == |xs|
    ensures r.total == r.active + r.expiring + r.expired
    ensures r.revenue == PricePerSubscription * (r.total - r.expired)
  {
    TiersPartition(xs);
    var active := CountStatus(xs, Active);
    var expiring := CountStatus(xs, Expiring);
    var expired := CountStatus(xs, Expired);
    Stats(|xs|, active, expiring, expired, (active + expiring) * PricePerSubscription)
  }

  /** The counts depend on the tiers alone. */
  lemma {:induction false} CountStatusSameTiers(xs: seq<Subscriber>, ys: seq<Subscriber>, st: SubscriberStatus)
    requires |xs| == |ys| && forall k :: 0 <= k < |xs| ==> xs[k].status == ys[k].status
    ensures CountStatus(xs, st) == CountStatus(ys, st)
  {
    if xs != [] {
      CountStatusSameTiers(xs[1..], ys[1..], st);
    }
  }

  /** Records in the same tiers, position by position, give the same figures. */
  lemma SameTiersSameStats(xs: seq<Subscriber>, ys: seq<Subscriber>)
    requires |xs| == |ys| && forall k :: 0 <= k < |xs| ==> xs[k].status == ys[k].status
    ensures StatsOf(xs) == StatsOf(ys)
  {
    CountStatusSameTiers(xs, ys, Active);
    CountStatusSameTiers(xs, ys, Expiring);
    CountStatusSameTiers(xs, ys, Expired);
  }

  // ---------------------------------------------------------------------------
  // The stored form of expiration dates
  // ---------------------------------------------------------------------------

  /** An expiration date as the document store holds it: a date, or text. */
  datatype StoredDate = DateValue(day: Date) | DateText(text: string)

  /** What `create_subscriber` writes for the expiration date: its ISO text. */
  function StoredOnCreate(d: Date, isoformat: Date -> string): StoredDate
  {
    DateText(isoformat(d))
  }

  /** `calculate_days_remaining(doc['expirationDate'])` on a stored value:
      subtracting today's date from text raises, so only a stored date gives a
      day count. */
  function StoredDaysRemaining(v: StoredDate, today: Date): (r: Option<int>)
    ensures r.Some? <==> v.DateValue?
    ensures r.Some? ==> today + r.value == v.day
  {
    match v
    case DateValue(d) => Some(DaysRemaining(d, today))
    case DateText(_) => None
  }

  /** As written, no record created through the API has a day count on a
      later list or read: whatever the ISO rendering, the stored text cannot
      be subtracted from a date. */
  lemma CreatedDateHasNoDayCount(d: Date, today: Date, isoformat: Date -> string)
    ensures StoredDaysRemaining(StoredOnCreate(d, isoformat), today).None?
  {
  }

  /** Storing the date itself, as the model's records do, gives back the
      status engine's day count on every later read. */
  lemma StoredDateGivesDayCount(d: Date, today: Date)
    ensures StoredDaysRemaining(DateValue(d), today) == Some(DaysRemaining(d, today))
    ensures StatusOn(d, today) == CalculateStatus(StoredDaysRemaining(DateValue(d), today).value)
  {
  }

  // ---------------------------------------------------------------------------
  // The repository
  // ---------------------------------------------------------------------------

  /** What a read by id gives: no record, the rebuilt record, or the field
      errors with which rebuilding the stored record failed (the source raises
      them as a validation error). */
  datatype Lookup = Absent | Found(record: Subscriber) | Rejected(errors: seq<FieldError>)

  /** A rebuild outcome as a lookup outcome. */
  function AsLookup(v: Result<Subscriber, seq<FieldError>>): (r: Lookup)
    ensures r.Found? <==> v.Success?
    ensures r.Found? ==> r.record == v.value
    ensures r.Rejected? ==> r.errors == v.error
  {
    if v.Success? then Found(v.value) else Rejected(v.error)
  }

  class Database {
    var subscribers: seq<Subscriber>
    var messageLogs: seq<MessageLog>

    ghost predicate Valid()
      reads this
    {
      UniqueIds(subscribers)
    }

    constructor ()
      ensures Valid() && subscribers == [] && messageLogs == []
    {
      subscribers := [];
      messageLogs := [];
    }

    /** `create_subscriber`: builds the record from the request with derived
        fields for `today`. When the build refuses it, nothing is stored and
        the field errors are raised; otherwise exactly that record is
        appended and the records already there are unchanged. */
    method CreateSubscriber(data: SubscriberCreate, id: string, today: Date, now: Timestamp)
      returns (r: Result<Subscriber, seq<FieldError>>)
      requires Valid() && !HasId(subscribers, id)
      modifies this
      ensures Valid()
      ensures messageLogs == old(messageLogs)
      ensures r == ValidateSubscriber(NewSubscriber(data, id, today, now))
      ensures r.Failure? ==> subscribers == old(subscribers)
      ensures r.Success? ==> subscribers == old(subscribers) + [r.value]
    {
      r := ValidateSubscriber(NewSubscriber(data, id, today, now));
      if r.Success? {
        assert r.value.id == id;
        AppendKeepsIds(subscribers, r.value);
        subscribers := subscribers + [r.value];
      }
    }

    /** `get_subscribers`: walks the store in order; each record gets fresh
        derived fields and `updatedAt`, is written back, and is then rebuilt.
        The first record the rebuild refuses ends the walk with its field
        errors, after its own write-back; otherwise the rebuilt records are
        returned in store order. */
    method GetSubscribers(today: Date, now: Timestamp) returns (r: Result<seq<Subscriber>, seq<FieldError>>)
      requires Valid()
      modifies this
      ensures Valid()
      ensures messageLogs == old(messageLogs)
      ensures subscribers == ListedStore(old(subscribers), today, now)
      ensures var ys := RefreshAll(old(subscribers), today, now);
        && (r.Success? <==> FirstRejected(ys) == |ys|)
        && (r.Success? ==>
              && subscribers == ys && |r.value| == |ys|
              && forall k {:trigger r.value[k]} :: 0 <= k < |ys| ==> ValidateSubscriber(ys[k]) == Success(r.value[k]))
        && (r.Failure? ==> r.error == ValidateSubscriber(ys[FirstRejected(ys)]).error)
    {
      ghost var xs := subscribers;
      ghost var ys := RefreshAll(xs, today, now);
      var list := [];
      var i := 0;
      while i < |subscribers|
        invariant 0 <= i <= |subscribers| == |xs|
        invariant forall k :: 0 <= k < |xs| ==> subscribers[k] == if k < i then ys[k] else xs[k]
        invariant |list| == i && forall k {:trigger list[k]} :: 0 <= k < i ==> ValidateSubscriber(ys[k]) == Success(list[k])
        invariant messageLogs == old(messageLogs)
      {
        ReplaceNext(xs, ys, subscribers, i);
        var doc := Refreshed(subscribers[i], today, now);
        assert doc == ys[i];
        subscribers := subscribers[i := doc];
        var built := ValidateSubscriber(doc);
        if built.Failure? {
          ListingFailed(xs, subscribers, list, i, today, now);
          return Failure(built.error);
        }
        RebuiltNext(ys, list, i, built.value);
        list := list + [built.value];
        i := i + 1;
      }
      ListingDone(xs, subscribers, list, today, now);
      r := Success(list);
    }

    /** `get_subscriber_by_id`: `Absent` when no record has `id`; otherwise the
        stored record with its derived fields recomputed for `today`, rebuilt,
        or the errors of the rebuild. Nothing is written back. */
    method GetSubscriberById(id: string, today: Date) returns (r: Lookup)
      ensures r.Absent? <==> !HasId(subscribers, id)
      ensures HasId(subscribers, id) ==>
        r == AsLookup(ReadView(subscribers[FindIndex(subscribers, id).value], today))
      ensures r.Found? ==> r.record.id == id && Consistent(r.record, today)
    {
      match FindIndex(subscribers, id)
      case None =>
        r := Absent;
      case Some(k) =>
        r := AsLookup(ReadView(subscribers[k], today));
    }

    /** `update_subscriber`: reads the record first, and gives `Absent` or the
        read's errors without any change when that read does. Otherwise the
        fields present in `upd` are written to that record alone, and the
        result is the record read again: rebuilt with fresh derived fields,
        or the errors of that rebuild, with the write already done. */
    method UpdateSubscriber(id: string, upd: SubscriberUpdate, today: Date, now: Timestamp)
      returns (r: Lookup)
      requires Valid()
      modifies this
      ensures Valid()
      ensures messageLogs == old(messageLogs)
      ensures !HasId(old(subscribers), id) ==> r == Absent && subscribers == old(subscribers)
      ensures HasId(old(subscribers), id) ==>
        var k := FindIndex(old(subscribers), id).value;
        var before := ReadView(old(subscribers)[k], today);
        var after := ApplyUpdate(old(subscribers)[k], upd, today, now);
        && (before.Failure? ==> r == Rejected(before.error) && subscribers == old(subscribers))
        && (before.Success? ==>
              subscribers == old(subscribers)[k := after] && r == AsLookup(ReadView(after, today)))
    {
      var current := GetSubscriberById(id, today);
      if !current.Found? {
        return current;
      }
      var k := FindIndex(subscribers, id).value;
      var stored := subscribers[k];
      assert current == AsLookup(ReadView(stored, today));
      var updated := ApplyUpdate(stored, upd, today, now);
      // the store counts a document as modified only when a value changed
      var modified := updated != stored;
      OverwriteKeepsIds(subscribers, k, updated, id);
      subscribers := subscribers[k := updated];
      assert subscribers[k] == updated;
      if modified {
        r := GetSubscriberById(id, today);
        assert r == AsLookup(ReadView(updated, today));
      } else {
        r := current;
      }
    }

    /** `delete_subscriber`: `true` exactly when a record with `id` existed;
        afterwards none remains and every other record is kept, in order. */
    method DeleteSubscriber(id: string) returns (deleted: bool)
      requires Valid()
      modifies this
      ensures Valid()
      ensures messageLogs == old(messageLogs)
      ensures deleted == HasId(old(subscribers), id)
      ensures !HasId(subscribers, id)
      ensures !deleted ==> subscribers == old(subscribers)
      ensures deleted ==>
        var k := FindIndex(old(subscribers), id).value;
        subscribers == old(subscribers)[..k] + old(subscribers)[k + 1..]
    {
      match FindIndex(subscribers, id)
      case None =>
        deleted := false;
      case Some(k) =>
        RemoveAt(subscribers, k);
        subscribers := subscribers[..k] + subscribers[k + 1..];
        deleted := true;
    }

    /** `get_stats`: a listing, with its write-back and its errors, followed
        by the counts of each tier and the revenue of the records not expired. */
    method GetStats(today: Date, now: Timestamp) returns (r: Result<Stats, seq<FieldError>>)
      requires Valid()
      modifies this
      ensures Valid()
      ensures messageLogs == old(messageLogs)
      ensures subscribers == ListedStore(old(subscribers), today, now)
      ensures var ys := RefreshAll(old(subscribers), today, now);
        && (r.Success? <==> FirstRejected(ys) == |ys|)
        && (r.Success? ==> r.value == StatsOf(ys))
        && (r.Failure? ==> r.error == ValidateSubscriber(ys[FirstRejected(ys)]).error)
      ensures r.Success? ==>
        && r.value.total == |old(subscribers)|
        && r.value.expired == CountPastDue(old(subscribers), today)
        && r.value.revenue == PricePerSubscription * (|old(subscribers)| - CountPastDue(old(subscribers), today))
    {
      var list := GetSubscribers(today, now);
      if list.Failure? {
        return Failure(list.error);
      }
      ghost var ys := RefreshAll(old(subscribers), today, now);
      ExpiredArePastDue(old(subscribers), today, now);
      SameTiersSameStats(list.value, ys);
      r := Success(StatsOf(list.value));
    }

    /** `create_message_log`: appends one log, always with status `Sent`,
        carrying the request's subscriber id, type and text. */
    method CreateMessageLog(data: MessageLogCreate, id: string, now: Timestamp) returns (log: MessageLog)
      requires Valid()
      modifies this
      ensures Valid()
      ensures log == MessageLog(id, data.subscriberId, data.messageType, data.message, Sent, now)
      ensures messageLogs == old(messageLogs) + [log]
      ensures subscribers == old(subscribers)
    {
      log := MessageLog(id, data.subscriberId, data.messageType, data.message, Sent, now);
      messageLogs := messageLogs + [log];
    }
  }
}
