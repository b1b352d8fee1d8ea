/** The API handlers around the repository (backend/server.py): request
    validation before the handler runs, the not-found mapping of the
    repository's `None` and `false`, message composition and sending, and the
    service catalog. Rendering a date as text is the standard library's and is
    a parameter here (`dateText`). */
module Server {
  import opened Wrappers
  import opened Models
  import opened StatusEngine
  import opened Repository

  /** The client-visible failures of the handlers: not found (404), a request
      body refused by validation (422), and an internal error (500) with the
      handler's fixed detail text, which is what a validation error raised
      inside the repository becomes. */
  datatype ApiError = NotFound | Invalid(errors: seq<FieldError>) | ServerError(detail: string)

  datatype MessageResponse = MessageResponse(success: bool, message: string, messageLog: Option<MessageLog>)

  datatype SubscribersResponse = SubscribersResponse(subscribers: seq<Subscriber>, total: nat)

  const DefaultCustomMessage := "Mensaje personalizado enviado."
  const SentConfirmationPrefix := "Mensaje enviado exitosamente a "
  const DeletedConfirmation := "Subscriber deleted successfully"

  const InternalErrorDetail := "Internal server error"
  const CreateFailedDetail := "Failed to create subscriber"
  const UpdateFailedDetail := "Failed to update subscriber"
  const SendFailedDetail := "Failed to send message"

  // ---------------------------------------------------------------------------
  // Text
  // ---------------------------------------------------------------------------

  /** `part` occurs in `text` starting at position `k`. */
  ghost predicate OccursAt(text: string, part: string, k: int)
  {
    0 <= k <= |text| - |part| && text[k..k + |part|] == part
  }

  /** `part` occurs in `text` as a contiguous piece. */
  ghost predicate Contains(text: string, part: string)
  {
    exists k :: OccursAt(text, part, k)
  }

  lemma ContainsItself(part: string)
    ensures Contains(part, part)
  {
    assert OccursAt(part, part, 0);
  }

  /** A piece of `x` is a piece of `x + y` and of `y + x`. */
  lemma ContainsExtended(x: string, y: string, part: string)
    requires Contains(x, part)
    ensures Contains(x + y, part) && Contains(y + x, part)
  {
    var k :| OccursAt(x, part, k);
    assert (x + y)[k..k + |part|] == x[k..k + |part|];
    assert OccursAt(x + y, part, k);
    assert (y + x)[|y| + k..|y| + k + |part|] == x[k..k + |part|];
    assert OccursAt(y + x, part, |y| + k);
  }

  function DigitChar(d: nat): char
    requires d < 10
  {
    "0123456789"[d]
  }

  /** Decimal text of a natural number, as `str` writes it. */
  function NatToString(n: nat): string
  {
    if n < 10 then [DigitChar(n)] else NatToString(n / 10) + [DigitChar(n % 10)]
  }

  /** Decimal text of an integer, with a minus sign when negative. */
  function IntToString(i: int): string
  {
    if i < 0 then "-" + NatToString(-i) else NatToString(i)
  }

  /** The reminder template. */
  function ReminderText(name: string, service: string, date: string): string
  {
    "Hola " + name + ", te recordamos que tu suscripción a " + service + " vence el " + date
      + ". ¡Renuévala para seguir disfrutando!"
  }

  /** The expiration-notice template. */
  function ExpirationText(name: string, service: string, days: string, date: string): string
  {
    "¡Atención " + name + "! Tu suscripción a " + service + " vence en " + days + " días ("
      + date + "). Renueva ahora para no perder acceso."
  }

  /** The text recorded for a send: the reminder or expiration template filled
      with the subscriber's data, or the caller's text for a custom message,
      falling back to a fixed sentence when that text is missing or empty. The
      recorded text is never empty. */
  function ComposeMessage(sub: Subscriber, kind: MessageType, custom: Option<string>,
                          dateText: Date -> string): (r: string)
    ensures |r| > 0
    ensures kind == Personalizado && custom.Some? && custom.value != "" ==> r == custom.value
    ensures kind == Personalizado && (custom.None? || custom.value == "") ==> r == DefaultCustomMessage
  {
    match kind
    case Recordatorio =>
      ReminderText(sub.name, ServiceValue(sub.service), dateText(sub.expirationDate))
    case Vencimiento =>
      ExpirationText(sub.name, ServiceValue(sub.service), IntToString(sub.daysRemaining),
                     dateText(sub.expirationDate))
    case Personalizado =>
      if custom.Some? && custom.value != "" then custom.value else DefaultCustomMessage
  }

  /** A reminder names the subscriber, the service and the expiration date. */
  lemma ReminderMentionsSubscriber(sub: Subscriber, custom: Option<string>, dateText: Date -> string)
    ensures Contains(ComposeMessage(sub, Recordatorio, custom, dateText), sub.name)
    ensures Contains(ComposeMessage(sub, Recordatorio, custom, dateText), ServiceValue(sub.service))
    ensures Contains(ComposeMessage(sub, Recordatorio, custom, dateText), dateText(sub.expirationDate))
  {
    var name, service, date := sub.name, ServiceValue(sub.service), dateText(sub.expirationDate);
    var a, b, c, d := "Hola ", ", te recordamos que tu suscripción a ", " vence el ",
      ". ¡Renuévala para seguir disfrutando!";
    // the template is ((((((a + name) + b) + service) + c) + date) + d)
    ContainsItself(name);
    ContainsExtended(name, a, name);
    ContainsExtended(a + name, b, name);
    ContainsExtended(a + name + b, service, name);
    ContainsExtended(a + name + b + service, c, name);
    ContainsExtended(a + name + b + service + c, date, name);
    ContainsExtended(a + name + b + service + c + date, d, name);
    ContainsItself(service);
    ContainsExtended(service, a + name + b, service);
    ContainsExtended(a + name + b + service, c, service);
    ContainsExtended(a + name + b + service + c, date, service);
    ContainsExtended(a + name + b + service + c + date, d, service);
    ContainsItself(date);
    ContainsExtended(date, a + name + b + service + c, date);
    ContainsExtended(a + name + b + service + c + date, d, date);
  }

  /** An expiration notice names the subscriber, the service, the days left
      and the expiration date. */
  lemma ExpirationNoticeMentionsSubscriber(sub: Subscriber, custom: Option<string>, dateText: Date -> string)
    ensures Contains(ComposeMessage(sub, Vencimiento, custom, dateText), sub.name)
    ensures Contains(ComposeMessage(sub, Vencimiento, custom, dateText), ServiceValue(sub.service))
    ensures Contains(ComposeMessage(sub, Vencimiento, custom, dateText), IntToString(sub.daysRemaining))
    ensures Contains(ComposeMessage(sub, Vencimiento, custom, dateText), dateText(sub.expirationDate))
  {
    var name, service, days, date :=
      sub.name, ServiceValue(sub.service), IntToString(sub.daysRemaining), dateText(sub.expirationDate);
    var a, b, c, d, e := "¡Atención ", "! Tu suscripción a ", " vence en ", " días (",
      "). Renueva ahora para no perder acceso.";
    // the template is ((((((((a + name) + b) + service) + c) + days) + d) + date) + e)
    ContainsItself(name);
    ContainsExtended(name, a, name);
    ContainsExtended(a + name, b, name);
    ContainsExtended(a + name + b, service, name);
    ContainsExtended(a + name + b + service, c, name);
    ContainsExtended(a + name + b + service + c, days, name);
    ContainsExtended(a + name + b + service + c + days, d, name);
    ContainsExtended(a + name + b + service + c + days + d, date, name);
    ContainsExtended(a + name + b + service + c + days + d + date, e, name);
    ContainsItself(service);
    ContainsExtended(service, a + name + b, service);
    ContainsExtended(a + name + b + service, c, service);
    ContainsExtended(a + name + b + service + c, days, service);
    ContainsExtended(a + name + b + service + c + days, d, service);
    ContainsExtended(a + name + b + service + c + days + d, date, service);
    ContainsExtended(a + name + b + service + c + days + d + date, e, service);
    ContainsItself(days);
    ContainsExtended(days, a + name + b + service + c, days);
    ContainsExtended(a + name + b + service + c + days, d, days);
    ContainsExtended(a + name + b + service + c + days + d, date, days);
    ContainsExtended(a + name + b + service + c + days + d + date, e, days);
    ContainsItself(date);
    ContainsExtended(date, a + name + b + service + c + days + d, date);
    ContainsExtended(a + name + b + service + c + days + d + date, e, date);
  }

  // ---------------------------------------------------------------------------
  // Handlers
  // ---------------------------------------------------------------------------

  /** `get_services`: the wire values of the catalog in declaration order; each
      one parses back to its service. */
  function GetServices(): (r: seq<string>)
    ensures |r| == |Catalog| == 8
    ensures forall i :: 0 <= i < |r| ==> ParseService(r[i]) == Some(Catalog[i])
  {
    var r := seq(|Catalog|, i requires 0 <= i < |Catalog| => ServiceValue(Catalog[i]));
    forall i | 0 <= i < |r| ensures ParseService(r[i]) == Some(Catalog[i]) {
      ParseServiceValue(Catalog[i]);
    }
    CatalogIsComplete(Netflix);
    r
  }

  /** `GET /subscribers`: the rebuilt records and their count, or an internal
      error when the listing refuses a record; either way the listing's
      write-back has happened. A store of well-formed records is listed as
      its refreshed records. */
  method ListSubscribers(db: Database, today: Date, now: Timestamp)
    returns (r: Result<SubscribersResponse, ApiError>)
    requires db.Valid()
    modifies db
    ensures db.Valid()
    ensures db.messageLogs == old(db.messageLogs)
    ensures db.subscribers == ListedStore(old(db.subscribers), today, now)
    ensures var ys := RefreshAll(old(db.subscribers), today, now);
      && (r.Success? <==> FirstRejected(ys) == |ys|)
      && (r.Success? ==>
            && r.value.total == |ys| == |r.value.subscribers|
            && forall k {:trigger r.value.subscribers[k]} :: 0 <= k < |ys| ==> ValidateSubscriber(ys[k]) == Success(r.value.subscribers[k]))
      && (r.Failure? ==> r.error == ServerError(InternalErrorDetail))
    ensures (forall k :: 0 <= k < |old(db.subscribers)| ==>
               Normalised(old(db.subscribers)[k]) && WithinBounds(old(db.subscribers)[k])) ==>
      r == Success(SubscribersResponse(RefreshAll(old(db.subscribers), today, now), |old(db.subscribers)|))
  {
    ghost var xs := db.subscribers;
    var list := db.GetSubscribers(today, now);
    if list.Failure? {
      r := Failure(ServerError(InternalErrorDetail));
      if forall k :: 0 <= k < |xs| ==> Normalised(xs[k]) && WithinBounds(xs[k]) {
        ListingOfWellFormedStore(xs, today, now);
      }
      return;
    }
    r := Success(SubscribersResponse(list.value, |list.value|));
    if forall k :: 0 <= k < |xs| ==> Normalised(xs[k]) && WithinBounds(xs[k]) {
      RebuiltWellFormedStore(xs, list.value, today, now);
    }
  }

  /** `POST /subscribers`: a rejected body changes nothing; an accepted one is
      normalised and stored, except that a name which normalises to the empty
      name fails to build and gives an internal error, storing nothing. */
  method CreateSubscriber(db: Database, raw: SubscriberInput, id: string, today: Date, now: Timestamp)
    returns (r: Result<Subscriber, ApiError>)
    requires db.Valid() && !HasId(db.subscribers, id)
    modifies db
    ensures db.Valid()
    ensures db.messageLogs == old(db.messageLogs)
    ensures ValidateCreate(raw).Failure? ==>
      r == Failure(Invalid(ValidateCreate(raw).error)) && db.subscribers == old(db.subscribers)
    ensures ValidateCreate(raw).Success? && ValidateCreate(raw).value.name == "" ==>
      r == Failure(ServerError(CreateFailedDetail)) && db.subscribers == old(db.subscribers)
    ensures ValidateCreate(raw).Success? && ValidateCreate(raw).value.name != "" ==>
      var s := NewSubscriber(ValidateCreate(raw).value, id, today, now);
      r == Success(s) && db.subscribers == old(db.subscribers) + [s]
  {
    var data := ValidateCreate(raw);
    if data.Failure? {
      return Failure(Invalid(data.error));
    }
    CreateStoredUnlessBlank(raw, id, today, now);
    var created := db.CreateSubscriber(data.value, id, today, now);
    if created.Failure? {
      r := Failure(ServerError(CreateFailedDetail));
    } else {
      r := Success(created.value);
    }
  }

  /** `GET /subscribers/{id}`: not found exactly when the repository has no
      record with the id; otherwise the record as read, or an internal error
      when the stored record cannot be rebuilt. */
  method GetSubscriber(db: Database, id: string, today: Date) returns (r: Result<Subscriber, ApiError>)
    ensures r == Failure(NotFound) <==> !HasId(db.subscribers, id)
    ensures HasId(db.subscribers, id) ==>
      var v := ReadView(db.subscribers[FindIndex(db.subscribers, id).value], today);
      && (v.Success? ==> r == Success(v.value))
      && (v.Failure? ==> r == Failure(ServerError(InternalErrorDetail)))
    ensures r.Success? ==> r.value.id == id && Consistent(r.value, today)
  {
    var found := db.GetSubscriberById(id, today);
    match found
    case Absent =>
      r := Failure(NotFound);
    case Rejected(_) =>
      r := Failure(ServerError(InternalErrorDetail));
    case Found(s) =>
      r := Success(s);
  }

  /** `PUT /subscribers/{id}`: a rejected body changes nothing; otherwise not
      found, and no change, for an unknown id; an internal error, and no
      change, when the stored record cannot be read; otherwise the update is
      written and the record read again, and an internal error is returned
      when that read fails, with the write in place. */
  method UpdateSubscriber(db: Database, id: string, raw: SubscriberUpdateInput, today: Date, now: Timestamp)
    returns (r: Result<Subscriber, ApiError>)
    requires db.Valid()
    modifies db
    ensures db.Valid()
    ensures db.messageLogs == old(db.messageLogs)
    ensures ValidateUpdate(raw).Failure? ==>
      r == Failure(Invalid(ValidateUpdate(raw).error)) && db.subscribers == old(db.subscribers)
    ensures ValidateUpdate(raw).Success? && !HasId(old(db.subscribers), id) ==>
      r == Failure(NotFound) && db.subscribers == old(db.subscribers)
    ensures ValidateUpdate(raw).Success? && HasId(old(db.subscribers), id) ==>
      var k := FindIndex(old(db.subscribers), id).value;
      var after := ApplyUpdate(old(db.subscribers)[k], ValidateUpdate(raw).value, today, now);
      && (ReadView(old(db.subscribers)[k], today).Failure? ==>
            r == Failure(ServerError(UpdateFailedDetail)) && db.subscribers == old(db.subscribers))
      && (ReadView(old(db.subscribers)[k], today).Success? ==>
            && db.subscribers == old(db.subscribers)[k := after]
            && (ReadView(after, today).Success? ==> r == Success(ReadView(after, today).value))
            && (ReadView(after, today).Failure? ==> r == Failure(ServerError(UpdateFailedDetail))))
  {
    var upd := ValidateUpdate(raw);
    if upd.Failure? {
      return Failure(Invalid(upd.error));
    }
    var updated := db.UpdateSubscriber(id, upd.value, today, now);
    match updated
    case Absent =>
      r := Failure(NotFound);
    case Rejected(_) =>
      r := Failure(ServerError(UpdateFailedDetail));
    case Found(s) =>
      r := Success(s);
  }

  /** `DELETE /subscribers/{id}`: not found exactly when the repository returns `false`. */
  method DeleteSubscriber(db: Database, id: string) returns (r: Result<string, ApiError>)
    requires db.Valid()
    modifies db
    ensures db.Valid()
    ensures db.messageLogs == old(db.messageLogs)
    ensures r.Failure? <==> !HasId(old(db.subscribers), id)
    ensures r.Failure? ==> r.error == NotFound && db.subscribers == old(db.subscribers)
    ensures r.Success? ==> r.value == DeletedConfirmation
    ensures !HasId(db.subscribers, id)
  {
    var deleted := db.DeleteSubscriber(id);
    if !deleted {
      r := Failure(NotFound);
    } else {
      r := Success(DeletedConfirmation);
    }
  }

  /** `GET /stats`: the repository's figures, or an internal error when its
      listing refuses a record. */
  method GetStats(db: Database, today: Date, now: Timestamp) returns (r: Result<Stats, ApiError>)
    requires db.Valid()
    modifies db
    ensures db.Valid()
    ensures db.messageLogs == old(db.messageLogs)
    ensures db.subscribers == ListedStore(old(db.subscribers), today, now)
    ensures var ys := RefreshAll(old(db.subscribers), today, now);
      && (r.Success? <==> FirstRejected(ys) == |ys|)
      && (r.Success? ==> r.value == StatsOf(ys))
      && (r.Failure? ==> r.error == ServerError(InternalErrorDetail))
  {
    var stats := db.GetStats(today, now);
    if stats.Failure? {
      r := Failure(ServerError(InternalErrorDetail));
    } else {
      r := Success(stats.value);
    }
  }

  /** `POST /send-message`: not found, and no log, for an unknown subscriber;
      an internal error, and no log, when the stored record cannot be read;
      otherwise exactly one log with the composed text (built from the record
      as freshly read) and a confirmation naming the subscriber. Subscribers
      are never changed. */
  method SendMessage(db: Database, req: MessageLogCreate, logId: string, today: Date, now: Timestamp,
                     dateText: Date -> string)
    returns (r: Result<MessageResponse, ApiError>)
    requires db.Valid()
    modifies db
    ensures db.Valid()
    ensures db.subscribers == old(db.subscribers)
    ensures !HasId(old(db.subscribers), req.subscriberId) ==>
      r == Failure(NotFound) && db.messageLogs == old(db.messageLogs)
    ensures HasId(old(db.subscribers), req.subscriberId) ==>
      var v := ReadView(old(db.subscribers)[FindIndex(old(db.subscribers), req.subscriberId).value], today);
      && (v.Failure? ==> r == Failure(ServerError(SendFailedDetail)) && db.messageLogs == old(db.messageLogs))
      && (v.Success? ==>
            var log := MessageLog(logId, req.subscriberId, req.messageType,
                                  Some(ComposeMessage(v.value, req.messageType, req.message, dateText)), Sent, now);
            && db.messageLogs == old(db.messageLogs) + [log]
            && r == Success(MessageResponse(true, SentConfirmationPrefix + v.value.name, Some(log))))
  {
    var found := db.GetSubscriberById(req.subscriberId, today);
    match found
    case Absent =>
      r := Failure(NotFound);
    case Rejected(_) =>
      r := Failure(ServerError(SendFailedDetail));
    case Found(sub) =>
      var text := ComposeMessage(sub, req.messageType, req.message, dateText);
      var log := db.CreateMessageLog(MessageLogCreate(req.subscriberId, req.messageType, Some(text)), logId, now);
      r := Success(MessageResponse(true, SentConfirmationPrefix + sub.name, Some(log)));
  }
}
