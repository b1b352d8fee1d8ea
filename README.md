# Subscriber status engine and repository

A Dafny model of the back end of a tracker for shared streaming-service
subscriptions. Each subscriber has a service from a fixed catalog, a name, a
phone, an e-mail and an expiration date. Two fields are derived from the
expiration date: `daysRemaining`, the signed number of days until expiry, and
`status`. A subscription is `expired` below zero days, `expiring` from zero to
seven days inclusive, and `active` above seven.

The model covers:

- the status engine;
- the repository: create, list (which writes the refreshed derived fields
  back), read by id (which does not), sparse update, hard delete, statistics
  and message logs;
- the normalisation and validation of request fields;
- the handlers that turn a missing record into *not found*, compose reminder,
  expiration-notice and custom messages, and list the service catalog.

Files, one module each:

- `wrappers.dfy`: `Option` and `Result`.
- `models.dfy` (backend/models.py): closed enumerations, the catalog, records,
  `strip`/`upper`/digit filtering, and create and update validation.
- `status_engine.dfy` (backend/database.py:38-51): day count and status tier.
- `repository.dfy` (backend/database.py): class `Database`. It holds two
  sequences, `subscribers` and `messageLogs`, in insertion order, and has one
  method per repository operation. The specification functions on records
  (`WithDerived`, `RefreshAll`, `ApplyUpdate`, `StatsOf`) sit next to it.
- `server.dfy` (backend/server.py): message composition and the handlers.
- `scenarios.dfy`: client runs of the create/read/update/delete sequence of
  crud_test.py, and of the message and statistics checks of backend_test.py,
  proved from the contracts alone.

Dates are integer day numbers. Today's date, timestamps and new ids are
parameters supplied by the caller, and new ids must be unused. Rendering a date
as text belongs to Python's standard library, so it is a parameter
`dateText: Date -> string` of the message functions.

Four details of the code's behaviour that are easy to miss, all kept in the
model:

- On create, the raw phone must be 9 to 15 characters long and the raw name 1
  to 100 characters, both checked before normalisation. Request validation of
  an update applies no length bounds, only the nine-digit minimum.
- Every record the repository hands out is rebuilt as a `Subscriber`
  (backend/database.py:61, 114, 136). The rebuild applies the name bounds
  (1 to 100) and the phone bounds (9 to 15) again, this time to the normalised
  values, and raises when they fail. So a create whose name is only blanks gets
  an internal error and stores nothing. An update to the empty name or to a
  phone of more than 15 digits is written, but the read that follows fails.
  From then on every read of that record fails, and so does every listing,
  statistics call and message to it. A listing writes back each record before
  rebuilding it, so the records before the refused one, and the refused one
  itself, are already refreshed when it stops.
- Read-by-id does not refresh `updatedAt`; only listing does.
- Recording a message log does not check the subscriber id. The check happens
  in the send handler.

## Model

| member | source | states |
|---|---|---|
| `Models.CatalogIsComplete` | backend/models.py:7-15 | the catalog has exactly eight entries, every service is in it, and none appears twice |
| `Models.ServiceValueInjective` | backend/models.py:7-15 | different services have different wire values |
| `Models.FindService` | backend/models.py:7-15 | a lookup result has the requested wire value; no result means no candidate has it |
| `Models.ParseService` | backend/models.py:33 | a wire value becomes the service with that value; it is rejected exactly when no service has that value |
| `Models.ParseServiceValue` | backend/models.py:7-15 | parsing a service's wire value gives that service back |
| `Models.EnumValuesInjective` | backend/models.py:17-29 | different tiers, different message types and different message statuses have different wire values |
| `Models.TrimStart` | backend/models.py:41 | the result is a suffix of the input; everything removed is white space; the result does not start with white space |
| `Models.TrimEnd` | backend/models.py:41 | the result is a prefix of the input; everything removed is white space; the result does not end with white space |
| `Models.Strip` | backend/models.py:41 | the stripped text has no white space at either end |
| `Models.StripKeepsTheMiddle` | backend/models.py:41 | the stripped text is a contiguous slice of the input, with only white space before and after it |
| `Models.StripFixesStripped` | backend/models.py:41 | text without outer white space is left unchanged by strip |
| `Models.UpperCharFacts` | backend/models.py:41 | upper-casing a character neither creates nor removes white space, and doing it twice is doing it once |
| `Models.NormalizeName` | backend/models.py:39-41 | the normalised name (strip, then upper) has no outer white space and is already upper case; with the model's case mapping it is also no longer than the input (see Left out) |
| `Models.NormalizeNameIdempotent` | backend/models.py:39-41 | normalising a name a second time changes nothing |
| `Models.NormalNameIsFixed` | backend/models.py:39-41 | a name has no outer white space and is upper case exactly when normalising it changes nothing |
| `Models.BlankNameNormalizesToEmpty` | backend/models.py:39-41 | a name made only of white space normalises to the empty name |
| `Models.Digits` | backend/models.py:45-46 | only digits remain, and the result is no longer than the input |
| `Models.DigitsKeepsEveryDigit` | backend/models.py:46 | every digit of the input is kept exactly as often as it occurs, and nothing else is kept |
| `Models.DigitsAppend` | backend/models.py:46 | filtering keeps order: the digits of `a + b` are those of `a` followed by those of `b` |
| `Models.DigitsOfDigits` | backend/models.py:46 | a phone made only of digits is unchanged by the filter |
| `Models.ValidatePhone` | backend/models.py:43-49 | a phone is accepted exactly when it has at least nine digits; an accepted phone is its digits, and a rejected one reports too few digits |
| `Models.ValidatePhoneIdempotent` | backend/models.py:43-49 | an accepted phone is all digits, and validating it again accepts it unchanged |
| `Models.ValidateCreate` | backend/models.py:32-49 | a create body is accepted exactly when the service is known, the raw name is 1 to 100 characters, the raw phone is 9 to 15 characters and has at least nine digits; the accepted request carries the normalised name and the phone's digits; a rejection lists at least one field error |
| `Models.ValidateCreateNormalises` | backend/models.py:32-49 | the name and phone of an accepted create request are already in the form their validators give |
| `Models.ValidateCreateAcceptsBlankName` | backend/models.py:34-41 | the length bounds apply before normalisation, so a name of blanks passes request validation and is normalised to ""; building the record from it then fails (`Repository.CreateStoredUnlessBlank`) |
| `Models.ValidateUpdate` | backend/models.py:54-74 | an absent field stays absent; a present name is normalised; a present phone is reduced to its digits and rejected below nine; an unknown service is rejected; request validation applies no length bounds |
| `Models.ValidateUpdateNormalises` | backend/models.py:54-74 | a name or phone an accepted update carries is already in normal form, and the phone has at least nine digits |
| `Models.ValidateSubscriber` | backend/models.py:32-49 | rebuilding a `Subscriber` succeeds exactly when the name is 1 to 100 characters and the phone 9 to 15 characters with at least nine digits; the rebuilt record differs only in its normalised name and phone; a refusal lists at least one field error |
| `Models.ValidateSubscriberNormalised` | backend/models.py:76-84 | a rebuilt record is in normal form, and a record in normal form is rebuilt unchanged exactly when it is within the bounds |
| `StatusEngine.DaysRemaining` | backend/database.py:38-42 | today plus the day count is the expiration date, so the count is negative exactly when the date has passed |
| `StatusEngine.CalculateStatus` | backend/database.py:44-51 | `Expired` iff fewer than 0 days, `Expiring` iff 0 to 7 days inclusive, `Active` iff more than 7 days; exactly one tier holds |
| `StatusEngine.StatusMonotone` | backend/database.py:44-51 | more days remaining never gives a worse tier |
| `StatusEngine.StatusNeverImprovesOverTime` | backend/database.py:38-51 | for a fixed expiration date, a later day never has a better tier |
| `StatusEngine.StatusBoundaries` | backend/database.py:44-51 | 7 days ahead is `Expiring`, 8 days ahead is `Active`, yesterday is `Expired`, today is `Expiring` |
| `Repository.WithDerived` | backend/database.py:128-134 | derived fields consistent with the expiration date for today; every other field, `updatedAt` included, is unchanged |
| `Repository.ReadView` | backend/database.py:128-136 | a read succeeds exactly when the stored record rebuilds; the result then has the stored id and `updatedAt` and derived fields consistent for today; a record in normal form within the bounds reads back as itself with fresh derived fields |
| `Repository.Refreshed` | backend/database.py:96-112 | a listed record has consistent derived fields and `updatedAt == now`; its other fields are unchanged |
| `Repository.RefreshAll` | backend/database.py:94-114 | one refreshed entry per stored record, in store order |
| `Repository.RefreshAllTwice` | backend/database.py:88-117 | listing twice on the same day is listing once at the later instant: identical day counts and tiers |
| `Repository.NewSubscriber` | backend/database.py:53-65 | a created record carries the request's fields, the given id and timestamps, and derived fields consistent with today |
| `Repository.CreateStoredUnlessBlank` | backend/database.py:53-65 | for an accepted create request, building the record succeeds exactly when the normalised name is not empty, and then gives exactly the record `NewSubscriber` describes |
| `Repository.FirstRejected` | backend/database.py:94-114 | every record before the position found rebuilds, and the record at it does not |
| `Repository.ListedStore` | backend/database.py:94-114 | after a listing, every record up to and including the first refused one is refreshed and the rest are as they were; the length is unchanged |
| `Repository.ListingStopsAt` | backend/database.py:94-114 | a walk whose first refusal is at position `i` leaves the first `i + 1` records refreshed and the rest unchanged |
| `Repository.ListingDone` | backend/database.py:94-117 | a walk that rebuilt every record leaves the fully refreshed store, which keeps unique ids |
| `Repository.ListingFailed` | backend/database.py:94-121 | a walk that stopped at a refused record leaves the partly refreshed store, which keeps unique ids |
| `Repository.ListingOfWellFormedStore` | backend/database.py:94-114 | when every record is in normal form and within the bounds, the listing refuses none, refreshes them all and rebuilds each to itself |
| `Repository.RebuiltWellFormedStore` | backend/database.py:94-117 | the records a listing of such a store returns are exactly the refreshed records |
| `Repository.FindIndex` | backend/database.py:126 | the position found holds the id and no earlier position does; no position exactly when no record has the id |
| `Repository.AppendKeepsIds` | backend/database.py:76 | inserting a record under an unused id keeps the ids unique |
| `Repository.OverwriteKeepsIds` | backend/database.py:164-167 | overwriting a record with one of the same id keeps the ids unique and every lookup by id where it was |
| `Repository.RemoveAt` | backend/database.py:183 | removing the record with an id leaves no record with that id, and the remaining ids are still unique |
| `Repository.ApplyUpdate` | backend/database.py:152-167 | fields present in the update are overwritten, the rest are kept; `updatedAt` becomes now; derived fields are recomputed exactly when an expiration date is given, and otherwise kept as stored |
| `Repository.ApplyUpdateIdempotent` | backend/database.py:152-167 | applying the same update twice equals applying it once |
| `Repository.EmptyUpdateOnlyTouchesTimestamp` | backend/database.py:152-154 | an update with no fields changes only `updatedAt` |
| `Repository.UpdateReadable` | backend/database.py:164-172 | a normalised update written to a well-formed record leaves a record that still reads back exactly when a new name is 1 to 100 characters and a new phone at most 15 digits |
| `Repository.UpdatedRecordReadable` | backend/database.py:164-172 | for an update request that passes validation, the written record reads back exactly when the new name normalises to 1 to 100 characters and the new phone has at most 15 digits |
| `Repository.TiersPartition` | backend/database.py:200-203 | every record is counted in exactly one tier |
| `Repository.ExpiredArePastDue` | backend/database.py:198-203 | after a refresh, the expired count is the number of records whose expiration date is before today |
| `Repository.StatsOf` | backend/database.py:200-214 | total is the record count and the sum of the three tiers; revenue is 15 per record that is not expired |
| `Repository.CountStatusSameTiers` | backend/database.py:201-203 | each tier count depends only on the tiers, position by position |
| `Repository.SameTiersSameStats` | backend/database.py:198-214 | records in the same tiers, position by position, give the same figures |
| `Repository.StoredDaysRemaining` | backend/database.py:38-42 | a stored value gives a day count exactly when it is a date, and then today plus the count is that date |
| `Repository.CreatedDateHasNoDayCount` | backend/database.py:67-70 | the ISO text create stores for the expiration date gives no day count on any later read, whatever the rendering (see Findings) |
| `Repository.StoredDateGivesDayCount` | backend/database.py:38-51 | a stored date gives the status engine's day count and tier on every read |
| `Repository.Database.constructor` | backend/database.py:10-13 | a new repository is empty |
| `Repository.Database.CreateSubscriber` | backend/database.py:53-86 | the result is the rebuild of the new record; on failure nothing is stored; on success exactly that record is appended; existing records and the logs are unchanged |
| `Repository.Database.GetSubscribers` | backend/database.py:88-121 | the store becomes the listed store; success exactly when no refreshed record is refused, and then every record is refreshed and each returned record is the rebuild of its refreshed record, in order; otherwise the errors of the first refused record |
| `Repository.Database.GetSubscriberById` | backend/database.py:123-142 | `Absent` exactly when no record has the id; otherwise the read of the first record with it, found or rejected; a found record has the id and derived fields for today; nothing is written (no modifies clause) |
| `Repository.Database.UpdateSubscriber` | backend/database.py:144-178 | unknown id: `Absent` and no change; a stored record that does not read: its errors and no change; otherwise only that record is replaced by the sparse update, and the result is the read of the written record, whether or not the store saw a change |
| `Repository.Database.DeleteSubscriber` | backend/database.py:180-193 | `true` exactly when a record with the id existed; afterwards none remains; the others are kept, in order |
| `Repository.Database.GetStats` | backend/database.py:195-218 | performs a listing with its write-back; success exactly when the listing refuses nothing, and then the figures of the refreshed records: total is the record count, expired the number of past-due records, revenue 15 × (total − expired) |
| `Repository.Database.CreateMessageLog` | backend/database.py:220-238 | exactly one log is appended, with status `Sent` and the request's subscriber id, type and text; subscribers are unchanged |
| `Server.ComposeMessage` | backend/server.py:163-169 | the recorded text is never empty; a custom message is the caller's text, or "Mensaje personalizado enviado." when that text is missing or empty |
| `Server.ReminderMentionsSubscriber` | backend/server.py:164-165 | a reminder contains the subscriber's name, the service value and the rendered expiration date |
| `Server.ExpirationNoticeMentionsSubscriber` | backend/server.py:166-167 | an expiration notice contains the name, the service value, the day count and the rendered expiration date |
| `Server.GetServices` | backend/server.py:196-203 | eight values, in catalog declaration order, each parsing back to its service |
| `Server.ListSubscribers` | backend/server.py:63-74 | the listing's write-back always happens; success exactly when no record is refused, with the rebuilt records and a total equal to the number stored; otherwise "Internal server error"; a store of well-formed records lists as its refreshed records |
| `Server.CreateSubscriber` | backend/server.py:76-87 | a rejected body is reported with its field errors and changes nothing; an accepted body whose name normalises to "" gives "Failed to create subscriber" and changes nothing; any other accepted body stores and returns the normalised record |
| `Server.GetSubscriber` | backend/server.py:89-104 | not found exactly when the repository has no record with the id; otherwise the record as read, or "Internal server error" when the stored record does not rebuild |
| `Server.UpdateSubscriber` | backend/server.py:106-122 | a rejected body changes nothing; an unknown id is not found and changes nothing; a stored record that does not read gives "Failed to update subscriber" and changes nothing; otherwise the update is written and the result is the written record as read, or "Failed to update subscriber" when that read fails, with the write in place |
| `Server.DeleteSubscriber` | backend/server.py:124-139 | not found exactly when the repository returns `false`; the store is then unchanged; otherwise a fixed confirmation |
| `Server.GetStats` | backend/server.py:141-149 | the listing's write-back always happens; success exactly when no record is refused, with the figures of the refreshed records; otherwise "Internal server error" |
| `Server.SendMessage` | backend/server.py:151-193 | unknown subscriber: not found and no log; a record that does not read: "Failed to send message" and no log; otherwise exactly one log, status `Sent`, holding the text composed from the record as read, with `success` true and "Mensaje enviado exitosamente a " + name; subscribers never change |
| `Scenarios.CreateThenFind` | crud_test.py:37-54 | a created record is found at its position, and a fresh read returns it unchanged |

## Left out

- The MongoDB driver: connect, disconnect, cursors, `_id` and the conversion of timestamps to ISO strings. The store is two sequences.
- Store failures: a failing driver call (a lost connection, a refused insert) is not modelled. The internal errors the handlers give for a record that does not rebuild are modelled.
- Repository.Database.UpdateSubscriber: for a new expiration date, `update_subscriber` passes a `datetime.date` to `update_one` (backend/database.py:153-166). BSON has no encoding for that type, so in the source an update that carries `expirationDate` raises before anything is written, and the handler answers "Failed to update subscriber". The model writes the date and recomputes the derived fields, which is what lines 157-161 are written to do. `Server.UpdateSubscriber` inherits this.
- The date range: Python dates cover years 1 to 9999, but model dates are unbounded integers, and parsing dates from request text is not modelled.
- Clock and ids: `date.today()`, `datetime.utcnow()` and `uuid4()` are parameters. Where the source reads the clock twice in one operation (`createdAt` and `updatedAt` on create; the returned and stored `updatedAt` on list), the model uses one `now`.
- Server.ComposeMessage: `str(date)` is standard-library code, so it is the `dateText` parameter.
- Server.ComposeMessage: the service is rendered by its wire value (`NETFLIX`). That is what Python 3.10 and earlier print for a `str`-mixin enum in an f-string; Python 3.11 and later print `ServiceType.NETFLIX`.
- `EmailStr` validation is done by an external library and is not modelled: the e-mail passes through unchanged.
- Models.UpperChar: only basic Latin and Latin-1 letters are mapped, with `ß` left alone (Python's `upper()` turns it into "SS"). Other scripts are unchanged, so the model is weaker than Python's full Unicode case mapping.
- Models.NormalizeName: its `|r| <= |v|` holds only because of that case mapping. In Python a name such as 100 `ß` passes the raw bounds, grows to 200 characters when upper-cased, and then fails the rebuild on create. The model stores it.
- Models.IsDigit: only ASCII `0`–`9` counts as a digit; Python's `str.isdigit` also accepts other Unicode digits.
- Request parsing and HTTP: missing fields, the message-type value, status codes other than not-found and validation, CORS, startup and shutdown hooks, logging and async/await.
- The health check: it returns a fixed message.
- Revenue is a float `15.0 × n` in the source, and an integer here because the product is exact.
- The front end and its mock data: they are display code, not back-end behaviour.

## Findings

| source | as written | input that shows it | evidently intended | confidence | as-written member | corrected member |
|---|---|---|---|---|---|---|
| backend/database.py:69-70 | create stores the expiration date as its ISO text, while list and read-by-id subtract today's date from the stored value (lines 41, 96, 130) | any subscriber created through the API, then listed or read: `"2026-10-24" - date.today()` raises a type error, which the handlers turn into "Internal server error" | the stored value is a date (or is parsed back into one), so every later read gets its day count and tier | not executed | `Repository.CreatedDateHasNoDayCount` | `Repository.StoredDateGivesDayCount` |
