/** Records, closed enumerations and field normalisation of the subscriber API
    (backend/models.py). */
module Models {
  import opened Wrappers

  /** A calendar date as a day number (the proleptic Gregorian ordinal); dates
      are only ever subtracted from one another. */
  type Date = int

  /** A timestamp the caller supplies (the source reads the UTC clock). */
  type Timestamp = int

  // ---------------------------------------------------------------------------
  // Closed enumerations
  // ---------------------------------------------------------------------------

  /** The streaming services a subscription can be for. */
  datatype ServiceType =
    | Netflix | AmazonPrime | DisneyPlus | HboMax
    | Spotify | YoutubePremium | AppleTvPlus | ParamountPlus

  /** The wire value of each service. */
  function ServiceValue(s: ServiceType): string
  {
    match s
    case Netflix => "NETFLIX"
    case AmazonPrime => "AMAZON PRIME"
    case DisneyPlus => "DISNEY+"
    case HboMax => "HBO MAX"
    case Spotify => "SPOTIFY"
    case YoutubePremium => "YOUTUBE PREMIUM"
    case AppleTvPlus => "APPLE TV+"
    case ParamountPlus => "PARAMOUNT+"
  }

  /** The catalog, in declaration order. */
  const Catalog: seq<ServiceType> :=
    [Netflix, AmazonPrime, DisneyPlus, HboMax, Spotify, YoutubePremium, AppleTvPlus, ParamountPlus]

  /** The catalog holds every service exactly once, so it has eight entries. */
  lemma CatalogIsComplete(s: ServiceType)
    ensures |Catalog| == 8
    ensures s in Catalog
    ensures forall i, j :: 0 <= i < j < |Catalog| ==> Catalog[i] != Catalog[j]
  {
  }

  /** Different services have different wire values. */
  lemma ServiceValueInjective(a: ServiceType, b: ServiceType)
    ensures ServiceValue(a) == ServiceValue(b) ==> a == b
  {
  }

  /** Looks a wire value up among `candidates`, first match first. */
  function FindService(v: string, candidates: seq<ServiceType>): (r: Option<ServiceType>)
    ensures r.Some? ==> r.value in candidates && ServiceValue(r.value) == v
    ensures r.None? ==> forall i :: 0 <= i < |candidates| ==> ServiceValue(candidates[i]) != v
    decreases |candidates|
  {
    if candidates == [] then None
    else if ServiceValue(candidates[0]) == v then Some(candidates[0])
    else FindService(v, candidates[1..])
  }

  /** Converts a wire value into a service, as the enumeration's constructor
      does; an unknown value has no service. */
  function ParseService(v: string): (r: Option<ServiceType>)
    ensures r.Some? ==> ServiceValue(r.value) == v
    ensures r.None? <==> forall s: ServiceType :: ServiceValue(s) != v
  {
    var r := FindService(v, Catalog);
    assert r.None? ==> forall s: ServiceType :: ServiceValue(s) != v by {
      if r.None? {
        forall s: ServiceType ensures ServiceValue(s) != v {
          CatalogIsComplete(s);
          var i :| 0 <= i < |Catalog| && Catalog[i] == s;
        }
      }
    }
    r
  }

  /** Parsing the wire value of a service gives that service back. */
  lemma ParseServiceValue(s: ServiceType)
    ensures ParseService(ServiceValue(s)) == Some(s)
  {
    var r := ParseService(ServiceValue(s));
    assert r.Some?;
    ServiceValueInjective(r.value, s);
  }

  /** The status tier of a subscription. */
  datatype SubscriberStatus = Active | Expiring | Expired

  function StatusValue(s: SubscriberStatus): string
  {
    match s
    case Active => "active"
    case Expiring => "expiring"
    case Expired => "expired"
  }

  /** The kind of message sent: a reminder, an expiration notice or custom text. */
  datatype MessageType = Recordatorio | Vencimiento | Personalizado

  function MessageTypeValue(t: MessageType): string
  {
    match t
    case Recordatorio => "recordatorio"
    case Vencimiento => "vencimiento"
    case Personalizado => "personalizado"
  }

  datatype MessageStatus = Sent | Failed

  function MessageStatusValue(s: MessageStatus): string
  {
    match s
    case Sent => "sent"
    case Failed => "failed"
  }

  /** The wire values of the three smaller enumerations tell their members apart. */
  lemma EnumValuesInjective(a: SubscriberStatus, b: SubscriberStatus, c: MessageType, d: MessageType,
                            e: MessageStatus, f: MessageStatus)
    ensures StatusValue(a) == StatusValue(b) ==> a == b
    ensures MessageTypeValue(c) == MessageTypeValue(d) ==> c == d
    ensures MessageStatusValue(e) == MessageStatusValue(f) ==> e == f
  {
  }

  // ---------------------------------------------------------------------------
  // Records
  // ---------------------------------------------------------------------------

  /** A stored subscription; `status` and `daysRemaining` are derived from
      `expirationDate`. */
  datatype Subscriber = Subscriber(
    id: string,
    service: ServiceType,
    name: string,
    phone: string,
    email: string,
    expirationDate: Date,
    status: SubscriberStatus,
    daysRemaining: int,
    createdAt: Timestamp,
    updatedAt: Timestamp)

  /** The body of a create request before validation; `service` is still text. */
  datatype SubscriberInput = SubscriberInput(
    service: string, name: string, phone: string, email: string, expirationDate: Date)

  /** A validated, normalised create request. */
  datatype SubscriberCreate = SubscriberCreate(
    service: ServiceType, name: string, phone: string, email: string, expirationDate: Date)

  /** The body of an update request before validation; `None` leaves a field alone. */
  datatype SubscriberUpdateInput = SubscriberUpdateInput(
    service: Option<string>, name: Option<string>, phone: Option<string>,
    email: Option<string>, expirationDate: Option<Date>)

  /** A validated, normalised update request. */
  datatype SubscriberUpdate = SubscriberUpdate(
    service: Option<ServiceType>, name: Option<string>, phone: Option<string>,
    email: Option<string>, expirationDate: Option<Date>)

  datatype MessageLogCreate = MessageLogCreate(
    subscriberId: string, messageType: MessageType, message: Option<string>)

  datatype MessageLog = MessageLog(
    id: string,
    subscriberId: string,
    messageType: MessageType,
    message: Option<string>,
    status: MessageStatus,
    sentAt: Timestamp)

  /** Why a request body was rejected, one entry per failing field. */
  datatype FieldError = UnknownService | NameLength | PhoneLength | PhoneTooFewDigits

  // ---------------------------------------------------------------------------
  // Name normalisation: strip, then upper-case
  // ---------------------------------------------------------------------------

  /** The characters Python's `str.strip()` removes. */
  predicate IsSpace(c: char)
  {
    || ('\t' <= c <= '\r')
    || ('\U{1C}' <= c <= ' ')
    || c == '\U{85}' || c == '\U{A0}' || c == '\U{1680}'
    || ('\U{2000}' <= c <= '\U{200A}')
    || c == '\U{2028}' || c == '\U{2029}' || c == '\U{202F}' || c == '\U{205F}' || c == '\U{3000}'
  }

  /** Neither the first nor the last character is white space. */
  predicate NoOuterSpace(s: string)
  {
    s != [] ==> !IsSpace(s[0]) && !IsSpace(s[|s| - 1])
  }

  /** `s` without its leading white space. */
  function TrimStart(s: string): (r: string)
    ensures |r| <= |s| && r == s[|s| - |r|..]
    ensures forall k :: 0 <= k < |s| - |r| ==> IsSpace(s[k])
    ensures r != [] ==> !IsSpace(r[0])
  {
    if s != [] && IsSpace(s[0]) then TrimStart(s[1..]) else s
  }

  /** `s` without its trailing white space. */
  function TrimEnd(s: string): (r: string)
    ensures |r| <= |s| && r == s[..|r|]
    ensures forall k :: |r| <= k < |s| ==> IsSpace(s[k])
    ensures r != [] ==> !IsSpace(r[|r| - 1])
  {
    if s != [] && IsSpace(s[|s| - 1]) then TrimEnd(s[..|s| - 1]) else s
  }

  /** Python's `str.strip()`. */
  function Strip(s: string): (r: string)
    ensures NoOuterSpace(r)
  {
    TrimEnd(TrimStart(s))
  }

  /** Strip removes white space at both ends and nothing else: the result is a
      contiguous slice of the input with only white space around it. */
  lemma StripKeepsTheMiddle(s: string)
    ensures exists i, j ::
      && 0 <= i <= j <= |s| && Strip(s) == s[i..j]
      && (forall k :: 0 <= k < i ==> IsSpace(s[k]))
      && (forall k :: j <= k < |s| ==> IsSpace(s[k]))
  {
    var t := TrimStart(s);
    var r := TrimEnd(t);
    var i := |s| - |t|;
    var j := i + |r|;
    SliceOfSuffix(s, t, r);
    assert && 0 <= i <= j <= |s| && Strip(s) == s[i..j]
           && (forall k :: 0 <= k < i ==> IsSpace(s[k]))
           && (forall k :: j <= k < |s| ==> IsSpace(s[k]));
  }

  /** A prefix `r` of the suffix `t` of `s` is the slice of `s` between them,
      and what follows it in `s` is what follows it in `t`. */
  lemma SliceOfSuffix(s: string, t: string, r: string)
    requires |t| <= |s| && t == s[|s| - |t|..]
    requires |r| <= |t| && r == t[..|r|]
    requires forall k :: |r| <= k < |t| ==> IsSpace(t[k])
    ensures r == s[|s| - |t|..|s| - |t| + |r|]
    ensures forall k :: |s| - |t| + |r| <= k < |s| ==> IsSpace(s[k])
  {
    var i := |s| - |t|;
    forall k | i + |r| <= k < |s| ensures IsSpace(s[k]) {
      assert s[k] == t[k - i];
    }
  }

  /** A string with no outer white space is left alone by Strip. */
  lemma StripFixesStripped(s: string)
    requires NoOuterSpace(s)
    ensures Strip(s) == s
  {
  }

  /** Python's `str.upper()` on one character: basic Latin and Latin-1 letters. */
  function UpperChar(c: char): char
  {
    if 'a' <= c <= 'z' then (c as int - 32) as char
    else if '\U{E0}' <= c <= '\U{FE}' && c != '\U{F7}' then (c as int - 32) as char
    else if c == '\U{FF}' then '\U{178}'
    else if c == '\U{B5}' then '\U{39C}'
    else c
  }

  /** Python's `str.upper()`, character by character. */
  function Upper(s: string): string
  {
    seq(|s|, k requires 0 <= k < |s| => UpperChar(s[k]))
  }

  /** Upper-casing neither creates nor removes white space, and is idempotent
      on every character. */
  lemma UpperCharFacts(c: char)
    ensures IsSpace(UpperChar(c)) == IsSpace(c)
    ensures UpperChar(UpperChar(c)) == UpperChar(c)
  {
  }

  /** The normalised name: trimmed and upper-cased. The result has no white
      space at either end, is already upper case, and is no longer than the
      input. */
  function NormalizeName(v: string): (r: string)
    ensures NoOuterSpace(r)
    ensures Upper(r) == r
    ensures |r| <= |v|
  {
    var t := Strip(v);
    var r := Upper(t);
    forall k | 0 <= k < |t| ensures UpperChar(r[k]) == r[k] && IsSpace(r[k]) == IsSpace(t[k]) {
      UpperCharFacts(t[k]);
    }
    r
  }

  /** Normalising a name a second time changes nothing. */
  lemma NormalizeNameIdempotent(v: string)
    ensures NormalizeName(NormalizeName(v)) == NormalizeName(v)
  {
    var n := NormalizeName(v);
    StripFixesStripped(n);
  }

  /** A name made only of white space normalises to the empty name. */
  lemma BlankNameNormalizesToEmpty(v: string)
    requires forall k :: 0 <= k < |v| ==> IsSpace(v[k])
    ensures NormalizeName(v) == ""
  {
  }

  // ---------------------------------------------------------------------------
  // Phone normalisation: keep the digits
  // ---------------------------------------------------------------------------

  const MinPhoneDigits := 9

  predicate IsDigit(c: char)
  {
    '0' <= c <= '9'
  }

  /** The digits of `s`, in order: `''.join(filter(str.isdigit, s))`. Every
      character of the result is a digit. */
  function Digits(s: string): (r: string)
    ensures |r| <= |s|
    ensures forall k :: 0 <= k < |r| ==> IsDigit(r[k])
  {
    if s == [] then [] else (if IsDigit(s[0]) then [s[0]] else []) + Digits(s[1..])
  }

  /** The filter drops exactly the non-digits: every digit of the input is kept
      as many times as it occurs. */
  lemma {:induction false} DigitsKeepsEveryDigit(s: string)
    ensures forall c :: multiset(Digits(s))[c] == if IsDigit(c) then multiset(s)[c] else 0
  {
    if s != [] {
      DigitsKeepsEveryDigit(s[1..]);
      assert s == [s[0]] + s[1..];
    }
  }

  /** Filtering keeps the order: the digits of a concatenation are the digits of
      the first part followed by those of the second. */
  lemma {:induction false} DigitsAppend(a: string, b: string)
    ensures Digits(a + b) == Digits(a) + Digits(b)
  {
    if a == [] {
      assert a + b == b;
    } else {
      assert (a + b)[1..] == a[1..] + b;
      DigitsAppend(a[1..], b);
    }
  }

  /** A string of digits is its own digit filter. */
  lemma {:induction false} DigitsOfDigits(s: string)
    requires forall k :: 0 <= k < |s| ==> IsDigit(s[k])
    ensures Digits(s) == s
  {
    if s != [] {
      DigitsOfDigits(s[1..]);
    }
  }

  /** `validate_phone`: the digits of the input, rejected when fewer than nine. */
  function ValidatePhone(v: string): (r: Result<string, FieldError>)
    ensures r.Success? <==> |Digits(v)| >= MinPhoneDigits
    ensures r.Success? ==> r.value == Digits(v) && |r.value| >= MinPhoneDigits
    ensures r.Failure? ==> r.error == PhoneTooFewDigits
  {
    var clean := Digits(v);
    if |clean| < MinPhoneDigits then Failure(PhoneTooFewDigits) else Success(clean)
  }

  /** An accepted phone is all digits, and validating it again gives it back. */
  lemma ValidatePhoneIdempotent(v: string)
    requires ValidatePhone(v).Success?
    ensures forall k :: 0 <= k < |ValidatePhone(v).value| ==> IsDigit(ValidatePhone(v).value[k])
    ensures ValidatePhone(ValidatePhone(v).value) == ValidatePhone(v)
  {
    DigitsOfDigits(Digits(v));
  }

  // ---------------------------------------------------------------------------
  // Request validation
  // ---------------------------------------------------------------------------

  const MinNameLength := 1
  const MaxNameLength := 100
  const MinPhoneLength := 9
  const MaxPhoneLength := 15

  /** A name as the name validator leaves it: no white space at either end,
      and already upper case. */
  predicate IsNormalName(v: string)
  {
    NoOuterSpace(v) && Upper(v) == v
  }

  /** The normal names are exactly the names normalisation leaves unchanged. */
  lemma NormalNameIsFixed(v: string)
    ensures IsNormalName(v) <==> NormalizeName(v) == v
  {
    if IsNormalName(v) {
      StripFixesStripped(v);
    }
  }

  /** A phone the digit filter leaves unchanged. */
  predicate IsNormalPhone(v: string)
  {
    Digits(v) == v
  }

  function ServiceErrors(v: string): seq<FieldError>
  {
    if ParseService(v).None? then [UnknownService] else []
  }

  /** The length bounds apply to the raw name, before it is stripped. */
  function NameErrors(v: string): seq<FieldError>
  {
    if !(MinNameLength <= |v| <= MaxNameLength) then [NameLength] else []
  }

  /** The length bounds apply to the raw phone; the digit count only when they hold. */
  function PhoneErrors(v: string): seq<FieldError>
  {
    if !(MinPhoneLength <= |v| <= MaxPhoneLength) then [PhoneLength]
    else if ValidatePhone(v).Failure? then [ValidatePhone(v).error]
    else []
  }

  /** Validation of a create request: every failing field is reported, in
      declaration order; an accepted request carries the parsed service, the
      normalised name and the digits of the phone. */
  function ValidateCreate(raw: SubscriberInput): (r: Result<SubscriberCreate, seq<FieldError>>)
    ensures r.Success? <==>
      && ParseService(raw.service).Some?
      && MinNameLength <= |raw.name| <= MaxNameLength
      && MinPhoneLength <= |raw.phone| <= MaxPhoneLength
      && |Digits(raw.phone)| >= MinPhoneDigits
    ensures r.Success? ==>
      && ServiceValue(r.value.service) == raw.service
      && r.value.name == NormalizeName(raw.name)
      && r.value.phone == Digits(raw.phone)
      && r.value.email == raw.email
      && r.value.expirationDate == raw.expirationDate
    ensures r.Failure? ==> r.error != []
  {
    var errors := ServiceErrors(raw.service) + NameErrors(raw.name) + PhoneErrors(raw.phone);
    if errors != [] then Failure(errors)
    else Success(SubscriberCreate(
      ParseService(raw.service).value, NormalizeName(raw.name), ValidatePhone(raw.phone).value,
      raw.email, raw.expirationDate))
  }

  /** An accepted create request is in normal form: validating its name and
      phone again would change neither. */
  lemma ValidateCreateNormalises(raw: SubscriberInput)
    requires ValidateCreate(raw).Success?
    ensures IsNormalName(ValidateCreate(raw).value.name) && IsNormalPhone(ValidateCreate(raw).value.phone)
  {
    NormalizeNameIdempotent(raw.name);
    DigitsOfDigits(Digits(raw.phone));
  }

  /** The length bounds of the request come before normalisation: a name of
      blanks passes request validation and is normalised to the empty name. */
  lemma ValidateCreateAcceptsBlankName(raw: SubscriberInput)
    requires ParseService(raw.service).Some?
    requires MinNameLength <= |raw.name| <= MaxNameLength
    requires forall k :: 0 <= k < |raw.name| ==> IsSpace(raw.name[k])
    requires MinPhoneLength <= |raw.phone| <= MaxPhoneLength && |Digits(raw.phone)| >= MinPhoneDigits
    ensures ValidateCreate(raw).Success? && ValidateCreate(raw).value.name == ""
  {
    BlankNameNormalizesToEmpty(raw.name);
  }

  function OptionalServiceErrors(v: Option<string>): seq<FieldError>
  {
    if v.Some? then ServiceErrors(v.value) else []
  }

  /** An update phone has no length bounds, only the digit count. */
  function OptionalPhoneErrors(v: Option<string>): seq<FieldError>
  {
    if v.Some? && ValidatePhone(v.value).Failure? then [PhoneTooFewDigits] else []
  }

  function OptionalName(v: Option<string>): Option<string>
  {
    if v.Some? then Some(NormalizeName(v.value)) else None
  }

  function OptionalPhone(v: Option<string>): Option<string>
  {
    if v.Some? then Some(Digits(v.value)) else None
  }

  /** Validation of an update request: absent fields stay absent; present ones
      are normalised and rejected as on create, except that no length bounds
      apply. */
  function ValidateUpdate(raw: SubscriberUpdateInput): (r: Result<SubscriberUpdate, seq<FieldError>>)
    ensures r.Success? <==>
      && (raw.service.Some? ==> ParseService(raw.service.value).Some?)
      && (raw.phone.Some? ==> |Digits(raw.phone.value)| >= MinPhoneDigits)
    ensures r.Success? ==>
      && (r.value.service.Some? <==> raw.service.Some?)
      && (r.value.service.Some? ==> ServiceValue(r.value.service.value) == raw.service.value)
      && (r.value.name.Some? <==> raw.name.Some?)
      && (r.value.name.Some? ==> r.value.name.value == NormalizeName(raw.name.value))
      && (r.value.phone.Some? <==> raw.phone.Some?)
      && (r.value.phone.Some? ==> r.value.phone.value == Digits(raw.phone.value))
      && r.value.email == raw.email
      && r.value.expirationDate == raw.expirationDate
    ensures r.Failure? ==> r.error != []
  {
    var errors := OptionalServiceErrors(raw.service) + OptionalPhoneErrors(raw.phone);
    if errors != [] then Failure(errors)
    else Success(SubscriberUpdate(
      if raw.service.Some? then ParseService(raw.service.value) else None,
      OptionalName(raw.name), OptionalPhone(raw.phone), raw.email, raw.expirationDate))
  }

  /** The fields an accepted update request carries are in normal form, and a
      phone among them has at least nine digits. */
  lemma ValidateUpdateNormalises(raw: SubscriberUpdateInput)
    requires ValidateUpdate(raw).Success?
    ensures ValidateUpdate(raw).value.name.Some? ==> IsNormalName(ValidateUpdate(raw).value.name.value)
    ensures ValidateUpdate(raw).value.phone.Some? ==>
      IsNormalPhone(ValidateUpdate(raw).value.phone.value) && |ValidateUpdate(raw).value.phone.value| >= MinPhoneDigits
  {
    if raw.name.Some? {
      NormalizeNameIdempotent(raw.name.value);
    }
    if raw.phone.Some? {
      DigitsOfDigits(Digits(raw.phone.value));
    }
  }

  // ---------------------------------------------------------------------------
  // Rebuilding a record: `Subscriber(**fields)`
  // ---------------------------------------------------------------------------

  /** The field bounds `Subscriber` inherits from `SubscriberBase`, on the
      values it is built from. */
  predicate WithinBounds(s: Subscriber)
  {
    && MinNameLength <= |s.name| <= MaxNameLength
    && MinPhoneLength <= |s.phone| <= MaxPhoneLength
  }

  /** The records the build accepts: within the bounds, with enough digits. */
  predicate Rebuilds(s: Subscriber)
  {
    WithinBounds(s) && |Digits(s.phone)| >= MinPhoneDigits
  }

  /** A record whose name and phone are in the form the validators give. */
  predicate Normalised(s: Subscriber)
  {
    IsNormalName(s.name) && IsNormalPhone(s.phone)
  }

  /** Building a `Subscriber` from a record's fields, as every repository path
      does before handing a record out: the name and phone bounds are checked
      on the values given, then the name and phone validators run again. The
      build fails with the field errors when a check does; otherwise only the
      name and phone can change. */
  function ValidateSubscriber(s: Subscriber): (r: Result<Subscriber, seq<FieldError>>)
    ensures r.Success? <==> Rebuilds(s)
    ensures r.Success? ==> r.value == s.(name := NormalizeName(s.name), phone := Digits(s.phone))
    ensures r.Failure? ==> r.error != []
  {
    var errors := NameErrors(s.name) + PhoneErrors(s.phone);
    if errors != [] then Failure(errors)
    else Success(s.(name := NormalizeName(s.name), phone := ValidatePhone(s.phone).value))
  }

  /** A built record is normalised, and a normalised record is either built
      unchanged or refused, according to the bounds alone. */
  lemma ValidateSubscriberNormalised(s: Subscriber)
    ensures ValidateSubscriber(s).Success? ==> Normalised(ValidateSubscriber(s).value)
    ensures Normalised(s) ==>
      && (ValidateSubscriber(s).Success? <==> WithinBounds(s))
      && (ValidateSubscriber(s).Success? ==> ValidateSubscriber(s).value == s)
  {
    NormalizeNameIdempotent(s.name);
    DigitsOfDigits(Digits(s.phone));
  }
}
