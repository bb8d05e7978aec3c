/**
 * The auth module's domain events and their string-keyed map form
 * (`to_dict` / `from_dict`), together with the runtime classes the registry,
 * the bus and the outbox key on.
 */
module DomainEvents {
  import opened Wrappers
  import opened Errors
  import opened Externals
  import opened ValueObjects

  datatype DomainEvent =
    | AccountRegistered(accountId: Uuid, email: Email)
    | VerificationRequested(accountId: Uuid, email: Email, token: string)
    | PasswordResetRequested(accountId: Uuid, email: Email, token: string)
    | PasswordResetCompleted(accountId: Uuid)
    | PasswordChanged(accountId: Uuid)

  /** The Python classes of the events (`type(event)`). */
  datatype EventClass =
    | AccountRegisteredClass
    | VerificationRequestedClass
    | PasswordResetRequestedClass
    | PasswordResetCompletedClass
    | PasswordChangedClass

  function TypeOf(e: DomainEvent): EventClass {
    match e
    case AccountRegistered(_, _) => AccountRegisteredClass
    case VerificationRequested(_, _, _) => VerificationRequestedClass
    case PasswordResetRequested(_, _, _) => PasswordResetRequestedClass
    case PasswordResetCompleted(_) => PasswordResetCompletedClass
    case PasswordChanged(_) => PasswordChangedClass
  }

  /** `cls.__name__`. */
  function ClassName(c: EventClass): string {
    match c
    case AccountRegisteredClass => "AccountRegisteredDomainEvent"
    case VerificationRequestedClass => "VerificationRequestedDomainEvent"
    case PasswordResetRequestedClass => "PasswordResetRequestedDomainEvent"
    case PasswordResetCompletedClass => "PasswordResetCompletedDomainEvent"
    case PasswordChangedClass => "PasswordChangedDomainEvent"
  }

  /** No two event classes share a name, so name-keyed lookups cannot confuse them. */
  lemma ClassNamesDistinct(a: EventClass, b: EventClass)
    ensures ClassName(a) == ClassName(b) ==> a == b
  {
  }

  /** The keys `to_dict` writes and `from_dict` reads for a class. */
  function PayloadKeys(c: EventClass): set<string> {
    match c
    case AccountRegisteredClass => {"account_id", "email"}
    case VerificationRequestedClass => {"account_id", "email", "token"}
    case PasswordResetRequestedClass => {"account_id", "email", "token"}
    case PasswordResetCompletedClass => {"account_id"}
    case PasswordChangedClass => {"account_id"}
  }

  /** `event.to_dict()`: the id in its string form, the email as its text, the token as is. */
  function ToDict(e: DomainEvent, c: Codecs): (r: Payload)
    ensures r.Keys == PayloadKeys(TypeOf(e))
    ensures r["account_id"] == c.uuidToStr(e.accountId)
    ensures e.AccountRegistered? || e.VerificationRequested? || e.PasswordResetRequested? ==>
              r["email"] == e.email.value
  {
    match e
    case AccountRegistered(id, email) =>
      map["account_id" := c.uuidToStr(id), "email" := email.value]
    case VerificationRequested(id, email, token) =>
      map["account_id" := c.uuidToStr(id), "email" := email.value, "token" := token]
    case PasswordResetRequested(id, email, token) =>
      map["account_id" := c.uuidToStr(id), "email" := email.value, "token" := token]
    case PasswordResetCompleted(id) =>
      map["account_id" := c.uuidToStr(id)]
    case PasswordChanged(id) =>
      map["account_id" := c.uuidToStr(id)]
  }

  /** `UUID(data[key])`. */
  function ReadUuid(data: Payload, key: string, c: Codecs): Result<Uuid, Error> {
    if key !in data then Failure(KeyError(key))
    else match c.parseUuid(data[key])
      case None => Failure(ValueError("badly formed hexadecimal UUID string"))
      case Some(u) => Success(u)
  }

  /** `Email(data[key])`. */
  function ReadEmail(data: Payload, key: string, c: Codecs): Result<Email, Error> {
    if key !in data then Failure(KeyError(key)) else NewEmail(data[key], c.isEmail)
  }

  /** `data[key]` for a plain string field. */
  function ReadText(data: Payload, key: string): Result<string, Error> {
    if key !in data then Failure(KeyError(key)) else Success(data[key])
  }

  /**
   * `cls.from_dict(data)`: the constructor's arguments are evaluated left to
   * right, so the first missing or malformed field decides the error.
   */
  function FromDict(cls: EventClass, data: Payload, c: Codecs): (r: Result<DomainEvent, Error>)
    ensures r.Success? ==> TypeOf(r.value) == cls
  {
    match cls
    case AccountRegisteredClass =>
      var id :- ReadUuid(data, "account_id", c);
      var email :- ReadEmail(data, "email", c);
      Success(AccountRegistered(id, email))
    case VerificationRequestedClass =>
      var id :- ReadUuid(data, "account_id", c);
      var email :- ReadEmail(data, "email", c);
      var token :- ReadText(data, "token");
      Success(VerificationRequested(id, email, token))
    case PasswordResetRequestedClass =>
      var id :- ReadUuid(data, "account_id", c);
      var email :- ReadEmail(data, "email", c);
      var token :- ReadText(data, "token");
      Success(PasswordResetRequested(id, email, token))
    case PasswordResetCompletedClass =>
      var id :- ReadUuid(data, "account_id", c);
      Success(PasswordResetCompleted(id))
    case PasswordChangedClass =>
      var id :- ReadUuid(data, "account_id", c);
      Success(PasswordChanged(id))
  }

  /** The event's email, if it carries one, passed the validator. */
  predicate EmailAccepted(e: DomainEvent, c: Codecs) {
    (e.AccountRegistered? || e.VerificationRequested? || e.PasswordResetRequested?) ==>
      c.isEmail(e.email.value)
  }

  /** `from_dict(to_dict(e)) == e` for every event with a valid email. */
  lemma RoundTrip(e: DomainEvent, c: Codecs)
    requires Lawful(c) && EmailAccepted(e, c)
    ensures FromDict(TypeOf(e), ToDict(e, c), c) == Success(e)
  {
  }

  /** `from_dict` looks only at its own keys: extra keys are ignored. */
  lemma FromDictReadsOnlyItsKeys(cls: EventClass, d1: Payload, d2: Payload, c: Codecs)
    requires forall k :: k in PayloadKeys(cls) ==> (k in d1 <==> k in d2)
    requires forall k :: k in PayloadKeys(cls) && k in d1 ==> d1[k] == d2[k]
    ensures FromDict(cls, d1, c) == FromDict(cls, d2, c)
  {
  }

  /** Every class reads `account_id` first, so a map without it fails with that key. */
  lemma MissingAccountIdFails(cls: EventClass, data: Payload, c: Codecs)
    requires "account_id" !in data
    ensures FromDict(cls, data, c) == Failure(KeyError("account_id"))
  {
  }

  /** An `AccountRegistered` map with a good id but no email fails on `email`. */
  lemma MissingEmailFails(data: Payload, c: Codecs)
    requires "account_id" in data && c.parseUuid(data["account_id"]).Some?
    requires "email" !in data
    ensures FromDict(AccountRegisteredClass, data, c) == Failure(KeyError("email"))
  {
  }
}
