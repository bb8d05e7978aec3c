/**
 * The auth module's published contract: `AccountRegisteredIntegrationEvent`,
 * its fixed topic and its map form.
 */
module IntegrationEvents {
  import opened Wrappers
  import opened Errors
  import opened Externals

  datatype IntegrationEvent = AccountRegisteredIntegration(accountId: Uuid)

  /** The Python classes of the integration events. */
  datatype IntegrationEventClass = AccountRegisteredIntegrationClass

  /** `TOPIC`: a field with a default and `init=False`, so no caller can choose it. */
  function Topic(e: IntegrationEvent): string {
    "account.registered"
  }

  function TypeOf(e: IntegrationEvent): IntegrationEventClass {
    AccountRegisteredIntegrationClass
  }

  /** `cls.__name__`. */
  function ClassName(c: IntegrationEventClass): string {
    "AccountRegisteredIntegrationEvent"
  }

  /** `to_dict`: only the id; the topic is not part of the payload. */
  function ToDict(e: IntegrationEvent, c: Codecs): (r: Payload)
    ensures r.Keys == {"account_id"}
    ensures r["account_id"] == c.uuidToStr(e.accountId)
  {
    map["account_id" := c.uuidToStr(e.accountId)]
  }

  /** `cls.from_dict(data)`: `UUID(data["account_id"])`. */
  function FromDict(cls: IntegrationEventClass, data: Payload, c: Codecs): (r: Result<IntegrationEvent, Error>)
    ensures "account_id" !in data ==> r == Failure(KeyError("account_id"))
    ensures r.Success? <==> "account_id" in data && c.parseUuid(data["account_id"]).Some?
    ensures r.Success? ==> c.parseUuid(data["account_id"]) == Some(r.value.accountId)
  {
    if "account_id" !in data then Failure(KeyError("account_id"))
    else match c.parseUuid(data["account_id"])
      case None => Failure(ValueError("badly formed hexadecimal UUID string"))
      case Some(u) => Success(AccountRegisteredIntegration(u))
  }

  /** `from_dict(to_dict(e)) == e`. */
  lemma RoundTrip(e: IntegrationEvent, c: Codecs)
    requires Lawful(c)
    ensures FromDict(TypeOf(e), ToDict(e, c), c) == Success(e)
  {
  }

  /** Only `account_id` is read: any other keys do not change the result. */
  lemma FromDictIgnoresExtraKeys(data: Payload, extra: Payload, c: Codecs)
    requires "account_id" in data && "account_id" !in extra
    ensures FromDict(AccountRegisteredIntegrationClass, extra + data, c)
         == FromDict(AccountRegisteredIntegrationClass, data, c)
  {
  }
}
