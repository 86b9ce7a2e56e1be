/**
 * The standalone coordinator's poll: exactly status 200 yields a reading of
 * three keys; every other status, and every transport error, is UpdateFailed.
 */
module Coordinator {

  import opened JsonValues
  import opened Http

  const OK_STATUS := 200

  /** The key of the result and the payload field it is read from. */
  const SOURCE_FIELD: map<string, string> := map[
    "status" := "MA_STATUS",
    "group_temperature" := "BG_SENS_TEMP_A",
    "boiler_temperature" := "BB_SENS_TEMP_A"
  ]

  /**
   * The three-key result: each key holds `data.get(field)` for its payload
   * field, so an absent field gives None (JNull), never an error, and there
   * is no default code.
   */
  function Readings(fields: map<string, Json>): (r: map<string, Json>)
    ensures r.Keys == SOURCE_FIELD.Keys
    ensures forall key :: key in r ==> r[key] == Get(fields, SOURCE_FIELD[key], JNull)
  {
    map[
      "status" := Get(fields, "MA_STATUS", JNull),
      "group_temperature" := Get(fields, "BG_SENS_TEMP_A", JNull),
      "boiler_temperature" := Get(fields, "BB_SENS_TEMP_A", JNull)
    ]
  }

  /** The body of the `try` in `_async_update_data`. */
  function TryUpdate(reply: Reply): Attempt<map<string, Json>> {
    match reply
    case TimedOut => Finished(Raised(TimeoutError))
    case ClientFailure(err) => Caught(err)
    case Answered(status, body) =>
      if status == OK_STATUS then
        match ReadObject(body)
        case Caught(err) => Caught(err)
        case Finished(Raised(e)) => Finished(Raised(e))
        case Finished(Data(fields)) => Finished(Data(Readings(fields)))
      else
        Finished(Raised(UpdateFailed(StatusCause(status))))
  }

  /** `_async_update_data`, with its `except aiohttp.ClientError` clause. */
  function UpdateData(reply: Reply): (o: Update<map<string, Json>>)
    ensures o.Data? <==>
              reply.Answered? && reply.status == OK_STATUS && reply.body.Decoded? && reply.body.value.JObject?
    ensures o.Data? ==> o.value.Keys == {"status", "group_temperature", "boiler_temperature"}
    ensures o.Data? ==> o.value == Readings(reply.body.value.fields)
    ensures reply.Answered? && reply.status != OK_STATUS ==> o == Raised(UpdateFailed(StatusCause(reply.status)))
    ensures reply.ClientFailure? ==> o == Raised(UpdateFailed(ClientCause(reply.err)))
    ensures reply.Answered? && reply.status == OK_STATUS && reply.body.WrongContentType? ==>
              o == Raised(UpdateFailed(ClientCause(ContentType)))
    ensures reply.Answered? && reply.status == OK_STATUS && reply.body.Malformed? ==> o == Raised(ValueError)
    ensures reply.Answered? && reply.status == OK_STATUS && reply.body.Decoded? && !reply.body.value.JObject? ==>
              o == Raised(AttributeError)
    ensures reply.TimedOut? ==> o == Raised(TimeoutError)
  {
    match TryUpdate(reply)
    case Finished(outcome) => outcome
    case Caught(err) => Raised(UpdateFailed(ClientCause(err)))
  }

  /** A missing MA_STATUS is reported as None, and missing temperatures likewise. */
  lemma MissingFieldsAreNone(fields: map<string, Json>)
    requires "MA_STATUS" !in fields && "BG_SENS_TEMP_A" !in fields && "BB_SENS_TEMP_A" !in fields
    ensures UpdateData(Answered(OK_STATUS, Decoded(JObject(fields)))) ==
              Data(map["status" := JNull, "group_temperature" := JNull, "boiler_temperature" := JNull])
  {
  }

  /** The temperatures are passed through unchanged from their payload fields. */
  lemma TemperaturesPassThrough(fields: map<string, Json>, g: Json, b: Json)
    requires "BG_SENS_TEMP_A" in fields && fields["BG_SENS_TEMP_A"] == g
    requires "BB_SENS_TEMP_A" in fields && fields["BB_SENS_TEMP_A"] == b
    ensures UpdateData(Answered(OK_STATUS, Decoded(JObject(fields)))).value["group_temperature"] == g
    ensures UpdateData(Answered(OK_STATUS, Decoded(JObject(fields)))).value["boiler_temperature"] == b
  {
  }
}
