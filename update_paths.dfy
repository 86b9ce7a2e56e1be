/**
 * The switch's poll and the standalone coordinator's poll read the same
 * endpoint but classify and map its answers differently.
 */
module UpdatePaths {

  import opened JsonValues
  import opened Http
  import Switch
  import Coordinator

  /** 401 is an authentication failure for the switch and an ordinary failed status for the coordinator. */
  lemma Unauthorized(body: Body)
    ensures Switch.UpdateData(Answered(401, body)) == Raised(ConfigEntryAuthFailed)
    ensures Coordinator.UpdateData(Answered(401, body)) == Raised(UpdateFailed(StatusCause(401)))
  {
  }

  /** A status below 400 other than 200 is read by the switch and refused by the coordinator. */
  lemma OtherPassingStatus(status: int, fields: map<string, Json>)
    requires status != 200 && !IsErrorStatus(status)
    requires Hashable(Switch.StatusCode(fields))
    ensures Switch.UpdateData(Answered(status, Decoded(JObject(fields)))).Data?
    ensures Coordinator.UpdateData(Answered(status, Decoded(JObject(fields)))) ==
              Raised(UpdateFailed(StatusCause(status)))
  {
  }

  /** Without MA_STATUS the switch reads "off" and the coordinator reports None. */
  lemma MissingStatus(fields: map<string, Json>)
    requires "MA_STATUS" !in fields
    ensures Switch.UpdateData(Answered(200, Decoded(JObject(fields)))) == Data(Switch.SwitchData(false, "off"))
    ensures Coordinator.UpdateData(Answered(200, Decoded(JObject(fields)))).value["status"] == JNull
  {
    Switch.MissingStatusIsOff(fields);
  }

  /**
   * On a 200 answer carrying MA_STATUS, both read the same code: the
   * switch's label is the label of the coordinator's status value.
   */
  lemma SameCodeOn200(fields: map<string, Json>)
    requires "MA_STATUS" in fields && Hashable(fields["MA_STATUS"])
    ensures Switch.UpdateData(Answered(200, Decoded(JObject(fields)))).Data?
    ensures Switch.UpdateData(Answered(200, Decoded(JObject(fields)))).value.status ==
              Switch.StatusLabel(Coordinator.UpdateData(Answered(200, Decoded(JObject(fields)))).value["status"]).value
  {
  }
}
