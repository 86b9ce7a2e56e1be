/**
 * The switch platform: the status poll behind the switch's coordinator, the
 * state the switch entity reports, and the on/off commands with the refresh
 * that follows them.
 */
module Switch {

  import opened Options
  import opened JsonValues
  import opened Http

  const CONTROL_ENDPOINT := "/api/v2/machine/control"
  const STATUS_MAP: map<int, string> := map[0 := "off", 1 := "on", 2 := "eco"]
  const UNKNOWN_LABEL := "unknown"

  /** The dict `{"is_on": ..., "status": ...}` that a successful poll returns. */
  datatype SwitchData = SwitchData(isOn: bool, status: string)

  // ---------------------------------------------------------------------
  // The status poll
  // ---------------------------------------------------------------------

  /**
   * `STATUS_MAP.get(v, "unknown")`. The lookup uses Python's hashing and
   * equality, so True and 1.0 find the "on" entry, and a list or a dict
   * cannot be hashed at all.
   */
  function StatusLabel(v: Json): (r: Update<string>)
    ensures r.Raised? <==> !Hashable(v)
    ensures r.Raised? ==> r.exc == TypeError
    ensures r.Data? ==> r.value in STATUS_MAP.Values || r.value == UNKNOWN_LABEL
    ensures r == Data("off") <==> EqualsInt(v, 0)
    ensures r == Data("on") <==> EqualsInt(v, 1)
    ensures r == Data("eco") <==> EqualsInt(v, 2)
    ensures r == Data(UNKNOWN_LABEL) <==> Hashable(v) && !EqualsInt(v, 0) && !EqualsInt(v, 1) && !EqualsInt(v, 2)
  {
    if !Hashable(v) then Raised(TypeError)
    else match IntEquivalent(v)
      case Some(k) => if k in STATUS_MAP then Data(STATUS_MAP[k]) else Data(UNKNOWN_LABEL)
      case None => Data(UNKNOWN_LABEL)
  }

  /** `data.get("MA_STATUS", 0)`. */
  function StatusCode(fields: map<string, Json>): Json {
    Get(fields, "MA_STATUS", JInt(0))
  }

  /** The mapping step of the poll: the payload's fields to `{is_on, status}`. */
  function MapStatus(fields: map<string, Json>): (r: Update<SwitchData>)
    ensures r.Data? <==> Hashable(StatusCode(fields))
    ensures r.Raised? ==> r.exc == TypeError
    ensures r.Data? ==> (r.value.isOn <==> EqualsInt(StatusCode(fields), 1))
    ensures r.Data? ==> r.value.status == StatusLabel(StatusCode(fields)).value
    ensures r.Data? ==> (r.value.isOn <==> r.value.status == "on")
  {
    var status := StatusCode(fields);
    var isOn := EqualsInt(status, 1);
    match StatusLabel(status)
    case Data(text) => Data(SwitchData(isOn, text))
    case Raised(e) => Raised(e)
  }

  /**
   * The body of the `try` in the poll: the 401 check, then
   * `raise_for_status`, then decoding and mapping the payload.
   */
  function TryUpdate(reply: Reply): Attempt<SwitchData> {
    match reply
    case TimedOut => Finished(Raised(TimeoutError))
    case ClientFailure(err) => Caught(err)
    case Answered(status, body) =>
      if status == 401 then Finished(Raised(ConfigEntryAuthFailed))
      else if IsErrorStatus(status) then Caught(ResponseStatus(status))
      else match ReadObject(body)
        case Caught(err) => Caught(err)
        case Finished(Raised(e)) => Finished(Raised(e))
        case Finished(Data(fields)) => Finished(MapStatus(fields))
  }

  /**
   * The poll with its `except aiohttp.ClientError` clause raising
   * UpdateFailed, as the code evidently intends.
   */
  function UpdateData(reply: Reply): (o: Update<SwitchData>)
    ensures reply.Answered? && reply.status == 401 ==> o == Raised(ConfigEntryAuthFailed)
    ensures reply.Answered? && reply.status != 401 && IsErrorStatus(reply.status) ==>
              o == Raised(UpdateFailed(ClientCause(ResponseStatus(reply.status))))
    ensures reply.ClientFailure? ==> o == Raised(UpdateFailed(ClientCause(reply.err)))
    ensures reply.TimedOut? ==> o == Raised(TimeoutError)
    ensures o.Data? <==>
              && reply.Answered? && !IsErrorStatus(reply.status)
              && reply.body.Decoded? && reply.body.value.JObject?
              && Hashable(StatusCode(reply.body.value.fields))
    ensures o.Data? ==> o == MapStatus(reply.body.value.fields)
    ensures reply.Answered? && !IsErrorStatus(reply.status) && reply.body.WrongContentType? ==>
              o == Raised(UpdateFailed(ClientCause(ContentType)))
    ensures reply.Answered? && !IsErrorStatus(reply.status) && reply.body.Malformed? ==>
              o == Raised(ValueError)
    ensures reply.Answered? && !IsErrorStatus(reply.status) && reply.body.Decoded? && !reply.body.value.JObject? ==>
              o == Raised(AttributeError)
    ensures reply.Answered? && !IsErrorStatus(reply.status) && reply.body.Decoded? && reply.body.value.JObject?
              && !Hashable(StatusCode(reply.body.value.fields)) ==>
              o == Raised(TypeError)
  {
    match TryUpdate(reply)
    case Finished(outcome) => outcome
    case Caught(err) => Raised(UpdateFailed(ClientCause(err)))
  }

  /**
   * The poll as written: UpdateFailed is not imported in this file, so the
   * `raise UpdateFailed(...)` in the except clause raises NameError instead.
   */
  function UpdateDataAsWritten(reply: Reply): (o: Update<SwitchData>)
    ensures !(o.Raised? && o.exc.UpdateFailed?)
  {
    match TryUpdate(reply)
    case Finished(outcome) => outcome
    case Caught(_) => Raised(NameError)
  }

  /** The code as written differs from the intended poll exactly where UpdateFailed is raised. */
  lemma AsWrittenRaisesNameError(reply: Reply)
    ensures UpdateData(reply).Raised? && UpdateData(reply).exc.UpdateFailed? ==>
              UpdateDataAsWritten(reply) == Raised(NameError)
    ensures !(UpdateData(reply).Raised? && UpdateData(reply).exc.UpdateFailed?) ==>
              UpdateDataAsWritten(reply) == UpdateData(reply)
  {
  }

  /** A refused connection and a 500 status, for which the two differ. */
  lemma NameErrorWitnesses()
    ensures UpdateDataAsWritten(ClientFailure(ConnectionFailed)) == Raised(NameError)
    ensures UpdateData(ClientFailure(ConnectionFailed)) == Raised(UpdateFailed(ClientCause(ConnectionFailed)))
    ensures UpdateDataAsWritten(Answered(500, Malformed)) == Raised(NameError)
    ensures UpdateData(Answered(500, Malformed)) == Raised(UpdateFailed(ClientCause(ResponseStatus(500))))
  {
  }

  /** Every integer status code has a label; only 0, 1 and 2 have their own. */
  lemma StatusLabelOfCode(c: int)
    ensures StatusLabel(JInt(c)).Data?
    ensures c == 0 ==> StatusLabel(JInt(c)).value == "off"
    ensures c == 1 ==> StatusLabel(JInt(c)).value == "on"
    ensures c == 2 ==> StatusLabel(JInt(c)).value == "eco"
    ensures c !in {0, 1, 2} ==> StatusLabel(JInt(c)).value == UNKNOWN_LABEL
  {
  }

  /** A payload without MA_STATUS reads as code 0: off. */
  lemma MissingStatusIsOff(fields: map<string, Json>)
    requires "MA_STATUS" !in fields
    ensures MapStatus(fields) == Data(SwitchData(false, "off"))
  {
  }

  /** An explicit null MA_STATUS is not defaulted: it is None, which is unknown. */
  lemma NullStatusIsUnknown(fields: map<string, Json>)
    requires "MA_STATUS" in fields && fields["MA_STATUS"] == JNull
    ensures MapStatus(fields) == Data(SwitchData(false, UNKNOWN_LABEL))
  {
  }

  // ---------------------------------------------------------------------
  // The switch entity's state
  // ---------------------------------------------------------------------

  /** The `is_on` property: the coordinator's `is_on` entry. */
  function IsOn(data: SwitchData): bool {
    data.isOn
  }

  /** The `extra_state_attributes` property: the coordinator's `status` entry. */
  function ExtraStateAttributes(data: SwitchData): map<string, string> {
    map["status" := data.status]
  }

  /** What the entity shows after a poll is the polled code's reading. */
  lemma EntityShowsPolledCode(status: int, fields: map<string, Json>, data: SwitchData)
    requires UpdateData(Answered(status, Decoded(JObject(fields)))) == Data(data)
    ensures !IsErrorStatus(status)
    ensures IsOn(data) <==> EqualsInt(StatusCode(fields), 1)
    ensures ExtraStateAttributes(data) == map["status" := StatusLabel(StatusCode(fields)).value]
    ensures IsOn(data) <==> ExtraStateAttributes(data)["status"] == "on"
  {
  }

  // ---------------------------------------------------------------------
  // Commands
  // ---------------------------------------------------------------------

  const CONTROL_CONTENT_TYPE := "application/x-www-form-urlencoded; charset=UTF-8"
  const ON_ACTION := "1"
  const OFF_ACTION := "0"
  /** Seconds between a successful command and the refresh it asks for. */
  const REFRESH_DELAY: nat := 5

  /** What a command does, in the order it does it. */
  datatype Event =
    | Post(url: string, contentType: string, body: string)
    | Sleep(seconds: nat)
    | RequestRefresh
    | LogError(err: ClientError)

  predicate IsPost(e: Event) { e.Post? }
  predicate IsRefresh(e: Event) { e.RequestRefresh? }

  /** The two commands the host can issue to the switch. */
  datatype Command = SwitchOn | SwitchOff

  /** Printable ASCII that json.dumps copies into a string literal unchanged. */
  predicate PlainJsonText(s: string) {
    forall i :: 0 <= i < |s| ==> ' ' <= s[i] <= '~' && s[i] != '"' && s[i] != '\\'
  }

  const BODY_PREFIX := "{\"action\": \""
  const BODY_SUFFIX := "\"}"

  /** `json.dumps({"action": action})`, with its default separators. */
  function ControlBody(action: string): string
    requires PlainJsonText(action)
  {
    BODY_PREFIX + action + BODY_SUFFIX
  }

  /** The inverse of ControlBody: the action a body encodes, if it is such a body. */
  function ParseControlBody(body: string): (r: Option<string>)
    ensures r.Some? ==> PlainJsonText(r.value) && ControlBody(r.value) == body
  {
    var n := |body|;
    if n >= |BODY_PREFIX| + |BODY_SUFFIX|
      && body[..|BODY_PREFIX|] == BODY_PREFIX
      && body[n - |BODY_SUFFIX|..] == BODY_SUFFIX
      && PlainJsonText(body[|BODY_PREFIX|..n - |BODY_SUFFIX|])
    then
      var action := body[|BODY_PREFIX|..n - |BODY_SUFFIX|];
      assert body == body[..|BODY_PREFIX|] + action + body[n - |BODY_SUFFIX|..];
      Some(action)
    else
      None
  }

  /** Decoding a command body gives back the action that was encoded. */
  lemma ControlBodyRoundTrip(action: string)
    requires PlainJsonText(action)
    ensures ParseControlBody(ControlBody(action)) == Some(action)
  {
  }

  /** The action each command sends. */
  function ActionOf(c: Command): (a: string)
    ensures PlainJsonText(a)
    ensures a == ON_ACTION <==> c == SwitchOn
    ensures a == OFF_ACTION <==> c == SwitchOff
  {
    match c
    case SwitchOn => ON_ACTION
    case SwitchOff => OFF_ACTION
  }

  function ControlUrl(host: string): string {
    "http://" + host + CONTROL_ENDPOINT
  }

  /** The POST came back and `raise_for_status` let it through. */
  predicate PostSucceeded(reply: Reply) {
    reply.Answered? && !IsErrorStatus(reply.status)
  }

  /** The number of events in t that satisfy p. */
  function Count(t: seq<Event>, p: Event -> bool): nat {
    if t == [] then 0 else (if p(t[0]) then 1 else 0) + Count(t[1..], p)
  }

  /** Every refresh request comes right after a pause that comes right after a POST. */
  predicate RefreshAfterPause(t: seq<Event>) {
    forall k :: 0 <= k < |t| && t[k].RequestRefresh? ==>
      2 <= k && t[k - 1] == Sleep(REFRESH_DELAY) && t[k - 2].Post?
  }

  /** What follows the POST of a command, given how the POST went. */
  function AfterPost(reply: Reply): (t: seq<Event>)
    ensures Count(t, IsPost) == 0
    ensures Count(t, IsRefresh) == (if PostSucceeded(reply) then 1 else 0)
    ensures PostSucceeded(reply) ==> t == [Sleep(REFRESH_DELAY), RequestRefresh]
    ensures reply.ClientFailure? ==> t == [LogError(reply.err)]
    ensures reply.Answered? && IsErrorStatus(reply.status) ==> t == [LogError(ResponseStatus(reply.status))]
    ensures reply.TimedOut? ==> t == []
    ensures (exists k :: 0 <= k < |t| && t[k].LogError?) <==> !PostSucceeded(reply) && !reply.TimedOut?
  {
    match reply
    case TimedOut => []
    case ClientFailure(err) => [LogError(err)]
    case Answered(status, _) =>
      if IsErrorStatus(status) then [LogError(ResponseStatus(status))]
      else
        var t := [Sleep(REFRESH_DELAY), RequestRefresh];
        assert t[1..] == [RequestRefresh] && t[1..][1..] == [];
        assert Count(t[1..], IsPost) == 0 && Count(t[1..], IsRefresh) == 1;
        t
  }

  /** The events of one `_control_machine(action)` call, given how its POST went. */
  function ControlTrace(host: string, action: string, reply: Reply): (t: seq<Event>)
    requires PlainJsonText(action)
    ensures |t| >= 1 && t[0] == Post(ControlUrl(host), CONTROL_CONTENT_TYPE, ControlBody(action))
    ensures Count(t, IsPost) == 1
    ensures Count(t, IsRefresh) == (if PostSucceeded(reply) then 1 else 0)
    ensures RefreshAfterPause(t)
    ensures (exists k :: 0 <= k < |t| && t[k].LogError?) <==> !PostSucceeded(reply) && !reply.TimedOut?
  {
    var t := [Post(ControlUrl(host), CONTROL_CONTENT_TYPE, ControlBody(action))] + AfterPost(reply);
    assert t[1..] == AfterPost(reply);
    t
  }

  /** The switch entity. Its host is fixed when it is created. */
  class XeniaCoffeeMachine {

    const host: string

    constructor(host: string)
      ensures this.host == host
    {
      this.host := host;
    }

    /** `async_turn_on`: sends action "1". */
    method TurnOn(reply: Reply) returns (events: seq<Event>, raised: Option<Exc>)
      ensures events == ControlTrace(host, ActionOf(SwitchOn), reply)
      ensures ParseControlBody(events[0].body) == Some(ON_ACTION)
      ensures raised.Some? <==> reply.TimedOut?
      ensures raised.Some? ==> raised.value == TimeoutError
    {
      events, raised := ControlMachine(ON_ACTION, reply);
      ControlBodyRoundTrip(ON_ACTION);
    }

    /** `async_turn_off`: sends action "0". */
    method TurnOff(reply: Reply) returns (events: seq<Event>, raised: Option<Exc>)
      ensures events == ControlTrace(host, ActionOf(SwitchOff), reply)
      ensures ParseControlBody(events[0].body) == Some(OFF_ACTION)
      ensures raised.Some? <==> reply.TimedOut?
      ensures raised.Some? ==> raised.value == TimeoutError
    {
      events, raised := ControlMachine(OFF_ACTION, reply);
      ControlBodyRoundTrip(OFF_ACTION);
    }

    /**
     * `_control_machine`: POST the action; if `raise_for_status` lets the
     * answer through, pause and then ask for one refresh; a ClientError is
     * logged and ends the command. A timeout is not a ClientError and
     * escapes to the caller.
     */
    method ControlMachine(action: string, reply: Reply) returns (events: seq<Event>, raised: Option<Exc>)
      requires PlainJsonText(action)
      ensures events == ControlTrace(host, action, reply)
      ensures raised.Some? <==> reply.TimedOut?
      ensures raised.Some? ==> raised.value == TimeoutError
    {
      events := [Post(ControlUrl(host), CONTROL_CONTENT_TYPE, ControlBody(action))];
      raised := None;
      match reply {
        case TimedOut =>
          raised := Some(TimeoutError);
        case ClientFailure(err) =>
          events := events + [LogError(err)];
        case Answered(status, _) =>
          if IsErrorStatus(status) {
            events := events + [LogError(ResponseStatus(status))];
          } else {
            events := events + [Sleep(REFRESH_DELAY), RequestRefresh];
          }
      }
    }
  }

  // ---------------------------------------------------------------------
  // Any number of commands
  // ---------------------------------------------------------------------

  /** The events of a series of commands, each with the reply its POST got. */
  function SessionTrace(host: string, cmds: seq<Command>, replies: seq<Reply>): seq<Event>
    requires |cmds| == |replies|
  {
    if cmds == [] then []
    else ControlTrace(host, ActionOf(cmds[0]), replies[0]) + SessionTrace(host, cmds[1..], replies[1..])
  }

  /** How many of the POSTs succeeded. */
  function Successes(replies: seq<Reply>): nat {
    if replies == [] then 0
    else (if PostSucceeded(replies[0]) then 1 else 0) + Successes(replies[1..])
  }

  lemma {:induction false} CountConcat(a: seq<Event>, b: seq<Event>, p: Event -> bool)
    ensures Count(a + b, p) == Count(a, p) + Count(b, p)
  {
    if a == [] {
      assert a + b == b;
    } else {
      assert (a + b)[1..] == a[1..] + b;
      CountConcat(a[1..], b, p);
    }
  }

  lemma RefreshAfterPauseConcat(a: seq<Event>, b: seq<Event>)
    requires RefreshAfterPause(a) && RefreshAfterPause(b)
    ensures RefreshAfterPause(a + b)
  {
  }

  /**
   * Over any series of commands: one POST per command, exactly one refresh
   * per successful POST, and never a refresh except right after a POST and
   * the pause.
   */
  lemma {:induction false} RefreshOnlyAfterSuccess(host: string, cmds: seq<Command>, replies: seq<Reply>)
    requires |cmds| == |replies|
    ensures Count(SessionTrace(host, cmds, replies), IsPost) == |cmds|
    ensures Count(SessionTrace(host, cmds, replies), IsRefresh) == Successes(replies)
    ensures RefreshAfterPause(SessionTrace(host, cmds, replies))
  {
    if cmds != [] {
      var first := ControlTrace(host, ActionOf(cmds[0]), replies[0]);
      var rest := SessionTrace(host, cmds[1..], replies[1..]);
      RefreshOnlyAfterSuccess(host, cmds[1..], replies[1..]);
      CountConcat(first, rest, IsPost);
      CountConcat(first, rest, IsRefresh);
      RefreshAfterPauseConcat(first, rest);
    }
  }
}
