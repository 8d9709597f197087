/**
 * The DevTools messages the runtime reads and writes. An inbound message is
 * modelled as its raw text together with the top-level fields json.loads finds
 * in it; an outgoing message is the dictionary handed to json.dumps.
 */
module Messages {
  import opened Wrappers
  import opened Errors
  import opened JsonValues
  import opened Text

  const AttachToTarget: string := "Target.attachToTarget"
  const AttachedToTarget: string := "Target.attachedToTarget"
  const LoadEventFired: string := "Page.loadEventFired"
  const Navigate: string := "Page.navigate"

  /** Command ids are drawn at random from this closed range. */
  const MinCommandId: int := 1
  const MaxCommandId: int := 1000000

  predicate IsCommandId(id: int)
  {
    MinCommandId <= id <= MaxCommandId
  }

  /**
   * An inbound message. `raw` is the text as received; `methodName` holds the "method" key; the other fields are
   * the top-level keys of its decoding (None when the key is absent). `hasData`
   * and `hasUndefined` record only whether the keys "data" and "undefined"
   * are present, which is all the runtime asks of them.
   */
  datatype Inbound = Inbound(
    raw: string,
    methodName: Option<Json>,
    id: Option<int>,
    params: Option<Json>,
    result: Option<Json>,
    hasData: bool,
    hasUndefined: bool)

  /** `response.get("method") == name` */
  predicate IsEvent(msg: Inbound, name: string)
  {
    msg.methodName == Some(Str(name))
  }

  /** The raw-text test `"frameId" in message`, not a test of the decoded keys. */
  predicate MentionsFrameId(msg: Inbound)
  {
    Contains(msg.raw, "frameId")
  }

  /** The raw-text test `"method" in message`, not a test of the decoded keys. */
  predicate MentionsMethod(msg: Inbound)
  {
    Contains(msg.raw, "method")
  }

  /** An outgoing message before it is serialised. */
  type OutMsg = map<string, Json>

  /** The id an outgoing request carries, if it carries an integer one. */
  function RequestId(m: OutMsg): Option<int>
  {
    if "id" in m && m["id"].Num? then Some(m["id"].n) else None
  }

  /** The request to attach to a target, with flattened sessions and no session id of its own. */
  function AttachRequest(id: int, targetId: Json): (m: OutMsg)
    ensures RequestId(m) == Some(id)
    ensures m.Keys == {"id", "method", "params"}
    ensures m["method"] == Str(AttachToTarget)
    ensures Subscript(m["params"], "targetId") == Ok(targetId)
    ensures Subscript(m["params"], "flatten") == Ok(Bool(true))
    ensures m["params"].Obj? && m["params"].fields.Keys == {"targetId", "flatten"}
  {
    map["id" := Num(id),
        "method" := Str(AttachToTarget),
        "params" := Obj(map["targetId" := targetId, "flatten" := Bool(true)])]
  }

  /**
   * The caller's command with its id and the current session id filled in:
   * every other key of the caller's dictionary goes out unchanged.
   */
  function CommandRequest(cdp: OutMsg, id: int, sessionId: Json): (m: OutMsg)
    ensures RequestId(m) == Some(id)
    ensures "sessionId" in m && m["sessionId"] == sessionId
    ensures m.Keys == cdp.Keys + {"id", "sessionId"}
    ensures forall k :: k in cdp && k != "id" && k != "sessionId" ==> m[k] == cdp[k]
  {
    cdp["id" := Num(id)]["sessionId" := sessionId]
  }

  /** Python truthiness of a string. */
  predicate Truthy(s: string)
  {
    |s| > 0
  }

  /**
   * The condition `"result" in response and "value" or "data" in response`.
   * Python binds `and` tighter than `or`, and the literal "value" is truthy,
   * so the condition is just "a result key or a data key is present".
   */
  function SelectsResult(hasResult: bool, hasData: bool): (b: bool)
    ensures b <==> hasResult || hasData
  {
    (hasResult && Truthy("value")) || hasData
  }

  /** A command id with the payload to store under it. */
  datatype Reply = Reply(id: int, payload: Json)

  /**
   * What handle_commands passes to insert_command, or the KeyError it raises
   * first: the id is looked up before anything else, and when only a data key
   * is present the lookup of the result key fails.
   */
  function CommandReply(msg: Inbound): (r: Result<Reply, Error>)
    ensures msg.id.None? ==> r == Err(KeyError("id"))
    ensures msg.id.Some? && !msg.hasUndefined && msg.result.Some? ==>
              r == Ok(Reply(msg.id.value, msg.result.value))
    ensures msg.id.Some? && !msg.hasUndefined && msg.result.None? && msg.hasData ==>
              r == Err(KeyError("result"))
    ensures msg.id.Some? && (msg.hasUndefined || (msg.result.None? && !msg.hasData)) ==>
              r == Ok(Reply(msg.id.value, Null))
  {
    if msg.id.None? then Err(KeyError("id"))
    else if !msg.hasUndefined then
      if SelectsResult(msg.result.Some?, msg.hasData) then
        if msg.result.Some? then Ok(Reply(msg.id.value, msg.result.value)) else Err(KeyError("result"))
      else Ok(Reply(msg.id.value, Null))
    else Ok(Reply(msg.id.value, Null))
  }

  /** `response["params"]["sessionId"]` */
  function SessionIdOf(msg: Inbound): (r: Result<Json, Error>)
    ensures r.Ok? <==> msg.params.Some? && msg.params.value.Obj? && "sessionId" in msg.params.value.fields
    ensures r.Ok? ==> r.value == msg.params.value.fields["sessionId"]
    ensures msg.params.None? ==> r == Err(KeyError("params"))
    ensures msg.params.Some? && !msg.params.value.Obj? ==> r == Err(TypeError)
    ensures msg.params.Some? && msg.params.value.Obj? && "sessionId" !in msg.params.value.fields ==>
              r == Err(KeyError("sessionId"))
  {
    if msg.params.None? then Err(KeyError("params")) else Subscript(msg.params.value, "sessionId")
  }

  /** The id, the result and the frame id attach_new_frame reads from a reply. */
  datatype Frame = Frame(id: int, result: Json, frameId: Json)

  /**
   * attach_new_frame's three lookups, `response["id"]`, `response["result"]`
   * and `["frameId"]` on that result, in that order; the first failure is raised.
   */
  function FrameOf(msg: Inbound): (r: Result<Frame, Error>)
    ensures r.Ok? <==> msg.id.Some? && msg.result.Some? && msg.result.value.Obj? && "frameId" in msg.result.value.fields
    ensures r.Ok? ==> r.value == Frame(msg.id.value, msg.result.value, msg.result.value.fields["frameId"])
    ensures msg.id.None? ==> r == Err(KeyError("id"))
    ensures msg.id.Some? && msg.result.None? ==> r == Err(KeyError("result"))
    ensures msg.id.Some? && msg.result.Some? && !msg.result.value.Obj? ==> r == Err(TypeError)
    ensures msg.id.Some? && msg.result.Some? && msg.result.value.Obj? && "frameId" !in msg.result.value.fields ==>
              r == Err(KeyError("frameId"))
  {
    if msg.id.None? then Err(KeyError("id"))
    else if msg.result.None? then Err(KeyError("result"))
    else
      match Subscript(msg.result.value, "frameId")
      case Err(e) => Err(e)
      case Ok(frameId) => Ok(Frame(msg.id.value, msg.result.value, frameId))
  }
}
