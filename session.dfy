/**
 * The state of one DevTools session runtime as a value, and each of its
 * operations as a transition on that value. The class Runtime.Runtime
 * performs these transitions in place; the lemmas in SessionProperties are
 * about them.
 */
module Session {
  import opened Wrappers
  import opened Errors
  import opened JsonValues
  import opened Messages

  /**
   * results: payload stored per command id;
   * resultEvents: the one-shot gate registered per command id (true once set);
   * attachReady, loaded: the attach and page-load gates;
   * sessionId: the session outgoing commands carry (Null until an attach event);
   * page: the target attached to at start-up;
   * outbox: every message written to the socket, oldest first.
   */
  datatype State = State(
    results: map<int, Json>,
    resultEvents: map<int, bool>,
    attachReady: bool,
    loaded: bool,
    sessionId: Json,
    page: string,
    outbox: seq<OutMsg>)

  /** A new state together with what the operation returned or raised. */
  datatype Step<+T> = Step(state: State, out: T)

  /** The gate of command `id` is registered and set. */
  predicate GateSet(s: State, id: int)
  {
    id in s.resultEvents && s.resultEvents[id]
  }

  /** The gate of command `id` is registered and still waiting. */
  predicate GatePending(s: State, id: int)
  {
    id in s.resultEvents && !s.resultEvents[id]
  }

  /** The two maps hold the same entries at every key other than `k`. */
  ghost predicate AgreeExcept<V>(m: map<int, V>, m': map<int, V>, k: int)
  {
    forall x :: x != k ==> (x in m <==> x in m') && (x in m ==> m[x] == m'[x])
  }

  /**
   * The result and gate tables of `t` differ from those of `s` at most at
   * `id`, and not at all when there is no id.
   */
  ghost predicate TouchesOnly(s: State, t: State, id: Option<int>)
  {
    match id
    case None => t.results == s.results && t.resultEvents == s.resultEvents
    case Some(k) => AgreeExcept(s.results, t.results, k) && AgreeExcept(s.resultEvents, t.resultEvents, k)
  }

  /** Writes one message to the socket. */
  function Send(s: State, m: OutMsg): (t: State)
    ensures t.outbox == s.outbox + [m]
    ensures t.(outbox := s.outbox) == s
  {
    s.(outbox := s.outbox + [m])
  }

  /** attach_to_target: a single attach request for `targetId` under command id `id`. */
  function AttachToTarget(s: State, targetId: Json, id: int): (t: State)
    ensures |t.outbox| == |s.outbox| + 1 && t.outbox[..|s.outbox|] == s.outbox
    ensures t.outbox[|s.outbox|] == AttachRequest(id, targetId)
    ensures t.(outbox := s.outbox) == s
  {
    Send(s, AttachRequest(id, targetId))
  }

  /**
   * The runtime once the socket is open: empty tables, no gate set, no
   * session, and the attach request for the initial page already sent.
   */
  function Init(page: string, attachId: int): (s: State)
    ensures s.results == map[] && s.resultEvents == map[]
    ensures !s.attachReady && !s.loaded && s.sessionId == Null && s.page == page
    ensures s.outbox == [AttachRequest(attachId, Str(page))]
  {
    AttachToTarget(State(map[], map[], false, false, Null, page, []), Str(page), attachId)
  }

  /**
   * insert_command: the payload is stored whether or not the id is
   * registered; the gate is set only when it is registered.
   */
  function InsertCommand(s: State, id: int, payload: Json): (t: State)
    ensures id in t.results && t.results[id] == payload
    ensures AgreeExcept(s.results, t.results, id)
    ensures t.resultEvents.Keys == s.resultEvents.Keys
    ensures id in s.resultEvents ==> t.resultEvents[id]
    ensures AgreeExcept(s.resultEvents, t.resultEvents, id)
    ensures t.(results := s.results, resultEvents := s.resultEvents) == s
  {
    var events := if id in s.resultEvents then s.resultEvents[id := true] else s.resultEvents;
    s.(results := s.results[id := payload], resultEvents := events)
  }

  /**
   * retrieve_command_results, with the wait reduced to "is the gate already
   * set?". An unregistered id waits on a fresh gate nobody can set. On
   * success the entry is popped, Null standing in for a missing entry; the
   * gate itself is never removed.
   */
  function RetrieveCommandResults(s: State, id: int): (r: Step<Result<Json, Error>>)
    ensures r.out.Ok? <==> GateSet(s, id)
    ensures r.out.Err? ==> r.out.error == ResultsTimeout && r.state == s
    ensures r.out.Ok? && id in s.results ==> r.out.value == s.results[id]
    ensures r.out.Ok? && id !in s.results ==> r.out.value == Null
    ensures r.out.Ok? ==> id !in r.state.results && AgreeExcept(s.results, r.state.results, id)
    ensures r.state.(results := s.results) == s
  {
    if !GateSet(s, id) then Step(s, Err(ResultsTimeout))
    else Step(s.(results := s.results - {id}), Ok(if id in s.results then s.results[id] else Null))
  }

  /**
   * The send half of execute_command: the attach gate is checked first, then
   * (except for navigation) the load gate; a fresh, unset gate is registered
   * under `id`, overwriting any earlier gate with that id, and the command goes
   * out with `id` and the current session id.
   */
  function SendCommand(s: State, cdp: OutMsg, id: int): (r: Step<Outcome<Error>>)
    ensures !s.attachReady ==> r.out == Fail(AttachTimeout)
    ensures s.attachReady && "method" !in cdp ==> r.out == Fail(KeyError("method"))
    ensures s.attachReady && "method" in cdp ==>
              (r.out == Fail(LoadTimeout) <==> !s.loaded && cdp["method"] != Str(Navigate))
    ensures r.out.Pass? <==> s.attachReady && "method" in cdp && (s.loaded || cdp["method"] == Str(Navigate))
    ensures r.out.Fail? ==> r.state == s
    ensures r.out.Pass? ==> GatePending(r.state, id) && AgreeExcept(s.resultEvents, r.state.resultEvents, id)
    ensures r.out.Pass? ==> r.state.outbox == s.outbox + [CommandRequest(cdp, id, s.sessionId)]
    ensures r.out.Pass? ==> r.state.(resultEvents := s.resultEvents, outbox := s.outbox) == s
  {
    if !s.attachReady then Step(s, Fail(AttachTimeout))
    else if "method" !in cdp then Step(s, Fail(KeyError("method")))
    else if cdp["method"] != Str(Navigate) && !s.loaded then Step(s, Fail(LoadTimeout))
    else
      var registered := s.(resultEvents := s.resultEvents[id := false]);
      Step(Send(registered, CommandRequest(cdp, id, s.sessionId)), Pass)
  }

  /**
   * execute_command run on its own: send, then retrieve. Nothing is
   * dispatched between the two, so the fresh gate is still unset and the call
   * can only fail; SessionProperties interleaves inbound messages instead.
   */
  function ExecuteCommand(s: State, cdp: OutMsg, id: int): (r: Step<Result<Json, Error>>)
    ensures r.out.Err?
    ensures SendCommand(s, cdp, id).out.Fail? ==> r == Step(s, Err(SendCommand(s, cdp, id).out.error))
    ensures SendCommand(s, cdp, id).out.Pass? ==>
              r.out.error == ResultsTimeout && r.state == SendCommand(s, cdp, id).state
  {
    var sent := SendCommand(s, cdp, id);
    if sent.out.Fail? then Step(sent.state, Err(sent.out.error))
    else RetrieveCommandResults(sent.state, id)
  }

  /**
   * attach_new_frame: after its lookups succeed, the reply's result is stored
   * under the reply's id, an attach request for the frame is sent under
   * `attachId`, and the page counts as loaded. A failed lookup changes nothing.
   */
  function AttachNewFrame(s: State, msg: Inbound, attachId: int): (r: Step<Outcome<Error>>)
    ensures FrameOf(msg).Err? ==> r == Step(s, Fail(FrameOf(msg).error))
    ensures FrameOf(msg).Ok? ==> r.out.Pass? && r.state.loaded
    ensures FrameOf(msg).Ok? ==>
              var f := FrameOf(msg).value;
              r.state.results == s.results[f.id := f.result] &&
              r.state.outbox == s.outbox + [AttachRequest(attachId, f.frameId)] &&
              r.state.resultEvents == InsertCommand(s, f.id, f.result).resultEvents
    ensures r.state.attachReady == s.attachReady && r.state.sessionId == s.sessionId && r.state.page == s.page
    ensures TouchesOnly(s, r.state, msg.id)
    ensures Dispatched(s, r.state)
  {
    match FrameOf(msg)
    case Err(e) => Step(s, Fail(e))
    case Ok(f) =>
      var stored := InsertCommand(s, f.id, f.result);
      Step(AttachToTarget(stored, f.frameId, attachId).(loaded := true), Pass)
  }

  /** handle_commands: stores what CommandReply selects, or raises its KeyError. */
  function HandleCommands(s: State, msg: Inbound): (r: Step<Outcome<Error>>)
    ensures CommandReply(msg).Err? ==> r == Step(s, Fail(CommandReply(msg).error))
    ensures CommandReply(msg).Ok? ==>
              var reply := CommandReply(msg).value;
              r.out.Pass? && reply.id in r.state.results && r.state.results[reply.id] == reply.payload &&
              AgreeExcept(s.results, r.state.results, reply.id) &&
              (reply.id in s.resultEvents ==> GateSet(r.state, reply.id))
    ensures r.state.resultEvents.Keys == s.resultEvents.Keys
    ensures r.state.(results := s.results, resultEvents := s.resultEvents) == s
    ensures TouchesOnly(s, r.state, msg.id)
    ensures Dispatched(s, r.state)
  {
    match CommandReply(msg)
    case Err(e) => Step(s, Fail(e))
    case Ok(reply) => Step(InsertCommand(s, reply.id, reply.payload), Pass)
  }

  /**
   * The relation every dispatch keeps between the state before and after:
   * both readiness gates only go from unset to set, the page is kept, no
   * command gate is added, removed or unset, results are only added or
   * overwritten, and the outbox only grows at its end.
   */
  ghost predicate Dispatched(s: State, t: State)
  {
    (s.attachReady ==> t.attachReady) &&
    (s.loaded ==> t.loaded) &&
    t.page == s.page &&
    t.resultEvents.Keys == s.resultEvents.Keys &&
    (forall id :: GateSet(s, id) ==> GateSet(t, id)) &&
    s.results.Keys <= t.results.Keys &&
    |s.outbox| <= |t.outbox| && t.outbox[..|s.outbox|] == s.outbox
  }

  /** An attach event without a usable params.sessionId: on_message raises before any routing. */
  predicate AttachRaises(msg: Inbound)
  {
    IsEvent(msg, AttachedToTarget) && SessionIdOf(msg).Err?
  }

  /** on_message reaches attach_new_frame and its lookups succeed. */
  predicate FrameAttached(msg: Inbound)
  {
    !AttachRaises(msg) && MentionsFrameId(msg) && FrameOf(msg).Ok?
  }

  /** on_message reaches handle_commands. */
  predicate ReachesCommands(msg: Inbound)
  {
    !AttachRaises(msg) && (MentionsFrameId(msg) ==> FrameOf(msg).Ok?) && !MentionsMethod(msg)
  }

  /**
   * The state on_message hands on to attach_new_frame and handle_commands:
   * the event checks change only the two flags and the session id.
   */
  function EventsApplied(s: State, msg: Inbound): (t: State)
    requires !AttachRaises(msg)
    ensures t.results == s.results && t.resultEvents == s.resultEvents && t.outbox == s.outbox
    ensures t.attachReady == (s.attachReady || IsEvent(msg, AttachedToTarget))
    ensures t.loaded == (s.loaded || IsEvent(msg, LoadEventFired))
    ensures t.sessionId == (if IsEvent(msg, AttachedToTarget) then SessionIdOf(msg).value else s.sessionId)
    ensures t.page == s.page
  {
    var attached := if IsEvent(msg, AttachedToTarget)
                    then s.(attachReady := true, sessionId := SessionIdOf(msg).value)
                    else s;
    if IsEvent(msg, LoadEventFired) then attached.(loaded := true) else attached
  }

  /**
   * on_message. The two events set their gates (an attach event also takes
   * the session id, and raises when it has none, having set the gate); a
   * raw text naming "frameId" goes to attach_new_frame, and a raw text not
   * naming "method" goes to handle_commands. A raised error ends the
   * handler; whatever was done before it stays done.
   */
  function OnMessage(s: State, msg: Inbound, attachId: int): (r: Step<Outcome<Error>>)
    ensures Dispatched(s, r.state)
    ensures IsEvent(msg, AttachedToTarget) ==> r.state.attachReady
    ensures IsEvent(msg, AttachedToTarget) && SessionIdOf(msg).Ok? ==> r.state.sessionId == SessionIdOf(msg).value
    ensures !(IsEvent(msg, AttachedToTarget) && SessionIdOf(msg).Ok?) ==> r.state.sessionId == s.sessionId
    ensures !IsEvent(msg, AttachedToTarget) ==> r.state.attachReady == s.attachReady
    ensures IsEvent(msg, LoadEventFired) ==> r.state.loaded
  {
    if AttachRaises(msg) then
      Step(s.(attachReady := true), Fail(SessionIdOf(msg).error))
    else
      var fired := EventsApplied(s, msg);
      var framed := if MentionsFrameId(msg) then AttachNewFrame(fired, msg, attachId) else Step(fired, Pass);
      if framed.out.Pass? && !MentionsMethod(msg) then HandleCommands(framed.state, msg) else framed
  }
}
