/**
 * Properties of the session runtime that relate several operations: runs of
 * inbound messages, command round trips with the reply dispatched between
 * the send and the retrieve, the readiness gating of commands, and the
 * consequences of classifying messages by their raw text.
 */
module SessionProperties {
  import opened Wrappers
  import opened Errors
  import opened JsonValues
  import opened Text
  import opened Messages
  import opened Session

  /** One inbound message, with the command id an attach it may trigger would use. */
  datatype Arrival = Arrival(msg: Inbound, attachId: int)

  /** The receive loop: on_message applied to each arrival in order. */
  function Run(s: State, arrivals: seq<Arrival>): State
    decreases |arrivals|
  {
    if arrivals == [] then s
    else Run(OnMessage(s, arrivals[0].msg, arrivals[0].attachId).state, arrivals[1..])
  }

  /** The session id named by the last attach event that carried one, or `current` if none did. */
  function LastSession(current: Json, arrivals: seq<Arrival>): Json
    decreases |arrivals|
  {
    if arrivals == [] then current
    else
      var m := arrivals[0].msg;
      var next := if IsEvent(m, AttachedToTarget) && SessionIdOf(m).Ok? then SessionIdOf(m).value else current;
      LastSession(next, arrivals[1..])
  }

  lemma DispatchedTransitive(s: State, t: State, u: State)
    requires Dispatched(s, t) && Dispatched(t, u)
    ensures Dispatched(s, u)
  {
    assert u.outbox[..|t.outbox|][..|s.outbox|] == u.outbox[..|s.outbox|];
  }

  /**
   * Over any run of inbound messages both readiness gates stay set once set,
   * no command gate is removed or unset, no result is dropped and nothing
   * sent is taken back.
   */
  lemma {:induction false} RunDispatched(s: State, arrivals: seq<Arrival>)
    ensures Dispatched(s, Run(s, arrivals))
    decreases |arrivals|
  {
    if arrivals == [] {
      assert s.outbox[..|s.outbox|] == s.outbox;
    } else {
      var next := OnMessage(s, arrivals[0].msg, arrivals[0].attachId).state;
      RunDispatched(next, arrivals[1..]);
      DispatchedTransitive(s, next, Run(next, arrivals[1..]));
    }
  }

  /** After a run, the attach gate is set exactly when it was set before or some arrival was an attach event. */
  lemma {:induction false} RunAttachReady(s: State, arrivals: seq<Arrival>)
    ensures Run(s, arrivals).attachReady <==>
              s.attachReady || exists i :: 0 <= i < |arrivals| && IsEvent(arrivals[i].msg, AttachedToTarget)
    decreases |arrivals|
  {
    if arrivals != [] {
      var next := OnMessage(s, arrivals[0].msg, arrivals[0].attachId).state;
      var rest := arrivals[1..];
      RunAttachReady(next, rest);
      if exists i :: 0 <= i < |rest| && IsEvent(rest[i].msg, AttachedToTarget) {
        var i :| 0 <= i < |rest| && IsEvent(rest[i].msg, AttachedToTarget);
        assert IsEvent(arrivals[i + 1].msg, AttachedToTarget);
      }
      if exists i :: 0 <= i < |arrivals| && IsEvent(arrivals[i].msg, AttachedToTarget) {
        var i :| 0 <= i < |arrivals| && IsEvent(arrivals[i].msg, AttachedToTarget);
        if i > 0 {
          assert IsEvent(rest[i - 1].msg, AttachedToTarget);
        }
      }
    }
  }

  /**
   * After a run, the load gate is set exactly when it was set before or some
   * arrival was a load event or attached a frame.
   */
  lemma {:induction false} RunLoaded(s: State, arrivals: seq<Arrival>)
    ensures Run(s, arrivals).loaded <==>
              s.loaded ||
              exists i :: 0 <= i < |arrivals| && (IsEvent(arrivals[i].msg, LoadEventFired) || FrameAttached(arrivals[i].msg))
    decreases |arrivals|
  {
    if arrivals != [] {
      var next := OnMessage(s, arrivals[0].msg, arrivals[0].attachId).state;
      var rest := arrivals[1..];
      OnMessageLoaded(s, arrivals[0].msg, arrivals[0].attachId);
      RunLoaded(next, rest);
      if exists i :: 0 <= i < |rest| && (IsEvent(rest[i].msg, LoadEventFired) || FrameAttached(rest[i].msg)) {
        var i :| 0 <= i < |rest| && (IsEvent(rest[i].msg, LoadEventFired) || FrameAttached(rest[i].msg));
        assert arrivals[i + 1] == rest[i];
      }
      if exists i :: 0 <= i < |arrivals| && (IsEvent(arrivals[i].msg, LoadEventFired) || FrameAttached(arrivals[i].msg)) {
        var i :| 0 <= i < |arrivals| && (IsEvent(arrivals[i].msg, LoadEventFired) || FrameAttached(arrivals[i].msg));
        if i > 0 {
          assert arrivals[i] == rest[i - 1];
        }
      }
    }
  }

  /** Every attach event that names a session overwrites the session id; after a run it is the last one named. */
  lemma {:induction false} RunSessionId(s: State, arrivals: seq<Arrival>)
    ensures Run(s, arrivals).sessionId == LastSession(s.sessionId, arrivals)
    decreases |arrivals|
  {
    if arrivals != [] {
      RunSessionId(OnMessage(s, arrivals[0].msg, arrivals[0].attachId).state, arrivals[1..]);
    }
  }

  lemma TouchesOnlyTransitive(s: State, t: State, u: State, id: Option<int>)
    requires TouchesOnly(s, t, id) && TouchesOnly(t, u, id)
    ensures TouchesOnly(s, u, id)
  {
  }

  /**
   * Dispatching a message changes the result and gate tables at most at the
   * message's own id, and not at all when it has none: a stray reply leaves
   * every other command's entry alone.
   */
  lemma OnMessageTouchesOnlyItsId(s: State, msg: Inbound, attachId: int)
    ensures TouchesOnly(s, OnMessage(s, msg, attachId).state, msg.id)
  {
    if !AttachRaises(msg) {
      var fired := EventsApplied(s, msg);
      var framed := if MentionsFrameId(msg) then AttachNewFrame(fired, msg, attachId) else Step(fired, Pass);
      assert TouchesOnly(s, framed.state, msg.id);
      if framed.out.Pass? && !MentionsMethod(msg) {
        TouchesOnlyTransitive(s, framed.state, HandleCommands(framed.state, msg).state, msg.id);
      }
    }
  }

  /**
   * What on_message raises: the attach event's lookup error, else the error
   * of attach_new_frame when the text names "frameId", else the error of
   * handle_commands when it is reached; nothing otherwise.
   */
  lemma OnMessageOutcome(s: State, msg: Inbound, attachId: int)
    ensures OnMessage(s, msg, attachId).out ==
            if AttachRaises(msg) then Fail(SessionIdOf(msg).error)
            else if MentionsFrameId(msg) && FrameOf(msg).Err? then Fail(FrameOf(msg).error)
            else if ReachesCommands(msg) && CommandReply(msg).Err? then Fail(CommandReply(msg).error)
            else Pass
  {
  }

  /** The load gate is set by a message exactly when it was already set, the message is a load event, or a frame is attached. */
  lemma OnMessageLoaded(s: State, msg: Inbound, attachId: int)
    ensures OnMessage(s, msg, attachId).state.loaded <==>
            s.loaded || IsEvent(msg, LoadEventFired) || FrameAttached(msg)
  {
  }

  /** A message sends one attach request, for the frame of its result, exactly when a frame is attached, and nothing otherwise. */
  lemma OnMessageOutbox(s: State, msg: Inbound, attachId: int)
    ensures OnMessage(s, msg, attachId).state.outbox ==
            s.outbox + (if FrameAttached(msg) then [AttachRequest(attachId, FrameOf(msg).value.frameId)] else [])
  {
  }

  lemma OnMessageStages(s: State, msg: Inbound, attachId: int)
    requires !AttachRaises(msg)
    ensures var fired := EventsApplied(s, msg);
            var framed := if MentionsFrameId(msg) then AttachNewFrame(fired, msg, attachId) else Step(fired, Pass);
            OnMessage(s, msg, attachId) ==
              if framed.out.Pass? && !MentionsMethod(msg) then HandleCommands(framed.state, msg) else framed
  {
  }

  /**
   * A message changes neither the result table nor the gate table unless a
   * frame is attached or handle_commands stores a reply. In particular a text
   * naming "method" but not "frameId" changes neither table.
   */
  lemma OnMessageKeepsTables(s: State, msg: Inbound, attachId: int)
    requires !FrameAttached(msg) && !(ReachesCommands(msg) && CommandReply(msg).Ok?)
    ensures OnMessage(s, msg, attachId).state.results == s.results
    ensures OnMessage(s, msg, attachId).state.resultEvents == s.resultEvents
  {
    if !AttachRaises(msg) {
      OnMessageStages(s, msg, attachId);
    }
  }

  /** When attach_new_frame stores and handle_commands is not reached, the tables hold the frame reply's result. */
  lemma OnMessageStoresFrame(s: State, msg: Inbound, attachId: int)
    requires FrameAttached(msg) && !ReachesCommands(msg)
    ensures var f := FrameOf(msg).value;
            OnMessage(s, msg, attachId).state.results == s.results[f.id := f.result] &&
            OnMessage(s, msg, attachId).state.resultEvents == InsertCommand(s, f.id, f.result).resultEvents
  {
    OnMessageStages(s, msg, attachId);
  }

  /**
   * Whenever handle_commands stores a reply, the tables end up holding that
   * reply's payload, overwriting what attach_new_frame stored under the same id.
   */
  lemma OnMessageStoresReply(s: State, msg: Inbound, attachId: int)
    requires ReachesCommands(msg) && CommandReply(msg).Ok?
    ensures var reply := CommandReply(msg).value;
            OnMessage(s, msg, attachId).state.results == s.results[reply.id := reply.payload] &&
            OnMessage(s, msg, attachId).state.resultEvents == InsertCommand(s, reply.id, reply.payload).resultEvents
  {
    OnMessageStages(s, msg, attachId);
    var reply := CommandReply(msg).value;
    if MentionsFrameId(msg) {
      var f := FrameOf(msg).value;
      assert f.id == reply.id;
      assert s.results[f.id := f.result][f.id := reply.payload] == s.results[reply.id := reply.payload];
    }
  }

  /**
   * A frame reply that also reaches handle_commands stores its result again,
   * or Null when it has an "undefined" key.
   */
  lemma FrameReplyPayload(msg: Inbound)
    requires FrameAttached(msg) && ReachesCommands(msg)
    ensures CommandReply(msg) == Ok(Reply(FrameOf(msg).value.id,
                                          if msg.hasUndefined then Null else FrameOf(msg).value.result))
  {
  }

  /** A stored result is what a registered gate's retrieve hands back, and the gate stays registered and set. */
  lemma InsertThenRetrieve(s: State, id: int, payload: Json)
    requires id in s.resultEvents
    ensures RetrieveCommandResults(InsertCommand(s, id, payload), id) ==
            Step(s.(results := s.results - {id}, resultEvents := s.resultEvents[id := true]), Ok(payload))
  {
    var t := InsertCommand(s, id, payload);
    assert t.results - {id} == s.results - {id};
  }

  /** A reply for an id with no gate is stored all the same, and no retrieve can ever hand it out. */
  lemma StrayReplyIsKept(s: State, msg: Inbound)
    requires CommandReply(msg).Ok? && CommandReply(msg).value.id !in s.resultEvents
    ensures var t := HandleCommands(s, msg).state;
            var id := CommandReply(msg).value.id;
            t.resultEvents == s.resultEvents && id in t.results &&
            RetrieveCommandResults(t, id) == Step(t, Err(ResultsTimeout))
  {
  }

  /** The id of the initial attach request is never registered, so its reply stays in the results table. */
  lemma InitialAttachReplyIsKept(page: string, attachId: int, msg: Inbound)
    requires !MentionsFrameId(msg) && !MentionsMethod(msg) && msg.methodName.None?
    requires msg.id == Some(attachId) && msg.result.Some?
    ensures var t := OnMessage(Init(page, attachId), msg, attachId).state;
            t.resultEvents == map[] && attachId in t.results &&
            RetrieveCommandResults(t, attachId).out == Err(ResultsTimeout)
  {
  }

  /** A sent command goes out as exactly one message, carrying its id and the current session id. */
  lemma SentCommandCarriesIdAndSession(s: State, cdp: OutMsg, id: int)
    requires SendCommand(s, cdp, id).out.Pass?
    ensures var t := SendCommand(s, cdp, id).state;
            |t.outbox| == |s.outbox| + 1 && t.outbox[..|s.outbox|] == s.outbox &&
            RequestId(t.outbox[|s.outbox|]) == Some(id) && t.outbox[|s.outbox|]["sessionId"] == s.sessionId
  {
  }

  /** Before the page has loaded, navigation is the only command that can be sent. */
  lemma OnlyNavigateBeforeLoad(s: State, cdp: OutMsg, id: int)
    requires !s.loaded && SendCommand(s, cdp, id).out.Pass?
    ensures s.attachReady && "method" in cdp && cdp["method"] == Str(Navigate)
  {
  }

  /**
   * The round trip of a command whose reply is an ordinary result: send,
   * dispatch the reply, retrieve. The caller gets the reply's result, its
   * entry leaves the table, and its gate stays behind, set.
   */
  lemma ReplyRoundTrip(s: State, cdp: OutMsg, id: int, msg: Inbound, attachId: int)
    requires SendCommand(s, cdp, id).out.Pass?
    requires msg.methodName.None? && !MentionsFrameId(msg) && !MentionsMethod(msg)
    requires msg.id == Some(id) && msg.result.Some? && !msg.hasUndefined
    ensures var sent := SendCommand(s, cdp, id).state;
            var got := RetrieveCommandResults(OnMessage(sent, msg, attachId).state, id);
            got.out == Ok(msg.result.value) && id !in got.state.results && GateSet(got.state, id)
  {
  }

  /**
   * The reply to a navigation names the new frame: it is stored (twice, by
   * attach_new_frame and by handle_commands), the page counts as loaded, one
   * attach request for the frame is sent, and the caller gets the reply's result.
   */
  lemma NavigateReplyRoundTrip(s: State, cdp: OutMsg, id: int, msg: Inbound, attachId: int)
    requires SendCommand(s, cdp, id).out.Pass?
    requires msg.methodName.None? && MentionsFrameId(msg) && !MentionsMethod(msg) && !msg.hasUndefined
    requires FrameOf(msg).Ok? && msg.id == Some(id)
    ensures var sent := SendCommand(s, cdp, id).state;
            var t := OnMessage(sent, msg, attachId).state;
            t.loaded && t.outbox == sent.outbox + [AttachRequest(attachId, FrameOf(msg).value.frameId)] &&
            RetrieveCommandResults(t, id).out == Ok(msg.result.value)
  {
  }

  /**
   * Once attached and before the load: a navigation can be sent while any
   * other command fails on the load gate; after the navigation's reply has
   * been dispatched, the other command can be sent too.
   */
  lemma NavigateThenCommand(s: State, nav: OutMsg, navId: int, cmd: OutMsg, cmdId: int, reply: Inbound, attachId: int)
    requires s.attachReady && !s.loaded
    requires "method" in nav && nav["method"] == Str(Navigate)
    requires "method" in cmd && cmd["method"] != Str(Navigate)
    requires reply.methodName.None? && MentionsFrameId(reply) && FrameOf(reply).Ok?
    ensures SendCommand(s, cmd, cmdId).out == Fail(LoadTimeout)
    ensures SendCommand(s, nav, navId).out.Pass?
    ensures var t := OnMessage(SendCommand(s, nav, navId).state, reply, attachId).state;
            SendCommand(t, cmd, cmdId).out.Pass?
  {
  }

  /**
   * Neither event, no "frameId" in the text, but "method" somewhere in the
   * text: the message is dropped, whatever its decoded keys are.
   */
  lemma MethodMentionIsDropped(s: State, msg: Inbound, attachId: int)
    requires !IsEvent(msg, AttachedToTarget) && !IsEvent(msg, LoadEventFired)
    requires !MentionsFrameId(msg) && MentionsMethod(msg)
    ensures OnMessage(s, msg, attachId) == Step(s, Pass)
  {
  }

  /**
   * A reply with no "method" key whose text nevertheless has "method" in it
   * (inside a result string, say) is dropped, so the waiting command times
   * out although its reply arrived.
   */
  lemma ReplyMentioningMethodIsLost(s: State, id: int, before: string, after: string, payload: Json, attachId: int)
    requires GatePending(s, id)
    requires !Contains(before + "method" + after, "frameId")
    ensures var msg := Inbound(before + "method" + after, None, Some(id), None, Some(payload), false, false);
            CommandReply(msg) == Ok(Reply(id, payload)) &&
            RetrieveCommandResults(OnMessage(s, msg, attachId).state, id).out == Err(ResultsTimeout)
  {
    var msg := Inbound(before + "method" + after, None, Some(id), None, Some(payload), false, false);
    ContainsInfix(before, "method", after);
    MethodMentionIsDropped(s, msg, attachId);
  }

  /**
   * A reply whose text has "frameId" in it while its result has no such key
   * raises in attach_new_frame before handle_commands is reached: the waiting
   * command times out.
   */
  lemma ReplyMentioningFrameIdIsLost(s: State, id: int, msg: Inbound, attachId: int)
    requires GatePending(s, id)
    requires msg.methodName.None? && msg.id == Some(id) && MentionsFrameId(msg)
    requires msg.result.Some? && msg.result.value.Obj? && "frameId" !in msg.result.value.fields
    ensures OnMessage(s, msg, attachId) == Step(s, Fail(KeyError("frameId")))
    ensures RetrieveCommandResults(OnMessage(s, msg, attachId).state, id).out == Err(ResultsTimeout)
  {
  }

  /**
   * An attach event without params.sessionId sets the attach gate and then
   * raises: the session id keeps its old value and the rest of the handler
   * does not run.
   */
  lemma AttachWithoutSessionRaises(s: State, msg: Inbound, attachId: int)
    requires IsEvent(msg, AttachedToTarget) && msg.params.None?
    ensures OnMessage(s, msg, attachId) == Step(s.(attachReady := true), Fail(KeyError("params")))
  {
  }

  /**
   * Reusing the id of a command already answered: the new send replaces its
   * set gate with an unset one, the old result stays in the table, and a
   * retrieve now times out instead of returning it.
   */
  lemma ReusedIdResetsGate(s: State, cdp: OutMsg, id: int)
    requires GateSet(s, id) && id in s.results
    requires SendCommand(s, cdp, id).out.Pass?
    ensures var t := SendCommand(s, cdp, id).state;
            GatePending(t, id) && t.results == s.results &&
            RetrieveCommandResults(t, id).out == Err(ResultsTimeout)
  {
  }
}
