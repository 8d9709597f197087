/**
 * The DevTools session runtime as an object whose fields its methods update
 * in place. Each method's new state and return value are those of the
 * matching transition of module Session. Waits are reduced to "is the gate
 * already set?", and the random command ids are parameters.
 */
module DevTools {
  import opened Wrappers
  import opened Errors
  import opened JsonValues
  import opened Messages
  import Session

  class Runtime {
    /** Payload stored per command id. */
    var results: map<int, Json>
    /** The one-shot gate registered per command id: true once set. */
    var resultEvents: map<int, bool>
    var attachReady: bool
    var loaded: bool
    /** Null until the first attach event. */
    var sessionId: Json
    var page: string
    /** Everything written to the socket, oldest first. */
    var outbox: seq<OutMsg>

    /** The object's fields as a Session state. */
    function Snapshot(): Session.State
      reads this
    {
      Session.State(results, resultEvents, attachReady, loaded, sessionId, page, outbox)
    }

    /** The runtime once its socket is open: it attaches to `pageId` under command id `attachId`. */
    constructor (pageId: string, attachId: int)
      requires IsCommandId(attachId)
      ensures Snapshot() == Session.Init(pageId, attachId)
    {
      results := map[];
      resultEvents := map[];
      attachReady := false;
      loaded := false;
      sessionId := Null;
      page := pageId;
      outbox := [];
      new;
      AttachToTarget(Str(pageId), attachId);
    }

    method InsertCommand(id: int, payload: Json)
      modifies this
      ensures Snapshot() == Session.InsertCommand(old(Snapshot()), id, payload)
    {
      results := results[id := payload];
      if id in resultEvents {
        resultEvents := resultEvents[id := true];
      }
    }

    method RetrieveCommandResults(id: int) returns (r: Result<Json, Error>)
      modifies this
      ensures Session.Step(Snapshot(), r) == Session.RetrieveCommandResults(old(Snapshot()), id)
    {
      if !(id in resultEvents && resultEvents[id]) {
        return Err(ResultsTimeout);
      }
      if id in results {
        r := Ok(results[id]);
        results := results - {id};
      } else {
        r := Ok(Null);
      }
    }

    method AttachToTarget(targetId: Json, attachId: int)
      requires IsCommandId(attachId)
      modifies this
      ensures Snapshot() == Session.AttachToTarget(old(Snapshot()), targetId, attachId)
    {
      outbox := outbox + [AttachRequest(attachId, targetId)];
    }

    /** execute_command up to and including the send. */
    method SendCommand(cdp: OutMsg, id: int) returns (o: Outcome<Error>)
      requires IsCommandId(id)
      modifies this
      ensures Session.Step(Snapshot(), o) == Session.SendCommand(old(Snapshot()), cdp, id)
    {
      if !attachReady {
        return Fail(AttachTimeout);
      }
      if "method" !in cdp {
        return Fail(KeyError("method"));
      }
      if cdp["method"] != Str(Navigate) && !loaded {
        return Fail(LoadTimeout);
      }
      resultEvents := resultEvents[id := false];
      outbox := outbox + [CommandRequest(cdp, id, sessionId)];
      o := Pass;
    }

    method ExecuteCommand(cdp: OutMsg, id: int) returns (r: Result<Json, Error>)
      requires IsCommandId(id)
      modifies this
      ensures Session.Step(Snapshot(), r) == Session.ExecuteCommand(old(Snapshot()), cdp, id)
    {
      var sent := SendCommand(cdp, id);
      if sent.Fail? {
        return Err(sent.error);
      }
      r := RetrieveCommandResults(id);
    }

    method AttachNewFrame(msg: Inbound, attachId: int) returns (o: Outcome<Error>)
      requires IsCommandId(attachId)
      modifies this
      ensures Session.Step(Snapshot(), o) == Session.AttachNewFrame(old(Snapshot()), msg, attachId)
    {
      var frame := FrameOf(msg);
      if frame.Err? {
        return Fail(frame.error);
      }
      InsertCommand(frame.value.id, frame.value.result);
      AttachToTarget(frame.value.frameId, attachId);
      loaded := true;
      o := Pass;
    }

    method HandleCommands(msg: Inbound) returns (o: Outcome<Error>)
      modifies this
      ensures Session.Step(Snapshot(), o) == Session.HandleCommands(old(Snapshot()), msg)
    {
      var reply := CommandReply(msg);
      if reply.Err? {
        return Fail(reply.error);
      }
      InsertCommand(reply.value.id, reply.value.payload);
      o := Pass;
    }

    /** Called by the socket's receive loop for every inbound message. */
    method OnMessage(msg: Inbound, attachId: int) returns (o: Outcome<Error>)
      requires IsCommandId(attachId)
      modifies this
      ensures Session.Step(Snapshot(), o) == Session.OnMessage(old(Snapshot()), msg, attachId)
    {
      if IsEvent(msg, AttachedToTarget) {
        attachReady := true;
        var sid := SessionIdOf(msg);
        if sid.Err? {
          return Fail(sid.error);
        }
        sessionId := sid.value;
      }
      if IsEvent(msg, LoadEventFired) {
        loaded := true;
      }
      o := Pass;
      if MentionsFrameId(msg) {
        o := AttachNewFrame(msg, attachId);
        if o.Fail? {
          return;
        }
      }
      if !MentionsMethod(msg) {
        o := HandleCommands(msg);
      }
    }
  }
}
