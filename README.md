# Navium DevTools session runtime, in Dafny

This project models `Runtime` (`scripts/runtime.py`), the part of Navium that
drives a Chromium page over the DevTools protocol. Navium sends commands over
a WebSocket and matches each reply to its command by a numeric id. The runtime
keeps:

- a table of results per command id;
- a table of one-shot gates per command id;
- two readiness gates: attach-ready and page-loaded;
- the session id that outgoing commands carry.

The model has four layers:

- `Messages` (messages.dfy) holds the inbound and outbound messages. An inbound
  message is its raw text plus the top-level keys its decoding has. An outbound
  message is the dictionary given to the serialiser. This module also has the
  request builders and the rule that decides what a reply stores.
- `Session` (session.dfy) describes the runtime's state as a value. Each
  `Runtime` method is a transition on that value. For every method except
  `on_message`, its contract states the new state and the return value or the
  raised error. For `on_message` the contract states the invariant and the two
  events. The `OnMessage…` lemmas in `SessionProperties` state how it routes a
  message: what it raises, what it sends, when it sets the page-loaded gate,
  and what it stores.
- `DevTools.Runtime` (runtime.dfy) is a class whose fields the methods update
  in place, as the Python object's are. Each method's contract ties its new
  fields and its result to the matching `Session` transition.
- `SessionProperties` (properties.dfy) holds properties that span several
  operations. One is what holds across any run of inbound messages (`Run`).
  Others are round trips where the reply is dispatched between the send half
  and the retrieve half of `execute_command`. There are also the readiness
  gating rules and the effects of classifying messages by their raw text.

How the model renders the source:

- Python's `None` and JSON `null` are one value in the source. A stored `None`,
  a `null` result and a missing entry all come back as `None`. So payloads,
  results and the session id are `Json`, with `Null` standing for `None`.
- An exception raised inside a handler becomes `Fail(error)`. Effects made
  before the raise stay in place. For example, an attach event without
  `params.sessionId` still sets attach-ready.
- Each blocking wait becomes "is the gate already set?". A wait on a gate that
  is not set ends in the timeout error. Because of that, `ExecuteCommand` run
  alone always fails: it raises the error from before the send, or the results
  timeout, since no message can arrive between its send and its retrieve. The lemmas therefore dispatch the reply between `SendCommand` and
  `RetrieveCommandResults`.
- Command ids are random in the source. Here they are parameters, with no
  uniqueness assumed, in the range 1 to 1000000 that `random.randint` draws from.
  A reused id overwrites the earlier gate (`ReusedIdResetsGate`).
- The tests for `"frameId"` and `"method"` look at the raw text, not at the
  decoded keys (`MentionsFrameId`, `MentionsMethod`, built on `Text.Contains`).
  Two consequences are proved:
  - A reply whose text has "method" anywhere in it and no "frameId" is
    dropped, so its command times out (`ReplyMentioningMethodIsLost`).
  - A reply whose text has "frameId" in it while its result has no such key
    raises before `handle_commands` is reached (`ReplyMentioningFrameIdIsLost`).

The model follows the code as written, in particular:

- command ids are drawn at random, so two outstanding commands can share one;
- a reply for an id with no gate is stored in the results table;
- a gate stays in its table after its command is retrieved or times out;
- every attach event that names a session overwrites the session id;
- replies and events are told apart by substrings of the raw text;
- nothing ever clears the page-loaded gate, so it stays set across navigations.

## Model

| member | source | states |
|---|---|---|
| `Text.ContainsIff` | scripts/runtime.py:156-160 | the raw-text test `pattern in message` holds exactly when the pattern occurs at some position of the text |
| `Text.ContainsInfix` | scripts/runtime.py:156-160 | a text with the pattern written anywhere inside it passes the raw-text test |
| `JsonValues.Subscript` | scripts/runtime.py:125 | `value[key]` succeeds exactly on an object holding the key and yields its value; on an object without the key it raises KeyError, and on anything else TypeError |
| `Messages.AttachRequest` | scripts/runtime.py:87-94 | the attach request has exactly the keys id, method and params; it carries the given id and method Target.attachToTarget, and its params hold exactly the target id and flatten = true (no session id) |
| `Messages.CommandRequest` | scripts/runtime.py:113-115 | the outgoing command carries the given id and session id and keeps every other key of the caller's dictionary unchanged |
| `Messages.SelectsResult` | scripts/runtime.py:136 | the value condition holds exactly when a result key or a data key is present; the literal "value" has no effect |
| `Messages.CommandReply` | scripts/runtime.py:130-141 | no id gives KeyError("id"); an "undefined" key, or neither result nor data, stores Null; otherwise a result key stores that result, and a data key without a result key gives KeyError("result") |
| `Messages.SessionIdOf` | scripts/runtime.py:151 | `response["params"]["sessionId"]` succeeds exactly when params is an object holding sessionId; a missing params gives KeyError("params"), a params that is not an object gives TypeError, and an object without sessionId gives KeyError("sessionId") |
| `Messages.FrameOf` | scripts/runtime.py:124-125 | attach_new_frame's lookups succeed exactly when the message has an id and its result is an object with a frameId; a missing id or result raises KeyError for that key, a result that is not an object raises TypeError, and an object result without frameId raises KeyError("frameId") |
| `Session.Init` | scripts/runtime.py:36-57 | after connecting: empty tables, no gate set, session Null, and exactly one attach request for the page in the outbox |
| `Session.InsertCommand` | scripts/runtime.py:65-71 | stores the payload under the id whether or not the id is registered; sets the gate only if registered; adds no gate; every other entry of both tables and every other field is unchanged |
| `Session.RetrieveCommandResults` | scripts/runtime.py:73-81 | succeeds exactly when the gate is registered and set; on failure raises the results timeout and changes nothing; on success pops the entry and returns its value, or Null if there was none, leaving the gates unchanged |
| `Session.AttachToTarget` | scripts/runtime.py:83-95 | appends exactly one attach request for the target and changes nothing else |
| `Session.SendCommand` | scripts/runtime.py:101-115 | the send succeeds exactly when attached, the method key is present, and the page is loaded or the method is Page.navigate; otherwise: no attach gives the attach timeout, then a missing method gives KeyError, then the load timeout; a failure changes nothing; on success an unset gate is registered under the id and exactly one command with that id and the current session id is sent |
| `Session.ExecuteCommand` | scripts/runtime.py:97-118 | never succeeds without a message dispatched during the wait: it raises the pre-send error unchanged, or (after sending) the results timeout, leaving the registered gate behind |
| `Session.AttachNewFrame` | scripts/runtime.py:120-128 | a failed lookup raises and changes nothing; otherwise the result is stored under the reply's id, one attach request for result.frameId is sent, the page counts as loaded, and only that id's entries change |
| `Session.HandleCommands` | scripts/runtime.py:130-141 | raises CommandReply's error and changes nothing, or stores its payload under its id (setting a registered gate) and changes only that id's entries |
| `Session.OnMessage` | scripts/runtime.py:143-160 | keeps the dispatch invariant; an attach event sets attach-ready and takes params.sessionId; nothing else sets attach-ready or changes the session id; a load event sets loaded |
| `Session.EventsApplied` | scripts/runtime.py:149-154 | the event checks set attach-ready exactly for an attach event and loaded exactly for a load event, take the session id from an attach event and otherwise keep it, and leave both tables, the page and the outbox unchanged |
| `SessionProperties.OnMessageOutcome` | scripts/runtime.py:143-160 | on_message raises the attach event's lookup error, else attach_new_frame's error when the text names "frameId", else handle_commands' error when it is reached, and otherwise passes |
| `SessionProperties.OnMessageLoaded` | scripts/runtime.py:120-157 | after one message, loaded is set exactly when it was set before, the message is a load event, or a frame was attached |
| `SessionProperties.OnMessageOutbox` | scripts/runtime.py:156-157 | one message appends exactly one attach request, for its result's frameId, when a frame is attached, and nothing otherwise |
| `SessionProperties.OnMessageKeepsTables` | scripts/runtime.py:156-160 | unless a frame is attached or handle_commands stores a reply, neither table changes; so a text naming "method" but not "frameId" changes neither |
| `SessionProperties.OnMessageStoresFrame` | scripts/runtime.py:120-128 | when attach_new_frame stores and handle_commands is not reached, the tables hold the frame reply's result under its id, with a registered gate set |
| `SessionProperties.OnMessageStoresReply` | scripts/runtime.py:130-141 | whenever handle_commands stores, the tables end up holding its payload under its id, overwriting what attach_new_frame stored, with a registered gate set |
| `SessionProperties.FrameReplyPayload` | scripts/runtime.py:135-141 | a frame reply that also reaches handle_commands stores its result again, or Null when it has an "undefined" key |
| `SessionProperties.RunDispatched` | scripts/runtime.py:143-160 | across any sequence of messages, attach-ready and loaded are never cleared, no command gate is added, removed or unset, no result is dropped and the outbox only grows |
| `SessionProperties.RunAttachReady` | scripts/runtime.py:149-150 | after any sequence of messages, attach-ready is set exactly when it was set before or one of them was an attach event |
| `SessionProperties.RunLoaded` | scripts/runtime.py:120-157 | after any sequence of messages, loaded is set exactly when it was set before or one of them was a load event or attached a frame |
| `SessionProperties.RunSessionId` | scripts/runtime.py:149-151 | after any sequence of messages, the session id is the one named by the last attach event that named one |
| `SessionProperties.OnMessageTouchesOnlyItsId` | scripts/runtime.py:65-71 | a message changes the result and gate tables at most at its own id, and not at all when it has none |
| `SessionProperties.InsertThenRetrieve` | scripts/runtime.py:65-81 | for a registered id, retrieving after storing returns the stored payload, removes the entry and leaves the gate set |
| `SessionProperties.StrayReplyIsKept` | scripts/runtime.py:69-79 | a reply for an unregistered id is stored, no gate changes, and retrieving it times out |
| `SessionProperties.InitialAttachReplyIsKept` | scripts/runtime.py:55-57 | the reply to the start-up attach request stays in the results table, since its id has no gate |
| `SessionProperties.SentCommandCarriesIdAndSession` | scripts/runtime.py:108-115 | a successful send appends exactly one message, and that message carries the command's id and the current session id |
| `SessionProperties.OnlyNavigateBeforeLoad` | scripts/runtime.py:101-106 | before load, a command can be sent only when attached and only if its method is Page.navigate |
| `SessionProperties.ReplyRoundTrip` | scripts/runtime.py:108-118 | send, then dispatch an ordinary reply, then retrieve: the caller gets the reply's result, the entry is gone and the gate stays set |
| `SessionProperties.NavigateReplyRoundTrip` | scripts/runtime.py:120-141 | a navigation reply naming a frame sets loaded, sends one attach request for the frame, and the caller still gets its result |
| `SessionProperties.NavigateThenCommand` | scripts/runtime.py:101-128 | when attached but not loaded, navigation can be sent while other commands raise the load timeout; after the frame reply is dispatched they can be sent |
| `SessionProperties.MethodMentionIsDropped` | scripts/runtime.py:159-160 | a message that is neither event, has no "frameId" in its text and has "method" in it leaves the state unchanged |
| `SessionProperties.ReplyMentioningMethodIsLost` | scripts/runtime.py:156-160 | a reply with no method key whose text contains "method" and no "frameId" is dropped, and its waiting command times out |
| `SessionProperties.ReplyMentioningFrameIdIsLost` | scripts/runtime.py:156-157 | a reply whose text contains "frameId" but whose result lacks the key raises KeyError("frameId") and changes nothing, so its command times out |
| `SessionProperties.AttachWithoutSessionRaises` | scripts/runtime.py:149-151 | an attach event without params sets attach-ready, then raises KeyError("params") and changes nothing else |
| `SessionProperties.ReusedIdResetsGate` | scripts/runtime.py:108-111 | sending under the id of an answered command replaces its set gate with an unset one and keeps the old result, so a retrieve now times out |
| `DevTools.Runtime.constructor` | scripts/runtime.py:36-57 | the new object's fields are Session.Init's state |
| `DevTools.Runtime.InsertCommand` | scripts/runtime.py:65-71 | updates the fields as Session.InsertCommand does |
| `DevTools.Runtime.RetrieveCommandResults` | scripts/runtime.py:73-81 | updates the fields and returns as Session.RetrieveCommandResults does |
| `DevTools.Runtime.AttachToTarget` | scripts/runtime.py:83-95 | updates the fields as Session.AttachToTarget does |
| `DevTools.Runtime.SendCommand` | scripts/runtime.py:101-115 | updates the fields and returns as Session.SendCommand does |
| `DevTools.Runtime.ExecuteCommand` | scripts/runtime.py:97-118 | updates the fields and returns as Session.ExecuteCommand does |
| `DevTools.Runtime.AttachNewFrame` | scripts/runtime.py:120-128 | updates the fields and returns as Session.AttachNewFrame does |
| `DevTools.Runtime.HandleCommands` | scripts/runtime.py:130-141 | updates the fields and returns as Session.HandleCommands does |
| `DevTools.Runtime.OnMessage` | scripts/runtime.py:143-160 | updates the fields and returns as Session.OnMessage does |

## Left out

- The socket and its receive thread (`scripts/sockets.py`, `run_forever`) are not modelled: they are I/O and concurrency. The outbox stands for what `ws.send` writes, and `OnMessage` is the callback the thread invokes.
- Waits and their durations are not modelled: the 10-second connection and attach waits, the 30-second load wait and the 15-second result wait. Each wait is reduced to whether its gate is already set.
- Session.RetrieveCommandResults: it reads the gate table when the wait ends, while the source looks its Event object up once, when the wait begins (`scripts/runtime.py:77`). If another command reuses the id during the wait, the source replaces the gate (`scripts/runtime.py:111`), so the first waiter keeps waiting on the old Event and times out while the second takes the result. In the model the first retrieve succeeds instead once the reply is stored. Gate identity is not modelled, only whether the gate under an id is set.
- A reply that arrives during a wait is not pictured inside one call. The model interleaves instead: the send half, any number of `OnMessage` steps, then the retrieve half. Each `OnMessage` is one atomic step with respect to the retrieve. In the source, a waiting caller can wake after `attach_new_frame`'s store (`scripts/runtime.py:126`) and pop the result before `handle_commands` stores it again (`scripts/runtime.py:137`, reached through line 160), which leaves a stale entry that nobody pops. The model does not show that order.
- Closing the socket is not modelled. In the source it does not set any gate, so calls already waiting run into their own timeouts.
- The connection wait in `__init__` and its TimeoutError are not modelled: the constructor models the state after the socket has opened. `connection_ready` is set by the socket layer, which is not part of this model.
- `get_command_id`: the random draw is a parameter of each operation that needs an id, restricted to the range 1 to 1000000 (`Messages.IsCommandId`). Only the methods of `DevTools.Runtime` require that range; the `Session` functions and the lemmas accept any integer id.
- JSON encoding and decoding are not modelled. The raw text and the decoded keys of an inbound message are independent inputs. JSON numbers are integers, and a non-integer command id is not represented.
- A decoded message that is not an object is not modelled, since `response.get` would fail on it.
- Python's in-place update of the caller's `cdp_obj` dictionary is not modelled: `CommandRequest` builds the outgoing dictionary as a new value.
- An exception escaping `on_message` is passed to the socket library's error handling, which is not part of this model. The model returns it as `Fail`.
- SessionProperties.Run: it keeps dispatching after a message whose handler raised. In the source the exception goes to the socket's error callback (`scripts/sockets.py:33-37`), which raises it again as WebSocketError. That may end the receive loop, in library code this model does not include. `RunDispatched`, `RunAttachReady`, `RunLoaded` and `RunSessionId` therefore assume the loop survives a raised handler. Their monotonicity facts hold for every prefix of a run either way.
- `navium/browser.py`, `navium/install.py`, `scripts/_http.py`, `scripts/page.py` and `scripts/exceptions.py` are not part of this model. They cover process launch, download, HTTP discovery, and thin wrappers over `execute_command`.
