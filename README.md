# FVButtonRelay: a verified model of the link catcher and its event relay

FVButtonRelay is a small Express server (`server.js`). Its catcher listener
takes `GET /?orgID=…&projectID=…&action=…`, repairs a `projectID` into which
`target=` was concatenated, and acts only on `action=initialSetup`. Acting
means two things. It publishes an event on the topic named by the action. It
then redirects to the project's activity page on `bls.filevineapp.com`.
Every other request gets a quiet 204.

Its feeds listener serves `GET /events/:action` as a server-sent-event
stream. A module-level map from action to a `Set` of open responses
registers each stream. `publishEvent` writes one `data: <json>` frame to
every member of the topic's set and swallows write errors. A 25-second
interval writes a `: ping` comment frame. The `close` callback clears the
interval, deletes the response from its set and ends it.

The model has five modules:

- `Sse` (sse.dfy) holds the two frames the relay writes. It also holds the
  receiving side's interpretation of an event stream, from section 9.2.6 of
  the WHATWG HTML Living Standard, restricted to the `data` field. The
  round trip `InterpretStream` says that a subscriber reading the frames it
  was sent dispatches exactly the published payloads, in order. Heartbeats
  dispatch nothing.
- `Intake` (intake.dfy) is the `/` handler as pure functions: the query
  values as Express parses them, the repair, the acceptance guard, the
  redirect location and the combined `Handle`.
- `Broker` (broker.dfy) is the pub/sub core. The class `Hub` holds the
  registry (`subscribers`), the state of every connection (`conns`: topic,
  heartbeat scheduled, response ended), a log of every write and every end,
  and the next fresh connection id. Its methods are `getSubscribersSet`,
  `publishEvent`, the subscribe handler, one heartbeat firing and the close
  callback. The class invariant (`Inv`) says four things:
  - a topic's set holds exactly its open connections, once each;
  - a heartbeat is scheduled exactly while its connection is open;
  - nothing is written to a response after it is ended;
  - no response is ended twice.
- `Relay` (relay.dfy) carries out the `/` handler against a `Hub`. It also
  has a walkthrough: two feeds, one accepted link, then a double close and
  a late heartbeat.
- `Wrappers` (wrappers.dfy) is `Option`.

A JavaScript `Set` iterates in insertion order. A topic's set is therefore
a duplicate-free `seq` of connection ids: `Add` appends a new member and
`Delete` removes one. Which writes throw is an oracle supplied by the
caller: a set of failing connections for a publish, a flag for a heartbeat.
`JSON.stringify` and `encodeURIComponent` are function parameters.
`JSON.stringify`'s output is the subtype `Json`, a string with no raw CR or
LF, because the function escapes control characters. The client address,
the User-Agent header and the clock reading are plain inputs
(`RequestMeta`).

Behaviour taken from the code:
- A failed write does not close the connection or remove it from its set.
  The code only swallows the exception (server.js:68, server.js:88). Only
  the response's `close` event cleans up.
- Only a string `projectID` is repaired. An array or object value (a
  repeated key or bracket syntax) passes the `!projectID` guard, because
  arrays and objects are truthy. Its redirect then uses `String(projectID)`.
- A `projectID` that starts with `target=` is repaired to the empty string
  and gets a 204.
- An object `projectID` that owns a `toString` key, as in
  `?projectID[toString]=x&action=initialSetup`, is accepted and its event
  is published (server.js:34-41). Then `String(projectID)` at server.js:45
  throws a TypeError: the own `toString` is a string, not a function, and
  `valueOf` returns the object. Express answers 500 instead of redirecting.
  `Outcome` has a `ServerError` case for this.

## Model

| member | source | states |
|---|---|---|
| `Sse.DataFrameDispatches` | server.js:66 | The event frame of `Sse.Frame` (`data: <json>` followed by a blank line) makes the receiving peer dispatch exactly `<json>`, whatever follows it |
| `Sse.PingFrameIsSilent` | server.js:87-89 | The heartbeat frame of `Sse.Frame` (the comment line `: ping` plus a blank line) makes a receiving peer dispatch nothing |
| `Sse.InterpretStream` | server.js:64-70 | For any sequence of frames written to one peer, the stream dispatches exactly the payloads of the data frames, in order, and none for heartbeats |
| `Intake.IndexOf` | server.js:13-14 | Returns the first position where the pattern occurs (no earlier one exists), or None when it occurs nowhere: the semantics of `includes` and of `split`'s first piece |
| `Intake.Repair` | server.js:12-16 | For a string containing `target=`, the result is the prefix before its first occurrence. Any other value (a string without the marker, an array, an object, an absent value) comes back unchanged |
| `Intake.RepairRemovesMarker` | server.js:13-15 | A repaired string contains no `target=` |
| `Intake.RepairIdempotent` | server.js:13-15 | Repairing an already repaired value changes nothing |
| `Intake.RepairExample` | server.js:12 | `8609960target=project` is repaired to `8609960` |
| `Intake.JsString` | server.js:45 | `String(projectID)` throws exactly for an object that owns a `toString` key. A string converts to itself, and any other object to `[object Object]` |
| `Intake.Handle` | server.js:10-49 | An event is published if and only if the repaired `projectID` is truthy and `action` is exactly the string `initialSetup` (the guard `Intake.Accepts`). The event goes to topic `initialSetup`. Its payload is `orgID`, the repaired `projectID`, the action, the client address, the User-Agent and the receipt time. The outcome is then a 500 exactly when the repaired `projectID` is an object owning `toString`. Otherwise it is a redirect to the fixed prefix, the encoded `String(projectID)`, then `/activity` (`Intake.RedirectUrl`) |
| `Intake.OwnToStringFailsAfterPublish` | server.js:34-46 | `projectID[toString]=x&action=initialSetup` publishes its event and then ends in a 500, not a redirect |
| `Intake.NoContentUnlessAccepted` | server.js:19-21 | A missing or empty `projectID`, one starting with `target=`, or any other action yields 204, with no event to publish |
| `Intake.AcceptExample` | server.js:34-49 | `projectID=42&action=initialSetup` redirects to `https://bls.filevineapp.com/#/project/42/activity` and publishes on `initialSetup` a payload with `projectID` "42" |
| `Intake.RedirectIdentifiesProject` | server.js:44-46 | With an injective encoding, two equal locations built by `Intake.RedirectUrl` come from equal `String(projectID)` values |
| `Broker.Add` | server.js:84 | `Set.add` keeps the existing members in place, adds the new one last and keeps members unique |
| `Broker.Delete` | server.js:93 | `Set.delete` removes exactly the given member and keeps members unique. Deleting an absent member changes nothing |
| `Broker.DeleteAt` | server.js:93 | Deleting a present member cuts out exactly its position, so the other members keep their order |
| `Broker.DeliveriesReachEachOnce` | server.js:65-69 | The writes of one publish loop (`Broker.Deliveries`) try each member of the topic's set exactly once with the event's message, and never try any other connection. A member receives the message unless its write throws |
| `Broker.FailuresDoNotStopDelivery` | server.js:67-69 | Whichever writes throw, the publish loop writes to every member, in iteration order |
| `Broker.PublishIsSeenOnce` | server.js:64-70 | After a publish, a subscriber's stream dispatches exactly what it dispatched before plus the payload once, if it is a member whose write succeeded, and nothing new otherwise |
| `Broker.WriteKeepsLogOk` | server.js:67-69 | A write to an open connection keeps the log free of writes after an end |
| `Broker.SubscribeKeepsInv` | server.js:83-89 | A fresh connection is not yet in any set. Adding it last to its topic's set with its heartbeat running keeps the invariant |
| `Broker.CloseKeepsRegistryOk` | server.js:91-93 | Clearing the heartbeat and deleting the connection from its topic's set keeps the registry invariant. Afterwards the connection is in no topic's set |
| `Broker.EndKeepsLogOk` | server.js:94 | Ending a response that is not yet ended keeps the log invariant |
| `Broker.CloseKeepsInv` | server.js:91-95 | The close callback keeps the whole invariant, ends the response at most once, and leaves the connection in no set |
| `Broker.CloseClosedIsNoOp` | server.js:91-95 | Running the cleanup on an already closed connection leaves the registry and the connection states unchanged |
| `Broker.Hub.constructor` | server.js:57 | The registry starts empty, with no connections and nothing written |
| `Broker.Hub.SubscribersOf` | server.js:59-62 | Returns the topic's existing set unchanged, or registers and returns an empty one. No other topic, connection or write changes |
| `Broker.Hub.Publish` | server.js:64-70 | Registers the topic if it is new and appends one write per member, in order, with the event frame. With no members nothing is written. An open subscriber of the topic gets exactly one write, every other connection none, and no connection state changes |
| `Broker.Hub.Subscribe` | server.js:73-90 | A fresh connection is appended to its action's set with its heartbeat running. Every other topic's set is unchanged and nothing is written |
| `Broker.Hub.Tick` | server.js:87-89 | A heartbeat firing writes `: ping` only while the interval is scheduled. After close it writes nothing |
| `Broker.Hub.Close` | server.js:91-95 | Stops the heartbeat, removes the connection from its set (it is then in no set) and ends it once. A second run changes nothing |
| `Relay.Catch` | server.js:9-50 | The outcome is `Handle`'s. A 204 leaves the broker untouched (no topic registered, nothing written). A redirect, and equally a 500 after the publish, publishes exactly once, on `initialSetup` |

## Left out

- Express setup, `trust proxy`, the SSE response headers and `flushHeaders`, the `/health` endpoints and `listen` with its port defaults (server.js:1-6, 53-54, 77-80, 98-107). These are HTTP plumbing with no decision in them.
- `console.log` calls (server.js:24-31, 102, 106). These are logging only.
- `new Date().toISOString()`, `req.ip` and the User-Agent header. These are inputs to the model (`RequestMeta`), not computed.
- `JSON.stringify` and `encodeURIComponent`. These are library functions and enter as parameters. The model assumes only that the JSON text holds no raw line break.
- The 25-second period of the heartbeat. The model has only whether the interval is scheduled, and `Tick` is one firing.
- The socket write itself. Whether a write throws is an oracle; a write that throws is logged with `ok` false and nothing else happens.
- The order of the response's `close` event relative to other handlers. Each handler runs to completion on one thread, so the model's methods are atomic.
- `encodeURIComponent` throws a URIError on a lone surrogate. Dafny's `char` is a Unicode scalar value, so such a string is not representable, and `encode` is total.
- Query values nested deeper than one level of `[]`/object syntax. `Param` has strings, arrays of strings and flat objects.
- Sse.Run: the byte-order mark, the `event`, `id` and `retry` fields, and chunked delivery are not interpreted. The relay never writes them, and the model reads whole streams.
