/**
 * The two listeners sharing one broker: the catcher's `GET /` handler
 * carried out against a `Hub` (server.js lines 9-50), and a client run that
 * strings the feeds operations together the way one process would.
 */
module Relay {
  import opened Sse
  import opened Intake
  import opened Broker

  /** The `/` handler: answer as `Handle` decides, and publish the event on
      its topic whenever the request is accepted, whether the redirect then
      succeeds or fails. A rejected request leaves the broker untouched: no
      topic is registered and nothing is written. */
  method Catch(hub: Hub, q: Query, meta: RequestMeta, encode: string -> string,
               stringify: Payload -> Json, failing: set<ConnId>) returns (o: Outcome)
    requires hub.Valid()
    modifies hub
    ensures hub.Valid()
    ensures o == Handle(q, meta, encode)
    ensures o.NoContent? ==>
      hub.subscribers == old(hub.subscribers) && hub.conns == old(hub.conns) && hub.log == old(hub.log)
    ensures !o.NoContent? ==>
      && hub.subscribers == old(hub.subscribers)[Sentinel := old(hub.Members(Sentinel))]
      && hub.conns == old(hub.conns)
      && hub.log == old(hub.log) + Deliveries(old(hub.Members(Sentinel)), Data(stringify(o.event.payload)), failing)
  {
    o := Handle(q, meta, encode);
    if !o.NoContent? {
      hub.Publish(o.event.topic, o.event.payload, stringify, failing);
    }
  }

  /** The log of the walkthrough below, seen from each feed. */
  lemma OneEventThenClose(a: ConnId, b: ConnId, j: Json)
    requires a != b
    ensures Inbox([Attempt(a, Data(j), true), Ended(a)], b) == []
    ensures Interpret(Stream(Inbox([Attempt(a, Data(j), true), Ended(a)], a))) == [j]
  {
    var first := [Attempt(a, Data(j), true)];
    var closed := first + [Ended(a)];
    assert closed[..|closed| - 1] == first && first[..|first| - 1] == [];
    assert Inbox(first, a) == [Data(j)] && Inbox(first, b) == [];
    assert Inbox(closed, a) == Inbox(first, a);
    assert Inbox(closed, b) == Inbox(first, b);
    InterpretStream([Data(j)]);
    assert Payloads([Data(j)]) == [j];
  }

  /** Two feeds on different topics and one accepted link with a
      concatenated `projectID`: only the feed on `initialSetup` is written
      to, once, with the repaired identifier in the event. */
  method Walkthrough(meta: RequestMeta, encode: string -> string, stringify: Payload -> Json)
  {
    var hub := new Hub();
    var a := hub.Subscribe(Sentinel);
    assert hub.Members(Sentinel) == [a];
    var b := hub.Subscribe("other");
    assert |"other"| != |Sentinel|;
    assert hub.Members(Sentinel) == [a];
    var q := Query(Missing, Str("8609960target=project"), Str(Sentinel));
    RepairExample();
    assert Handle(q, meta, encode).Redirect?;
    var o := Catch(hub, q, meta, encode, stringify, {});
    assert o.event.payload.projectID == Str("8609960");
    var j := stringify(o.event.payload);
    assert [a][..0] == [];
    assert Deliveries([a], Data(j), {}) == [Attempt(a, Data(j), true)];
    assert hub.log == [Attempt(a, Data(j), true)];
    assert a in hub.conns && !hub.conns[a].ended;
    DisconnectWalkthrough(hub, a, b, j);
  }

  /** The first feed then disconnects, its cleanup runs twice and its
      interval would fire once more: it has received the event exactly once,
      the other feed nothing, and no heartbeat follows the close. */
  method DisconnectWalkthrough(hub: Hub, a: ConnId, b: ConnId, j: Json)
    requires hub.Valid() && a in hub.conns && !hub.conns[a].ended && a != b
    requires hub.log == [Attempt(a, Data(j), true)]
    modifies hub
  {
    hub.Close(a);
    var closed := [Attempt(a, Data(j), true), Ended(a)];
    assert hub.log == closed && hub.conns[a].ended;
    hub.Close(a);
    hub.Tick(a, false);
    assert hub.log == closed;
    OneEventThenClose(a, b, j);
    assert Inbox(hub.log, b) == [];
    assert Interpret(Stream(Inbox(hub.log, a))) == [j];
  }
}
