/**
 * The in-memory publish/subscribe broker of the feeds listener (server.js
 * lines 56-96): the module-level `subscribers` map from action to a `Set` of
 * open responses, `getSubscribersSet`, `publishEvent`, the `/events/:action`
 * subscribe handler with its heartbeat timer, and the `close` cleanup.
 *
 * A JavaScript `Set` iterates in insertion order, so a topic's subscribers are
 * a duplicate-free sequence of connection ids. Every write is recorded in a
 * log together with whether it threw; which writes throw is chosen by the
 * caller (an oracle), since the socket is not part of the model.
 */
module Broker {
  import opened Sse

  /** Identifies one streaming response object. */
  type ConnId = nat

  /** The state of one subscriber connection: the topic it subscribed to,
      whether its heartbeat interval is still scheduled, and whether its
      response has been ended. */
  datatype Conn = Conn(topic: string, heartbeat: bool, ended: bool)

  /** One observable effect on a connection: a write of a message (with
      `ok` false when it threw and was swallowed), or ending the response. */
  datatype Entry = Attempt(conn: ConnId, msg: Message, ok: bool) | Ended(conn: ConnId)

  predicate NoDup(s: seq<ConnId>) {
    forall i, j :: 0 <= i < j < |s| ==> s[i] != s[j]
  }

  /** `Set.prototype.add`: a new member goes last, an existing one stays put. */
  function Add(s: seq<ConnId>, c: ConnId): (r: seq<ConnId>)
    ensures forall x :: x in r <==> x in s || x == c
    ensures NoDup(s) ==> NoDup(r)
    ensures |s| <= |r| <= |s| + 1 && r[..|s|] == s
  {
    if c in s then s else s + [c]
  }

  /** `Set.prototype.delete`: removes `c` if present, keeps the others in order. */
  function Delete(s: seq<ConnId>, c: ConnId): (r: seq<ConnId>)
    ensures forall x :: x in r <==> x in s && x != c
    ensures c !in s ==> r == s
    ensures NoDup(s) ==> NoDup(r)
    ensures NoDup(s) && c in s ==> |r| == |s| - 1
  {
    if s == [] then []
    else if s[0] == c then Delete(s[1..], c)
    else
      var r := Delete(s[1..], c);
      assert NoDup(s) ==> NoDup(s[1..]) && s[0] !in r by {
        if NoDup(s) {
          assert forall j :: 1 <= j < |s| ==> s[0] != s[j];
        }
      }
      assert forall i :: 1 <= i < |[s[0]] + r| ==> ([s[0]] + r)[i] == r[i - 1];
      [s[0]] + r
  }

  /** Deleting a member of a duplicate-free sequence cuts out exactly its
      position: the other members keep their order. */
  lemma {:induction false} DeleteAt(s: seq<ConnId>, i: nat, c: ConnId)
    requires NoDup(s) && i < |s| && s[i] == c
    ensures Delete(s, c) == s[..i] + s[i + 1..]
  {
    if i == 0 {
      assert c !in s[1..] by {
        assert forall j :: 1 <= j < |s| ==> s[j] != s[0];
      }
    } else {
      assert NoDup(s[1..]) && s[0] != c;
      DeleteAt(s[1..], i - 1, c);
      assert s[..i] == [s[0]] + s[1..][..i - 1];
      assert s[i + 1..] == s[1..][i..];
    }
  }

  /** The writes one `publishEvent` loop makes to `targets`, in iteration order. */
  function Deliveries(targets: seq<ConnId>, m: Message, failing: set<ConnId>): seq<Entry> {
    if targets == [] then []
    else
      var c := targets[|targets| - 1];
      Deliveries(targets[..|targets| - 1], m, failing) + [Attempt(c, m, c !in failing)]
  }

  /** The connections written to in a log, in order. */
  function Attempted(log: seq<Entry>): seq<ConnId> {
    if log == [] then []
    else
      var e := log[|log| - 1];
      Attempted(log[..|log| - 1]) + (if e.Attempt? then [e.conn] else [])
  }

  /** The messages a log tries to write to `c`. */
  function Sent(log: seq<Entry>, c: ConnId): seq<Message> {
    if log == [] then []
    else
      var e := log[|log| - 1];
      Sent(log[..|log| - 1], c) + (if e.Attempt? && e.conn == c then [e.msg] else [])
  }

  /** The messages a log writes to `c` without the write throwing. */
  function Inbox(log: seq<Entry>, c: ConnId): seq<Message> {
    if log == [] then []
    else
      var e := log[|log| - 1];
      Inbox(log[..|log| - 1], c) + (if e.Attempt? && e.conn == c && e.ok then [e.msg] else [])
  }

  /** No entry for a connection follows the entry that ends it: nothing is
      written to an ended response, and no response is ended twice. */
  predicate Orderly(log: seq<Entry>) {
    forall i, j :: 0 <= i < j < |log| && log[i].Ended? ==> log[j].conn != log[i].conn
  }

  lemma {:induction false} SentAppend(a: seq<Entry>, b: seq<Entry>, c: ConnId)
    ensures Sent(a + b, c) == Sent(a, c) + Sent(b, c)
    ensures Inbox(a + b, c) == Inbox(a, c) + Inbox(b, c)
  {
    if b != [] {
      assert (a + b)[..|a + b| - 1] == a + b[..|b| - 1];
      SentAppend(a, b[..|b| - 1], c);
    } else {
      assert a + b == a;
    }
  }

  /** Splitting a non-empty target list at its last member. */
  lemma DeliveriesSnoc(targets: seq<ConnId>, m: Message, failing: set<ConnId>)
    requires NoDup(targets) && targets != []
    ensures var init, last := targets[..|targets| - 1], targets[|targets| - 1];
      && NoDup(init) && last !in init
      && (forall x :: x in targets <==> x in init || x == last)
      && var d := Deliveries(targets, m, failing);
         d[..|d| - 1] == Deliveries(init, m, failing) && d[|d| - 1] == Attempt(last, m, last !in failing)
  {
  }

  /** One publish tries each subscriber of its topic exactly once, with the
      event's message, and nobody else; the subscriber receives it unless its
      write throws. */
  lemma {:induction false} DeliveriesReachEachOnce(targets: seq<ConnId>, m: Message, failing: set<ConnId>, c: ConnId)
    requires NoDup(targets)
    ensures Sent(Deliveries(targets, m, failing), c) == if c in targets then [m] else []
    ensures Inbox(Deliveries(targets, m, failing), c) == if c in targets && c !in failing then [m] else []
  {
    if targets != [] {
      DeliveriesSnoc(targets, m, failing);
      DeliveriesReachEachOnce(targets[..|targets| - 1], m, failing, c);
    }
  }

  /** A throwing write does not stop the loop: whatever fails, every target
      is written to, in iteration order. */
  lemma {:induction false} FailuresDoNotStopDelivery(targets: seq<ConnId>, m: Message, failing: set<ConnId>)
    ensures Attempted(Deliveries(targets, m, failing)) == targets
  {
    if targets != [] {
      var init := targets[..|targets| - 1];
      FailuresDoNotStopDelivery(init, m, failing);
      var d := Deliveries(targets, m, failing);
      assert d[..|d| - 1] == Deliveries(init, m, failing);
      assert targets == init + [targets[|targets| - 1]];
    }
  }

  /** What a subscriber's event stream yields after one more publish: the
      payload is dispatched once, in order after everything before, when the
      subscriber is a target whose write did not throw; otherwise nothing new. */
  lemma PublishIsSeenOnce(before: seq<Entry>, targets: seq<ConnId>, j: Json, failing: set<ConnId>, c: ConnId)
    requires NoDup(targets)
    ensures Interpret(Stream(Inbox(before + Deliveries(targets, Data(j), failing), c)))
      == Interpret(Stream(Inbox(before, c))) + (if c in targets && c !in failing then [j] else [])
  {
    var d := Deliveries(targets, Data(j), failing);
    SentAppend(before, d, c);
    DeliveriesReachEachOnce(targets, Data(j), failing, c);
    InterpretStream(Inbox(before + d, c));
    InterpretStream(Inbox(before, c));
    PayloadsAppend(Inbox(before, c), Inbox(d, c));
    assert Payloads([Data(j)]) == [j];
  }

  /** A topic's set holds exactly its open connections, once each; every
      known connection has a fresh-at-creation id below `next`, a registered
      topic, and a heartbeat scheduled exactly while it is open. */
  ghost predicate RegistryOk(subs: map<string, seq<ConnId>>, conns: map<ConnId, Conn>, next: ConnId) {
    && (forall t :: t in subs ==> NoDup(subs[t]))
    && (forall t, c :: t in subs && c in subs[t] ==> c in conns && conns[c].topic == t)
    && (forall c :: c in conns ==>
          && c < next
          && conns[c].topic in subs
          && (c in subs[conns[c].topic] <==> !conns[c].ended)
          && conns[c].heartbeat == !conns[c].ended)
  }

  /** The log mentions only known connections, ends only connections that
      are ended, and never touches a connection after ending it. */
  ghost predicate LogOk(log: seq<Entry>, conns: map<ConnId, Conn>) {
    && (forall i :: 0 <= i < |log| ==> log[i].conn in conns)
    && (forall i :: 0 <= i < |log| && log[i].Ended? ==> log[i].conn in conns && conns[log[i].conn].ended)
    && Orderly(log)
  }

  ghost predicate Inv(subs: map<string, seq<ConnId>>, conns: map<ConnId, Conn>, log: seq<Entry>, next: ConnId) {
    RegistryOk(subs, conns, next) && LogOk(log, conns)
  }

  /** `c` is in no topic's set. */
  ghost predicate Unsubscribed(subs: map<string, seq<ConnId>>, c: ConnId) {
    forall u :: u in subs ==> c !in subs[u]
  }

  /** Writing to an open connection keeps the log orderly. */
  lemma WriteKeepsLogOk(log: seq<Entry>, conns: map<ConnId, Conn>, c: ConnId, m: Message, ok: bool)
    requires LogOk(log, conns) && c in conns && !conns[c].ended
    ensures LogOk(log + [Attempt(c, m, ok)], conns)
  {
  }

  /** Registering an empty set for a new topic keeps the registry invariant. */
  lemma RegisterKeepsRegistryOk(subs: map<string, seq<ConnId>>, conns: map<ConnId, Conn>, next: ConnId, t: string)
    requires RegistryOk(subs, conns, next) && t !in subs
    ensures RegistryOk(subs[t := []], conns, next)
  {
  }

  /** A fresh connection joins the end of its topic's set with its heartbeat
      running, and every invariant still holds. */
  lemma SubscribeKeepsInv(subs: map<string, seq<ConnId>>, conns: map<ConnId, Conn>, log: seq<Entry>, next: ConnId, t: string)
    requires Inv(subs, conns, log, next) && t in subs
    ensures next !in conns && next !in subs[t] && Add(subs[t], next) == subs[t] + [next]
    ensures Inv(subs[t := subs[t] + [next]], conns[next := Conn(t, true, false)], log, next + 1)
  {
  }

  /** Closing takes the connection out of every set, stops its heartbeat
      and marks it ended, keeping the registry invariant. */
  lemma CloseKeepsRegistryOk(subs: map<string, seq<ConnId>>, conns: map<ConnId, Conn>, next: ConnId, c: ConnId)
    requires RegistryOk(subs, conns, next) && c in conns
    ensures var t := conns[c].topic;
      && RegistryOk(subs[t := Delete(subs[t], c)], conns[c := Conn(t, false, true)], next)
      && Unsubscribed(subs[t := Delete(subs[t], c)], c)
  {
  }

  /** Ending a connection that is not yet ended keeps the log orderly. */
  lemma EndKeepsLogOk(log: seq<Entry>, conns: map<ConnId, Conn>, c: ConnId)
    requires LogOk(log, conns) && c in conns && !conns[c].ended
    ensures LogOk(log + [Ended(c)], conns[c := conns[c].(heartbeat := false, ended := true)])
  {
  }

  /** Marking an already ended connection ended again keeps the log invariant. */
  lemma ReEndKeepsLogOk(log: seq<Entry>, conns: map<ConnId, Conn>, c: ConnId)
    requires LogOk(log, conns) && c in conns && conns[c].ended
    ensures LogOk(log, conns[c := conns[c].(heartbeat := false, ended := true)])
  {
  }

  /** Closing keeps every invariant: the connection leaves its set, its
      heartbeat stops, and it is ended in the log at most once. */
  lemma CloseKeepsInv(subs: map<string, seq<ConnId>>, conns: map<ConnId, Conn>, log: seq<Entry>, next: ConnId, c: ConnId)
    requires Inv(subs, conns, log, next) && c in conns
    ensures var t := conns[c].topic;
      && Inv(subs[t := Delete(subs[t], c)], conns[c := Conn(t, false, true)],
             if conns[c].ended then log else log + [Ended(c)], next)
      && Unsubscribed(subs[t := Delete(subs[t], c)], c)
  {
    var t := conns[c].topic;
    CloseKeepsRegistryOk(subs, conns, next, c);
    assert conns[c].(heartbeat := false, ended := true) == Conn(t, false, true);
    if conns[c].ended {
      ReEndKeepsLogOk(log, conns, c);
    } else {
      EndKeepsLogOk(log, conns, c);
    }
  }

  /** Closing an already closed connection changes nothing. */
  lemma CloseClosedIsNoOp(subs: map<string, seq<ConnId>>, conns: map<ConnId, Conn>, log: seq<Entry>, next: ConnId, c: ConnId)
    requires Inv(subs, conns, log, next) && c in conns && conns[c].ended
    ensures var t := conns[c].topic;
      subs[t := Delete(subs[t], c)] == subs && conns[c := Conn(t, false, true)] == conns
  {
  }

  /** The broker: the registry, the state of every connection it has seen,
      the log of writes and ends, and the next fresh connection id. */
  class Hub {
    var subscribers: map<string, seq<ConnId>>
    var conns: map<ConnId, Conn>
    var log: seq<Entry>
    var next: ConnId

    ghost predicate Valid()
      reads this
    {
      Inv(subscribers, conns, log, next)
    }

    /** The members of `topic`'s set, empty for a topic not yet registered. */
    function Members(topic: string): seq<ConnId>
      reads this
    {
      if topic in subscribers then subscribers[topic] else []
    }

    /** The process starts with an empty registry (server.js line 57). */
    constructor ()
      ensures Valid()
      ensures subscribers == map[] && conns == map[] && log == [] && next == 0
    {
      subscribers := map[];
      conns := map[];
      log := [];
      next := 0;
    }

    /** `getSubscribersSet`: registers an empty set for a new topic and
        returns the topic's set; nothing else changes. */
    method SubscribersOf(action: string) returns (s: seq<ConnId>)
      requires Valid()
      modifies this
      ensures Valid()
      ensures s == old(Members(action))
      ensures old(action in subscribers) ==> subscribers == old(subscribers)
      ensures subscribers == old(subscribers)[action := s]
      ensures conns == old(conns) && log == old(log) && next == old(next)
    {
      if action !in subscribers {
        RegisterKeepsRegistryOk(subscribers, conns, next, action);
        subscribers := subscribers[action := []];
      }
      s := subscribers[action];
    }

    /** `publishEvent`: one write of the event frame to each member of the
        topic's set in insertion order, a throwing write swallowed; no
        connection state changes. */
    method Publish<P>(action: string, payload: P, stringify: P -> Json, failing: set<ConnId>)
      requires Valid()
      modifies this
      ensures Valid()
      ensures subscribers == old(subscribers)[action := old(Members(action))]
      ensures conns == old(conns) && next == old(next)
      ensures log == old(log) + Deliveries(old(Members(action)), Data(stringify(payload)), failing)
      ensures old(Members(action)) == [] ==> log == old(log)
      ensures forall c :: c in conns ==>
        Sent(log[|old(log)|..], c) ==
          if conns[c].topic == action && !conns[c].ended then [Data(stringify(payload))] else []
    {
      var members := SubscribersOf(action);
      var m := Data(stringify(payload));
      var i := 0;
      while i < |members|
        invariant 0 <= i <= |members|
        invariant Valid()
        invariant subscribers == old(subscribers)[action := members]
        invariant conns == old(conns) && next == old(next)
        invariant log == old(log) + Deliveries(members[..i], m, failing)
      {
        var c := members[i];
        assert members[..i + 1][..i] == members[..i];
        assert c in subscribers[action];
        WriteKeepsLogOk(log, conns, c, m, c !in failing);
        log := log + [Attempt(c, m, c !in failing)];
        i := i + 1;
      }
      assert members[..i] == members;
      forall c | c in conns
        ensures Sent(log[|old(log)|..], c) ==
          if conns[c].topic == action && !conns[c].ended then [m] else []
      {
        assert log[|old(log)|..] == Deliveries(members, m, failing);
        DeliveriesReachEachOnce(members, m, failing, c);
      }
    }

    /** The `/events/:action` handler: a fresh connection joins the topic's
        set and its heartbeat starts; other topics are untouched. */
    method Subscribe(action: string) returns (c: ConnId)
      requires Valid()
      modifies this
      ensures Valid()
      ensures c !in old(conns)
      ensures conns == old(conns)[c := Conn(action, true, false)]
      ensures subscribers == old(subscribers)[action := old(Members(action)) + [c]]
      ensures log == old(log)
    {
      var members := SubscribersOf(action);
      SubscribeKeepsInv(subscribers, conns, log, next, action);
      c := next;
      next := next + 1;
      subscribers := subscribers[action := Add(members, c)];
      conns := conns[c := Conn(action, true, false)];
    }

    /** One firing of `c`'s heartbeat interval: writes the comment frame while
        the interval is scheduled; a cleared interval never fires again. */
    method Tick(c: ConnId, fails: bool)
      requires Valid() && c in conns
      modifies this
      ensures Valid()
      ensures subscribers == old(subscribers) && conns == old(conns) && next == old(next)
      ensures log == if old(conns[c].heartbeat) then old(log) + [Attempt(c, Ping, !fails)] else old(log)
      ensures old(conns[c].ended) ==> log == old(log)
    {
      if conns[c].heartbeat {
        WriteKeepsLogOk(log, conns, c, Ping, !fails);
        log := log + [Attempt(c, Ping, !fails)];
      }
    }

    /** The `close` callback: clear the heartbeat, delete `c` from its
        topic's set, end the response. Running it on a closed connection
        changes nothing. */
    method Close(c: ConnId)
      requires Valid() && c in conns
      modifies this
      ensures Valid()
      ensures conns == old(conns)[c := Conn(old(conns[c].topic), false, true)]
      ensures subscribers == old(subscribers)[old(conns[c].topic) := Delete(old(subscribers[conns[c].topic]), c)]
      ensures forall t :: c !in Members(t)
      ensures log == if old(conns[c].ended) then old(log) else old(log) + [Ended(c)]
      ensures next == old(next)
      ensures old(conns[c].ended) ==> subscribers == old(subscribers) && conns == old(conns) && log == old(log)
    {
      CloseKeepsInv(subscribers, conns, log, next, c);
      if conns[c].ended {
        CloseClosedIsNoOp(subscribers, conns, log, next, c);
      }
      // stop the heartbeat
      var conn := conns[c].(heartbeat := false);
      // leave the topic's set
      subscribers := subscribers[conn.topic := Delete(subscribers[conn.topic], c)];
      // end the response, which happens once: a second end does nothing
      if !conn.ended {
        log := log + [Ended(c)];
      }
      conns := conns[c := conn.(ended := true)];
    }
  }
}
