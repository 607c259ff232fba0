/**
 * The catcher's `GET /` handler (server.js lines 9-50) as pure functions:
 * the query values as Express hands them over, the repair of a `projectID`
 * into which `target=` was concatenated, the decision to act, and the redirect
 * location. `Handle` combines them into the handler's outcome; the publish it
 * asks for is carried out by `Relay.Catch`.
 */
module Intake {
  import opened Wrappers

  /** A query-string value as parsed by Express: absent, a string, an array
      (the key repeated) or an object (bracket syntax, `projectID[k]=v`).
      The extended parser keeps keys named like `Object.prototype` members,
      so an object may own a `toString` that is a plain string. */
  datatype Param = Missing | Str(s: string) | List(items: seq<string>) | Obj(fields: map<string, string>)

  /** The facts about the request that the handler reads besides the query:
      the forwarded client address, the User-Agent header and the clock. */
  datatype RequestMeta = RequestMeta(ip: string, userAgent: Option<string>, now: string)

  datatype Query = Query(orgID: Param, projectID: Param, action: Param)

  /** The object handed to `publishEvent` (server.js lines 34-41). */
  datatype Payload = Payload(
    orgID: Param, projectID: Param, action: string,
    fromIp: string, userAgent: Option<string>, receivedAt: string)

  datatype Event = Event(topic: string, payload: Payload)

  /** 204 with an empty body; a 302 to `location` after publishing `event`;
      or a 500 from Express's error handler when building the location threw
      after `event` was already published. */
  datatype Outcome = NoContent | Redirect(location: string, event: Event) | ServerError(event: Event)

  const Marker: string := "target="
  const Sentinel: string := "initialSetup"
  const UrlPrefix: string := "https://bls.filevineapp.com/#/project/"
  const UrlSuffix: string := "/activity"
  const ToStringKey: string := "toString"

  predicate OccursAt(s: string, pat: string, k: nat) {
    k + |pat| <= |s| && s[k..k + |pat|] == pat
  }

  /** The first position at or after `from` where `pat` occurs in `s`. */
  function IndexOf(s: string, pat: string, from: nat): (r: Option<nat>)
    requires from <= |s|
    ensures r.Some? ==> from <= r.value && OccursAt(s, pat, r.value)
    ensures r.Some? ==> forall k :: from <= k < r.value ==> !OccursAt(s, pat, k)
    ensures r.None? ==> forall k :: from <= k <= |s| ==> !OccursAt(s, pat, k)
    decreases |s| - from
  {
    if OccursAt(s, pat, from) then Some(from)
    else if from == |s| then None
    else IndexOf(s, pat, from + 1)
  }

  /** `String.prototype.includes`. */
  predicate Includes(s: string, pat: string) {
    IndexOf(s, pat, 0).Some?
  }

  /** The repair of server.js lines 13-16: a string containing `target=` is
      replaced by `split('target=')[0]`, the text before the first occurrence;
      anything else, including a non-string value, is left alone. */
  function Repair(p: Param): (r: Param)
    ensures !p.Str? ==> r == p
    ensures p.Str? && !Includes(p.s, Marker) ==> r == p
    ensures p.Str? && Includes(p.s, Marker) ==>
      && r.Str? && r.s <= p.s
      && OccursAt(p.s, Marker, |r.s|)
      && forall k :: 0 <= k < |r.s| ==> !OccursAt(p.s, Marker, k)
  {
    if p.Str? then
      match IndexOf(p.s, Marker, 0)
      case Some(k) => Str(p.s[..k])
      case None => p
    else p
  }

  /** JavaScript truthiness of a query value: `undefined` and the empty
      string are falsy, every array and object is truthy. */
  predicate Truthy(p: Param) {
    match p
    case Missing => false
    case Str(s) => s != []
    case List(_) => true
    case Obj(_) => true
  }

  /** The guard of server.js line 19, negated: act on the request. */
  predicate Accepts(projectID: Param, action: Param) {
    Truthy(projectID) && action == Str(Sentinel)
  }

  function Join(items: seq<string>, sep: string): string {
    if items == [] then []
    else if |items| == 1 then items[0]
    else items[0] + sep + Join(items[1..], sep)
  }

  /** `String(p)`, None when it throws a TypeError. Arrays join their
      elements with commas. An object converts through its `toString`, which
      gives `[object Object]` unless the object owns a `toString` key: that
      value is a string, not callable, so the conversion falls back to
      `valueOf`, which returns the object itself, and throws. */
  function JsString(p: Param): (r: Option<string>)
    ensures r.None? <==> p.Obj? && ToStringKey in p.fields
    ensures p.Str? ==> r == Some(p.s)
    ensures p.Obj? && r.Some? ==> r.value == "[object Object]"
  {
    match p
    case Missing => Some("undefined")
    case Str(s) => Some(s)
    case List(items) => Some(Join(items, ","))
    case Obj(fields) => if ToStringKey in fields then None else Some("[object Object]")
  }

  /** The location of server.js lines 44-46, None when `String(projectID)`
      throws; `encode` is `encodeURIComponent`. */
  function RedirectUrl(projectID: Param, encode: string -> string): Option<string> {
    match JsString(projectID)
    case None => None
    case Some(id) => Some(UrlPrefix + encode(id) + UrlSuffix)
  }

  /** The whole `/` handler: repair, decide, and on acceptance the event to
      publish on topic `action`, then the redirect or, when the location
      cannot be built, the 500 that follows the publish. */
  function Handle(q: Query, meta: RequestMeta, encode: string -> string): (r: Outcome)
    ensures !r.NoContent? <==> Truthy(Repair(q.projectID)) && q.action == Str(Sentinel)
    ensures !r.NoContent? ==>
      r.event == Event(Sentinel, Payload(q.orgID, Repair(q.projectID), Sentinel, meta.ip, meta.userAgent, meta.now))
    ensures r.ServerError? <==> !r.NoContent? && Repair(q.projectID).Obj? && ToStringKey in Repair(q.projectID).fields
    ensures r.Redirect? ==>
      r.location == UrlPrefix + encode(JsString(Repair(q.projectID)).value) + UrlSuffix
  {
    var projectID := Repair(q.projectID);
    if !Accepts(projectID, q.action) then NoContent
    else
      var payload := Payload(q.orgID, projectID, Sentinel, meta.ip, meta.userAgent, meta.now);
      match RedirectUrl(projectID, encode)
      case None => ServerError(Event(Sentinel, payload))
      case Some(location) => Redirect(location, Event(Sentinel, payload))
  }

  /** The repaired string holds no `target=` anywhere. */
  lemma RepairRemovesMarker(p: Param)
    requires p.Str?
    ensures Repair(p).Str? && !Includes(Repair(p).s, Marker)
  {
    var r := Repair(p);
    if Includes(p.s, Marker) {
      forall k | 0 <= k <= |r.s| ensures !OccursAt(r.s, Marker, k) {
        if k + |Marker| <= |r.s| {
          assert r.s[k..k + |Marker|] == p.s[k..k + |Marker|];
          assert !OccursAt(p.s, Marker, k);
        }
      }
    }
  }

  /** Repairing twice is repairing once. */
  lemma RepairIdempotent(p: Param)
    ensures Repair(Repair(p)) == Repair(p)
  {
    if p.Str? {
      RepairRemovesMarker(p);
    }
  }

  /** The concatenated identifier of the handler's comment is cut to its digits. */
  lemma RepairExample()
    ensures Repair(Str("8609960target=project")) == Str("8609960")
  {
    var s := "8609960target=project";
    assert OccursAt(s, Marker, 7);
    forall k | 0 <= k < 7 ensures !OccursAt(s, Marker, k) {
      assert s[k + 7] != Marker[7 - 1] || s[k..k + 7] != Marker;
    }
  }

  /** Nothing is published and nobody is redirected unless the repaired
      `projectID` is truthy and the action is the sentinel; in particular a
      missing `projectID`, or one that repairs to the empty string, gets 204. */
  lemma NoContentUnlessAccepted(q: Query, meta: RequestMeta, encode: string -> string)
    requires q.projectID == Missing || q.projectID == Str([]) || q.action != Str(Sentinel)
      || (q.projectID.Str? && OccursAt(q.projectID.s, Marker, 0))
    ensures Handle(q, meta, encode) == NoContent
  {
  }

  /** A well-formed request for project 42 redirects to its activity page and
      publishes on `initialSetup` with `projectID` "42". */
  lemma AcceptExample(orgID: Param, meta: RequestMeta, encode: string -> string)
    requires encode("42") == "42"
    ensures Handle(Query(orgID, Str("42"), Str(Sentinel)), meta, encode)
      == Redirect("https://bls.filevineapp.com/#/project/42/activity",
                  Event(Sentinel, Payload(orgID, Str("42"), Sentinel, meta.ip, meta.userAgent, meta.now)))
  {
  }

  /** A `projectID` object owning a `toString` key is accepted and its event
      published, and then the handler fails with a 500 instead of
      redirecting. */
  lemma OwnToStringFailsAfterPublish(meta: RequestMeta, encode: string -> string)
    ensures Handle(Query(Missing, Obj(map[ToStringKey := "x"]), Str(Sentinel)), meta, encode)
      == ServerError(Event(Sentinel, Payload(Missing, Obj(map[ToStringKey := "x"]), Sentinel, meta.ip, meta.userAgent, meta.now)))
  {
  }

  /** The redirect names the project: with an injective encoding, equal
      locations come from equal `projectID` strings. */
  lemma RedirectIdentifiesProject(p1: Param, p2: Param, encode: string -> string)
    requires JsString(p1).Some? && JsString(p2).Some?
    requires encode(JsString(p1).value) == encode(JsString(p2).value) ==> JsString(p1) == JsString(p2)
    requires RedirectUrl(p1, encode) == RedirectUrl(p2, encode)
    ensures JsString(p1) == JsString(p2)
  {
    var u := RedirectUrl(p1, encode).value;
    var e1, e2 := encode(JsString(p1).value), encode(JsString(p2).value);
    assert |e1| == |e2|;
    assert e1 == u[|UrlPrefix|..|UrlPrefix| + |e1|];
    assert e2 == u[|UrlPrefix|..|UrlPrefix| + |e2|];
  }
}
