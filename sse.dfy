/**
 * The event-stream wire format that the feeds listener writes (server-sent
 * events, section 9.2 of the WHATWG HTML Living Standard): the two frames the
 * relay produces, and the standard's algorithm for interpreting a stream on the
 * receiving side, restricted to the `data` field. The round trip
 * `InterpretStream` says that a peer reading the concatenated frames sees
 * exactly the published payloads, in order, and never the heartbeats.
 */
module Sse {
  import opened Wrappers

  const CR: char := '\r'
  const LF: char := '\n'

  predicate IsBreak(ch: char) {
    ch == CR || ch == LF
  }

  predicate NoLineBreak(s: string) {
    forall i :: 0 <= i < |s| ==> !IsBreak(s[i])
  }

  /** Text as `JSON.stringify` produces it: control characters, CR and LF
      among them, are always escaped, so the text holds no raw line break. */
  type Json = s: string | NoLineBreak(s)

  /** What one write to a subscriber carries: an event, or the heartbeat. */
  datatype Message = Data(json: Json) | Ping

  /** The bytes written for a message: `data: <json>` and a blank line for an
      event (server.js line 66), the comment line `: ping` and a blank line for
      the heartbeat (server.js line 88). */
  function Frame(m: Message): string {
    match m
    case Data(j) => "data: " + j + "\n\n"
    case Ping => ": ping\n\n"
  }

  /** The stream a peer receives from a sequence of successful writes. */
  function Stream(ms: seq<Message>): string {
    if ms == [] then [] else Frame(ms[0]) + Stream(ms[1..])
  }

  /** The payloads among a sequence of writes, in order. */
  function Payloads(ms: seq<Message>): seq<string> {
    if ms == [] then []
    else (if ms[0].Data? then [ms[0].json] else []) + Payloads(ms[1..])
  }

  lemma {:induction false} PayloadsAppend(a: seq<Message>, b: seq<Message>)
    ensures Payloads(a + b) == Payloads(a) + Payloads(b)
  {
    if a == [] {
      assert a + b == b;
    } else {
      assert (a + b)[0] == a[0];
      assert (a + b)[1..] == a[1..] + b;
      PayloadsAppend(a[1..], b);
    }
  }

  /** Index of the first character of `s` that lies in `stop`. */
  function Find(s: string, stop: set<char>): (r: Option<nat>)
    ensures r.Some? ==> r.value < |s| && s[r.value] in stop
    ensures r.Some? ==> forall i :: 0 <= i < r.value ==> s[i] !in stop
    ensures r.None? ==> forall i :: 0 <= i < |s| ==> s[i] !in stop
  {
    if s == [] then None
    else if s[0] in stop then Some(0)
    else match Find(s[1..], stop)
      case None => None
      case Some(k) => Some(k + 1)
  }

  /** The first complete line of `s` and what follows its terminator, which is
      CRLF, a lone LF or a lone CR; None when no terminator is left (the
      standard discards a final incomplete line). */
  function NextLine(s: string): (r: Option<(string, string)>)
    ensures r.Some? ==> NoLineBreak(r.value.0) && |r.value.1| < |s|
    ensures r.None? ==> NoLineBreak(s)
  {
    match Find(s, {CR, LF})
    case None => None
    case Some(k) =>
      var n := if s[k] == CR && k + 1 < |s| && s[k + 1] == LF then 2 else 1;
      Some((s[..k], s[k + n..]))
  }

  /** A non-empty, non-comment line split into field name and value: the text
      before the first colon, and the text after it without one leading space;
      a line without a colon is a field name with an empty value. */
  function Field(line: string): (string, string) {
    match Find(line, {':'})
    case None => (line, "")
    case Some(k) =>
      var v := line[k + 1..];
      (line[..k], if v != [] && v[0] == ' ' then v[1..] else v)
  }

  /** The standard's line-by-line interpretation with `data` as the data
      buffer; returns the data of every dispatched event. A blank line
      dispatches (nothing when the buffer is empty), a line starting with a
      colon is a comment, a `data` field appends its value and a LF. Other
      fields (`event`, `id`, `retry`) are read and ignored here. */
  function Run(s: string, data: string): seq<string>
    decreases |s|
  {
    match NextLine(s)
    case None => []
    case Some((line, rest)) =>
      if line == [] then
        if data == [] then Run(rest, [])
        else
          var d := if data[|data| - 1] == LF then data[..|data| - 1] else data;
          [d] + Run(rest, [])
      else if line[0] == ':' then Run(rest, data)
      else
        var (name, value) := Field(line);
        if name == "data" then Run(rest, data + value + [LF]) else Run(rest, data)
  }

  /** The event data a receiving peer dispatches from a whole stream. */
  function Interpret(stream: string): seq<string> {
    Run(stream, [])
  }

  lemma {:induction false} FindAt(a: string, b: string, stop: set<char>)
    requires forall i :: 0 <= i < |a| ==> a[i] !in stop
    requires b != [] && b[0] in stop
    ensures Find(a + b, stop) == Some(|a|)
  {
    if a != [] {
      assert (a + b)[1..] == a[1..] + b;
      FindAt(a[1..], b, stop);
    }
  }

  /** A line ended by a lone LF is split off as it is. */
  lemma NextLineLf(line: string, rest: string)
    requires NoLineBreak(line)
    ensures NextLine(line + [LF] + rest) == Some((line, rest))
  {
    var s := line + [LF] + rest;
    assert s == line + ([LF] + rest);
    FindAt(line, [LF] + rest, {CR, LF});
    assert s[..|line|] == line;
    assert s[|line| + 1..] == rest;
  }

  /** The field of an event frame's first line is `data`, its value the payload. */
  lemma DataField(j: Json)
    ensures Field("data: " + j) == ("data", j)
  {
    var line := "data: " + j;
    assert line == "data" + ([':'] + (" " + j));
    FindAt("data", [':'] + (" " + j), {':'});
    assert line[..4] == "data";
    assert line[5..] == " " + j;
  }

  /** An event frame is its field line, a LF, and the blank line. */
  lemma DataFrameLines(j: Json, rest: string)
    ensures NoLineBreak("data: " + j)
    ensures Frame(Data(j)) + rest == ("data: " + j) + [LF] + ([LF] + rest)
  {
  }

  /** The field line of an event frame puts the payload and a LF in the
      data buffer. */
  lemma DataLineBuffers(j: Json, rest: string)
    ensures Run(("data: " + j) + [LF] + rest, []) == Run(rest, j + [LF])
  {
    var line := "data: " + j;
    assert NoLineBreak(line);
    NextLineLf(line, rest);
    DataField(j);
    assert line[0] == 'd';
    assert [] + j + [LF] == j + [LF];
  }

  /** A blank line dispatches the buffered payload without its final LF. */
  lemma BlankLineDispatches(j: Json, rest: string)
    ensures Run([LF] + rest, j + [LF]) == [j] + Run(rest, [])
  {
  }

  /** An event frame followed by anything dispatches exactly its payload. */
  lemma DataFrameDispatches(j: Json, rest: string)
    ensures Run(Frame(Data(j)) + rest, []) == [j] + Run(rest, [])
  {
    DataFrameLines(j, rest);
    DataLineBuffers(j, [LF] + rest);
    BlankLineDispatches(j, rest);
  }

  /** A comment line leaves the data buffer as it is. */
  lemma CommentLineSkipped(comment: string, rest: string, data: string)
    requires NoLineBreak(comment)
    ensures Run([':'] + comment + [LF] + rest, data) == Run(rest, data)
  {
    assert NoLineBreak([':'] + comment);
    NextLineLf([':'] + comment, rest);
  }

  /** A blank line with an empty data buffer dispatches nothing. */
  lemma BlankLineIdle(rest: string)
    ensures Run([LF] + rest, []) == Run(rest, [])
  {
  }

  /** A heartbeat frame followed by anything dispatches nothing of its own. */
  lemma PingFrameIsSilent(rest: string)
    ensures Run(Frame(Ping) + rest, []) == Run(rest, [])
  {
    assert Frame(Ping) + rest == [':'] + " ping" + [LF] + ([LF] + rest);
    CommentLineSkipped(" ping", [LF] + rest, []);
    BlankLineIdle(rest);
  }

  /** A peer that received the frames of `ms` dispatches exactly the payloads
      of `ms`, in order; heartbeats are invisible to it. */
  lemma {:induction false} InterpretStream(ms: seq<Message>)
    ensures Interpret(Stream(ms)) == Payloads(ms)
  {
    if ms != [] {
      InterpretStream(ms[1..]);
      match ms[0]
      case Data(j) => DataFrameDispatches(j, Stream(ms[1..]));
      case Ping => PingFrameIsSilent(Stream(ms[1..]));
    }
  }
}
