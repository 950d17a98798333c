/** The canonical event envelope (`type`, `source`, `ts`, `data`): its checked
    constructor and the two forms it is persisted in. */
module Events {
  import opened Wrappers
  import opened Json

  datatype MemoryEvent = MemoryEvent(eventType: string, source: string, data: Object, ts: string)

  /** `make_event(type=..., source=..., data=..., ts=...)`, where `now` is the
      ISO-8601 clock reading used when `ts` is None or empty. The arguments
      are JSON values so that non-string and non-dict inputs can be given. */
  function MakeEvent(eventType: Json, source: Json, data: Json, ts: Option<string>, now: string): (r: Result<MemoryEvent, Exception>)
    ensures r.Ok? <==> (eventType.JString? && eventType.s != "" && source.JString? && source.s != "" && data.JObject?)
    ensures !(eventType.JString? && eventType.s != "") ==>
      r == Err(Exception("ValueError", "type must be a non-empty string"))
    ensures eventType.JString? && eventType.s != "" && !(source.JString? && source.s != "") ==>
      r == Err(Exception("ValueError", "source must be a non-empty string"))
    ensures eventType.JString? && eventType.s != "" && source.JString? && source.s != "" && !data.JObject? ==>
      r == Err(Exception("ValueError", "data must be a dict"))
    ensures r.Ok? ==> r.value.eventType == eventType.s && r.value.source == source.s && r.value.data == data.fields
    ensures r.Ok? ==> (ts.Some? && ts.value != "" ==> r.value.ts == ts.value)
    ensures r.Ok? ==> (ts.None? || ts.value == "" ==> r.value.ts == now)
  {
    if !eventType.JString? || eventType.s == "" then Err(Exception("ValueError", "type must be a non-empty string"))
    else if !source.JString? || source.s == "" then Err(Exception("ValueError", "source must be a non-empty string"))
    else if !data.JObject? then Err(Exception("ValueError", "data must be a dict"))
    else
      var stamp := if ts.Some? && ts.value != "" then ts.value else now;
      Ok(MemoryEvent(eventType.s, source.s, data.fields, stamp))
  }

  /** An event `make_event` produced passes its checks again unchanged: fed
      back its own type, source, data and stamp, it rebuilds the same event. */
  lemma MakeEventRevalidates(eventType: Json, source: Json, data: Json, ts: Option<string>, now: string)
    requires MakeEvent(eventType, source, data, ts, now).Ok?
    ensures var e := MakeEvent(eventType, source, data, ts, now).value;
      MakeEvent(JString(e.eventType), JString(e.source), JObject(e.data), Some(e.ts), now) == Ok(e)
  {
  }

  /** `event_to_tool_result(e)`: the structured envelope stored as JSONB. */
  function EventToToolResult(e: MemoryEvent): (r: Object)
    ensures r.Keys == {"type", "source", "ts", "data"}
  {
    map["type" := JString(e.eventType), "source" := JString(e.source), "ts" := JString(e.ts), "data" := JObject(e.data)]
  }

  /** Reads an envelope back out of its structured form. */
  function ToolResultToEvent(o: Object): Option<MemoryEvent> {
    if "type" in o && "source" in o && "ts" in o && "data" in o
       && o["type"].JString? && o["source"].JString? && o["ts"].JString? && o["data"].JObject?
    then Some(MemoryEvent(o["type"].s, o["source"].s, o["data"].fields, o["ts"].s))
    else None
  }

  /** The structured envelope holds each field unchanged: reading it back
      recovers the event. */
  lemma ToolResultRoundTrip(e: MemoryEvent)
    ensures ToolResultToEvent(EventToToolResult(e)) == Some(e)
  {
  }

  /** The marker that opens every event's content string. */
  const EventPrefix: string := "EVENT:"

  /** `event_to_content(e)`, where `dumps` stands for the compact, key-sorted
      `json.dumps` of the envelope. */
  function EventToContent(e: MemoryEvent, dumps: Json -> string): (r: string)
    ensures |r| >= 6 && r[..6] == EventPrefix
    ensures r[6..] == dumps(JObject(EventToToolResult(e)))
  {
    EventPrefix + dumps(JObject(EventToToolResult(e)))
  }

  /** SQL `substring(s from pos)` with 1-based `pos >= 1`. */
  function SqlSubstringFrom(s: string, pos: nat): (r: string)
    requires pos >= 1
    ensures pos - 1 <= |s| ==> |r| == |s| - (pos - 1) && forall i :: 0 <= i < |r| ==> r[i] == s[pos - 1 + i]
    ensures pos - 1 > |s| ==> r == ""
  {
    if pos - 1 <= |s| then s[pos - 1..] else ""
  }

  /** SQL `s LIKE 'EVENT:%'`. */
  predicate SqlLikeEventPrefix(s: string) {
    |s| >= |EventPrefix| && s[..|EventPrefix|] == EventPrefix
  }

  /** Every event content matches the trace query's `LIKE 'EVENT:%'`, and its
      `substring(content from 7)` is exactly the JSON payload. */
  lemma ContentPayloadRecovered(e: MemoryEvent, dumps: Json -> string)
    ensures SqlLikeEventPrefix(EventToContent(e, dumps))
    ensures SqlSubstringFrom(EventToContent(e, dumps), 7) == dumps(JObject(EventToToolResult(e)))
  {
    var c := EventToContent(e, dumps);
    assert SqlSubstringFrom(c, 7) == c[6..];
  }
}
