/** The memory writer: turning a worker's JSON content string into an event
    dict, and picking the `source` and `tool` columns it is recorded under. */
module Writer {
  import opened Wrappers
  import opened Json

  /** The envelope used for content that is not a JSON object. */
  function RawEnvelope(content: string): Object {
    map["type" := JString("raw.event"), "content" := JString(content)]
  }

  /** The event dict `write_memory_event` builds from `content`, given the
      outcome `parsed` of `json.loads(content)` (None when it raised). */
  function NormalizeEnvelope(content: string, parsed: Option<Json>, source: string): (r: Object)
    ensures (parsed.Some? && parsed.value.JObject?) ==>
      var ev := parsed.value.fields;
      && r.Keys == ev.Keys + {"source"}
      && (forall k :: k in ev ==> r[k] == ev[k])
      && ("source" !in ev ==> r["source"] == JString(source))
    ensures !(parsed.Some? && parsed.value.JObject?) ==>
      r == map["type" := JString("raw.event"), "content" := JString(content), "source" := JString(source)]
  {
    var event := if parsed.Some? && parsed.value.JObject? then parsed.value.fields else RawEnvelope(content);
    SetDefault(event, "source", JString(source))
  }

  /** The columns `write_event` records an event under. */
  datatype Recorded = Recorded(source: Json, tool: Option<Json>)

  /** `source=event.get("source", "orchestrator")` and `tool=tool or event.get("type")`. */
  function SelectColumns(event: Object, tool: Option<string>): (r: Recorded)
    ensures "source" in event ==> r.source == event["source"]
    ensures "source" !in event ==> r.source == JString("orchestrator")
    ensures (tool.Some? && tool.value != "") ==> r.tool == Some(JString(tool.value))
    ensures !(tool.Some? && tool.value != "") ==> r.tool == Get(event, "type")
  {
    var src := if "source" in event then event["source"] else JString("orchestrator");
    var t := if tool.Some? && tool.value != "" then Some(JString(tool.value)) else Get(event, "type");
    Recorded(src, t)
  }

  /** `write_memory_event(conn, source=..., tool=..., content=...)`: the event
      it hands to `write_event` and the columns chosen for it. The envelope
      always carries a `source` by then, so `write_event`'s `"orchestrator"`
      default never applies on this path. */
  function WriteMemoryEvent(source: string, tool: Option<string>, content: string, parsed: Option<Json>): (r: (Object, Recorded))
    ensures r.0 == NormalizeEnvelope(content, parsed, source)
    ensures "source" in r.0 && r.1.source == r.0["source"]
    ensures parsed.Some? && parsed.value.JObject? && "source" in parsed.value.fields ==>
      r.1.source == parsed.value.fields["source"]
    ensures !(parsed.Some? && parsed.value.JObject? && "source" in parsed.value.fields) ==>
      r.1.source == JString(source)
    ensures (tool.Some? && tool.value != "") ==> r.1.tool == Some(JString(tool.value))
    ensures !(tool.Some? && tool.value != "") ==> r.1.tool == Get(r.0, "type")
  {
    var event := NormalizeEnvelope(content, parsed, source);
    (event, SelectColumns(event, tool))
  }

  /** The caller's `source` never replaces a `source` the content already carries. */
  lemma ExistingSourceKept(source: string, tool: Option<string>, content: string, ev: Object)
    requires "source" in ev
    ensures WriteMemoryEvent(source, tool, content, Some(JObject(ev))).1.source == ev["source"]
    ensures WriteMemoryEvent(source, tool, content, Some(JObject(ev))).0 == ev
  {
  }

  /** With an empty `tool`, as the worker passes, the recorded tool is the
      event's own type, and content that is not a JSON object is recorded as a
      `raw.event` from the caller's source. */
  lemma EmptyToolUsesEventType(source: string, content: string, parsed: Option<Json>)
    ensures var (event, rec) := WriteMemoryEvent(source, Some(""), content, parsed);
      && rec.tool == Get(event, "type")
      && (!(parsed.Some? && parsed.value.JObject?) ==>
            rec.tool == Some(JString("raw.event")) && rec.source == JString(source))
  {
  }
}
