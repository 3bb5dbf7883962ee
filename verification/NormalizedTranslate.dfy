/**
 * Engine event -> session/update emission (legacy/src/acp/normalized-translate.ts)
 * over the tool-input accumulator (legacy/src/core/tool-input.ts).
 */
module NormalizedTranslate {
  import opened Basics
  import opened LaneEvents

  /** A tool call that has started and not ended: its name and the input text so far. */
  datatype OpenCall = OpenCall(name: Option<string>, raw: string)

  type OpenCalls = map<string, OpenCall>

  /**
   * How tools are presented: icon kind, title, file locations and inline diffs as functions
   * of the tool's name and input, and the JSON text parser. Every theorem holds for all of them.
   */
  datatype Presentation = Presentation(
    kind: string -> string,
    title: (Option<string>, Option<Json>) -> string,
    locations: (Option<string>, Json) -> Option<seq<string>>,
    diffs: (string, Json) -> Option<seq<Content>>,
    parse: string -> Option<Json>)

  datatype EmitOptions = EmitOptions(
    idPrefix: string, titlePrefix: string, suppressText: bool, meta: Option<MemberRef>)

  predicate IsEditTool(name: Option<string>) {
    name.Some? && name.value in ["edit_file", "write_file", "multi_edit", "apply_patch"]
  }

  /** Text that does not parse, blank text included, stands for the empty object. */
  function ParseToolInput(p: Presentation, raw: string): Json {
    p.parse(raw).GetOr(JObject([]))
  }

  /** Buffers streamed tool-argument fragments by tool-call id. */
  class ToolInputAccumulator {
    var entries: OpenCalls

    constructor ()
      ensures entries == map[]
    {
      entries := map[];
    }

    method Start(id: string, name: string)
      modifies this
      ensures entries == old(entries)[id := OpenCall(Some(name), "")]
    {
      entries := entries[id := OpenCall(Some(name), "")];
    }

    /** A fragment with no start opens a nameless call. */
    method Append(id: string, jsonDelta: string)
      modifies this
      ensures entries == Appended(old(entries), id, jsonDelta)
    {
      if id !in entries {
        entries := entries[id := OpenCall(None, jsonDelta)];
      } else {
        var entry := entries[id];
        entries := entries[id := OpenCall(entry.name, entry.raw + jsonDelta)];
      }
    }

    method End(id: string) returns (call: Option<OpenCall>)
      modifies this
      ensures entries == old(entries) - {id}
      ensures call == if id in old(entries) then Some(old(entries)[id]) else None
    {
      if id !in entries {
        assert entries - {id} == entries;
        return None;
      }
      call := Some(entries[id]);
      entries := entries - {id};
    }
  }

  function Appended(open: OpenCalls, id: string, jsonDelta: string): OpenCalls {
    if id in open then open[id := OpenCall(open[id].name, open[id].raw + jsonDelta)]
    else open[id := OpenCall(None, jsonDelta)]
  }

  /** The open calls after an engine event. */
  function OpenAfter(open: OpenCalls, prefix: string, ne: NormalizedEvent): OpenCalls {
    match ne
    case ToolUseStart(id, name) => open[prefix + id := OpenCall(Some(name), "")]
    case ToolUseInput(id, delta) => Appended(open, prefix + id, delta)
    case ToolUseEnd(id, _) => open - {prefix + id}
    case _ => open
  }

  function EndUpdate(p: Presentation, call: OpenCall, key: string, given: Option<Json>, o: EmitOptions): SessionUpdate {
    var input := if given.Some? then given.value else ParseToolInput(p, call.raw);
    ToolCallUpdate(Some(key), Some(o.titlePrefix + p.title(call.name, Some(input))), None, Some("in_progress"),
                   if IsEditTool(call.name) then p.diffs(call.name.value, input) else None,
                   Some(input), None, p.locations(call.name, input), o.meta)
  }

  /** What an engine event sends. */
  function Updates(p: Presentation, open: OpenCalls, ne: NormalizedEvent, o: EmitOptions): seq<SessionUpdate> {
    match ne
    case TextDelta(text) =>
      if o.suppressText then [] else [AgentMessageChunk(Some(text), o.meta)]
    case ToolUseStart(id, name) =>
      [ToolCall(Some(o.idPrefix + id), Some(o.titlePrefix + p.title(Some(name), None)), Some(p.kind(name)),
                Some("pending"), None, o.meta)]
    case ToolUseEnd(id, given) =>
      var key := o.idPrefix + id;
      if key in open then [EndUpdate(p, open[key], key, given, o)] else []
    case ToolResult(id, content, isError) =>
      [ToolCallUpdate(Some(o.idPrefix + id), None, None, Some(if isError then "failed" else "completed"),
                      Some([TextContent(content)]), None, Some(content), None, o.meta)]
    case _ => []
  }

  method EmitNormalizedEvent(p: Presentation, ne: NormalizedEvent, o: EmitOptions,
                             open: ToolInputAccumulator, conn: Connection)
    modifies open, conn
    ensures open.entries == OpenAfter(old(open.entries), o.idPrefix, ne)
    ensures conn.sent == old(conn.sent) + Updates(p, old(open.entries), ne, o)
  {
    match ne
    case TextDelta(text) =>
      if o.suppressText { return; }
      conn.Send(AgentMessageChunk(Some(text), o.meta));
    case ToolUseStart(id, name) =>
      var key := o.idPrefix + id;
      open.Start(key, name);
      conn.Send(ToolCall(Some(key), Some(o.titlePrefix + p.title(Some(name), None)), Some(p.kind(name)),
                         Some("pending"), None, o.meta));
    case ToolUseInput(id, delta) =>
      open.Append(o.idPrefix + id, delta);
    case ToolUseEnd(id, given) =>
      var key := o.idPrefix + id;
      var call := open.End(key);
      if call.None? { return; }
      var name := call.value.name;
      var input := if given.Some? then given.value else ParseToolInput(p, call.value.raw);
      var content := None;
      if IsEditTool(name) { content := p.diffs(name.value, input); }
      conn.Send(ToolCallUpdate(Some(key), Some(o.titlePrefix + p.title(name, Some(input))), None,
                               Some("in_progress"), content, Some(input), None, p.locations(name, input), o.meta));
    case ToolResult(id, content, isError) =>
      var status := if isError then "failed" else "completed";
      conn.Send(ToolCallUpdate(Some(o.idPrefix + id), None, None, Some(status), Some([TextContent(content)]),
                               None, Some(content), None, o.meta));
    case _ =>
  }
}
