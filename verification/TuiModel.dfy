// The terminal client's view of a session as events are applied to it
// (internal/v2/tui/entries.go, internal/v2/tui/cmdqueue.go).
module TuiModel {
  import opened Basics
  import opened Text

  datatype Event = Event(seqNo: int, sessionId: string, turnId: string, typ: string, payload: string)

  datatype EntryKind = UserEntry | AssistantEntry | ToolEntry | NoticeEntry | ErrorEntry | ActivityEntry

  datatype Entry = Entry(
    id: string, kind: EntryKind, title: string, body: string, streaming: bool, toolCallId: string, status: string, count: nat)

  datatype ToolPayload = ToolPayload(
    toolCallId: string, id: string, toolName: string, name: string, arguments: string, argsPreview: string,
    resultPreview: string, output: string, isError: bool)

  datatype Queue = Queue(activeTurnId: string, activeTurnKind: string, depth: int, userTurns: int, reportBatches: int)

  /** What an event makes the client load. */
  datatype Request = LoadTimeline | LoadReports

  /** JSON of the payloads; decoding may fail. */
  datatype Payloads = Payloads(
    encodeDelta: string -> string,
    decodeDelta: string -> Option<string>,
    decodeTool: string -> Option<ToolPayload>,
    decodeFailure: string -> Option<(string, string)>,
    decodeQueue: string -> Option<Queue>,
    decodeNotice: string -> Option<string>)
  {
    ghost predicate Lawful() {
      forall text :: decodeDelta(encodeDelta(text)) == Some(text)
    }
  }

  /** All that applying events changes, but for the last sequence number. */
  datatype View = View(
    entries: seq<Entry>, toolIndex: map<string, nat>, busy: bool, queue: Queue, statusBar: string, requests: seq<Request>)

  predicate IsDelta(typ: string) {
    typ == "assistant_delta" || typ == "assistant.delta"
  }

  // -------- entries --------

  function AppendEntry(entries: seq<Entry>, entry: Entry): seq<Entry> {
    entries + [entry.(id := "entry_" + Decimal(|entries| + 1), count := if entry.count == 0 then 1 else entry.count)]
  }

  predicate LastStreams(entries: seq<Entry>) {
    entries != [] && entries[|entries| - 1].kind.AssistantEntry? && entries[|entries| - 1].streaming
  }

  function ReplaceLast(entries: seq<Entry>, entry: Entry): seq<Entry>
    requires entries != []
  {
    entries[..|entries| - 1] + [entry]
  }

  function AppendDelta(entries: seq<Entry>, text: string): seq<Entry> {
    if text == "" then entries
    else if LastStreams(entries) then
      var last := entries[|entries| - 1];
      ReplaceLast(entries, last.(body := last.body + text))
    else AppendEntry(entries, Entry("", AssistantEntry, "Sesame", text, true, "", "", 0))
  }

  /** strings.TrimRight(s, "\n") */
  function TrimNewlines(s: string): string {
    if s != "" && s[|s| - 1] == '\n' then TrimNewlines(s[..|s| - 1]) else s
  }

  function CloseStream(entries: seq<Entry>): seq<Entry> {
    if entries != [] && entries[|entries| - 1].kind.AssistantEntry? then
      var last := entries[|entries| - 1];
      ReplaceLast(entries, last.(streaming := false, body := TrimNewlines(last.body)))
    else entries
  }

  /** A notice or an error that repeats the last one is counted there. */
  function AppendCounted(entries: seq<Entry>, kind: EntryKind, title: string, text: string): seq<Entry> {
    var body := TrimSpace(text);
    if body == "" then entries
    else if entries != [] && entries[|entries| - 1].kind == kind && entries[|entries| - 1].body == body then
      var last := entries[|entries| - 1];
      ReplaceLast(entries, last.(count := last.count + 1))
    else AppendEntry(entries, Entry("", kind, title, body, false, "", "", 0))
  }

  function FirstNonEmpty(values: seq<string>): string {
    if values == [] then ""
    else if TrimSpace(values[0]) != "" then TrimSpace(values[0])
    else FirstNonEmpty(values[1..])
  }

  function Preview(text: string, max: int): string {
    var t := TrimSpace(text);
    if max <= 0 || |t| <= max then t else t[..max] + "..."
  }

  function UpsertDisplay(v: View, title: string, body: string, callId: string, status: string): View {
    if callId in v.toolIndex && v.toolIndex[callId] < |v.entries| then
      var i := v.toolIndex[callId];
      v.(entries := v.entries[i := v.entries[i].(title := title, body := body, status := status)])
    else
      v.(entries := AppendEntry(v.entries, Entry("", ToolEntry, title, body, false, callId, status, 0)),
         toolIndex := if TrimSpace(callId) != "" then v.toolIndex[callId := |v.entries|] else v.toolIndex)
  }

  function UpsertTool(v: View, p: ToolPayload, completed: bool): View {
    var args := FirstNonEmpty([p.arguments, p.argsPreview]);
    UpsertDisplay(
      v.(entries := CloseStream(v.entries)),
      FirstNonEmpty([p.toolName, p.name, "tool"]),
      if completed then FirstNonEmpty([p.resultPreview, Preview(p.output, 400), args]) else args,
      FirstNonEmpty([p.toolCallId, p.id]),
      if !completed then "running" else if p.isError then "failed" else "completed")
  }

  // -------- events --------

  function Apply(codec: Payloads, v: View, event: Event): View {
    if event.typ in ["turn_started", "turn.started"] then v.(busy := true)
    else if IsDelta(event.typ) then
      var text := codec.decodeDelta(event.payload);
      if text.Some? then v.(entries := AppendDelta(v.entries, text.value)) else v
    else if event.typ in ["tool_call", "tool.started"] then
      var p := codec.decodeTool(event.payload);
      if p.Some? then UpsertTool(v, p.value, false) else v
    else if event.typ in ["tool_result", "tool.completed"] then
      var p := codec.decodeTool(event.payload);
      if p.Some? then UpsertTool(v, p.value, true) else v
    else if event.typ in ["turn_failed", "turn.failed"] then
      var p := codec.decodeFailure(event.payload);
      var closed := CloseStream(v.entries);
      v.(entries := if p.None? then closed
                    else AppendCounted(closed, ErrorEntry, "error", FirstNonEmpty([p.value.0, p.value.1, "turn failed"])),
         busy := false,
         requests := v.requests + [LoadTimeline, LoadReports])
    else if event.typ in ["turn_completed", "turn.completed", "turn_interrupted", "turn.interrupted"] then
      v.(entries := CloseStream(v.entries), busy := false, requests := v.requests + [LoadTimeline, LoadReports])
    else if event.typ in ["session_queue_updated", "session.queue_updated"] then
      var q := codec.decodeQueue(event.payload);
      if q.Some? then v.(queue := q.value) else v
    else if event.typ in ["report_ready", "report.ready", "task_result_ready"] then
      v.(statusBar := "Reports updated", requests := v.requests + [LoadReports])
    else if event.typ in ["system_notice", "system.notice"] then
      var text := codec.decodeNotice(event.payload);
      if text.Some? then v.(entries := AppendCounted(v.entries, NoticeEntry, "notice", text.value)) else v
    else v
  }

  function ApplyAll(codec: Payloads, v: View, events: seq<Event>): View
    decreases |events|
  {
    if events == [] then v else ApplyAll(codec, Apply(codec, v, events[0]), events[1..])
  }

  function MaxSeq(last: int, events: seq<Event>): int
    decreases |events|
  {
    if events == [] then last else MaxSeq(if events[0].seqNo > last then events[0].seqNo else last, events[1..])
  }

  class Model {
    var entries: seq<Entry>
    var toolIndexByCall: map<string, nat>
    var busy: bool
    var queueSummary: Queue
    var statusBarMessage: string
    var requests: seq<Request>
    var lastSeq: int

    function Seen(): View
      reads this
    {
      View(entries, toolIndexByCall, busy, queueSummary, statusBarMessage, requests)
    }

    constructor (afterSeq: int, statusBar: string)
      ensures Seen() == View([], map[], false, Queue("", "", 0, 0, 0), statusBar, []) && lastSeq == afterSeq
    {
      entries, toolIndexByCall, busy, requests, lastSeq := [], map[], false, [], afterSeq;
      queueSummary, statusBarMessage := Queue("", "", 0, 0, 0), statusBar;
    }

    method Append(entry: Entry)
      modifies this`entries
      ensures entries == AppendEntry(old(entries), entry)
    {
      var e := entry.(id := "entry_" + Decimal(|entries| + 1));
      if e.count == 0 {
        e := e.(count := 1);
      }
      entries := entries + [e];
    }

    method AppendAssistantDelta(text: string)
      modifies this`entries
      ensures entries == AppendDelta(old(entries), text)
    {
      if text == "" {
        return;
      }
      var last := |entries| - 1;
      if last >= 0 && entries[last].kind.AssistantEntry? && entries[last].streaming {
        entries := entries[last := entries[last].(body := entries[last].body + text)];
        return;
      }
      Append(Entry("", AssistantEntry, "Sesame", text, true, "", "", 0));
    }

    method CloseAssistantStream()
      modifies this`entries
      ensures entries == CloseStream(old(entries))
    {
      var last := |entries| - 1;
      if last >= 0 && entries[last].kind.AssistantEntry? {
        entries := entries[last := entries[last].(streaming := false, body := TrimNewlines(entries[last].body))];
      }
    }

    /** appendNotice and appendError */
    method AppendRepeated(kind: EntryKind, title: string, text: string)
      modifies this`entries
      ensures entries == AppendCounted(old(entries), kind, title, text)
    {
      hide TrimSpace;
      var body := TrimSpace(text);
      if body == "" {
        return;
      }
      var last := |entries| - 1;
      if last >= 0 && entries[last].kind == kind && entries[last].body == body {
        entries := entries[last := entries[last].(count := entries[last].count + 1)];
        return;
      }
      Append(Entry("", kind, title, body, false, "", "", 0));
    }

    method UpsertToolDisplay(title: string, body: string, callId: string, status: string)
      modifies this`entries, this`toolIndexByCall
      ensures Seen() == UpsertDisplay(old(Seen()), title, body, callId, status)
    {
      hide TrimSpace;
      if callId in toolIndexByCall && toolIndexByCall[callId] < |entries| {
        var i := toolIndexByCall[callId];
        entries := entries[i := entries[i].(title := title)];
        entries := entries[i := entries[i].(body := body)];
        entries := entries[i := entries[i].(status := status)];
        return;
      }
      Append(Entry("", ToolEntry, title, body, false, callId, status, 0));
      if TrimSpace(callId) != "" {
        toolIndexByCall := toolIndexByCall[callId := |entries| - 1];
      }
    }

    method UpsertToolEntry(p: ToolPayload, completed: bool)
      modifies this`entries, this`toolIndexByCall
      ensures Seen() == UpsertTool(old(Seen()), p, completed)
    {
      hide TrimSpace, FirstNonEmpty, CloseStream, UpsertDisplay, Preview;
      CloseAssistantStream();
      var callId := FirstNonEmpty([p.toolCallId, p.id]);
      var toolName := FirstNonEmpty([p.toolName, p.name, "tool"]);
      var args := FirstNonEmpty([p.arguments, p.argsPreview]);
      var body := args;
      if completed {
        body := FirstNonEmpty([p.resultPreview, Preview(p.output, 400), args]);
      }
      var status := "running";
      if completed {
        status := "completed";
        if p.isError {
          status := "failed";
        }
      }
      UpsertToolDisplay(toolName, body, callId, status);
    }

    method ApplyEvent(codec: Payloads, event: Event)
      modifies this
      ensures Seen() == Apply(codec, old(Seen()), event)
      ensures lastSeq == if event.seqNo > old(lastSeq) then event.seqNo else old(lastSeq)
    {
      hide TrimSpace, FirstNonEmpty, CloseStream, UpsertTool, AppendCounted, AppendDelta;
      if event.seqNo > lastSeq {
        lastSeq := event.seqNo;
      }
      if event.typ in ["turn_started", "turn.started"] {
        busy := true;
      } else if IsDelta(event.typ) {
        var text := codec.decodeDelta(event.payload);
        if text.Some? {
          AppendAssistantDelta(text.value);
        }
      } else if event.typ in ["tool_call", "tool.started"] {
        var p := codec.decodeTool(event.payload);
        if p.Some? {
          UpsertToolEntry(p.value, false);
        }
      } else if event.typ in ["tool_result", "tool.completed"] {
        var p := codec.decodeTool(event.payload);
        if p.Some? {
          UpsertToolEntry(p.value, true);
        }
      } else if event.typ in ["turn_failed", "turn.failed"] {
        CloseAssistantStream();
        var p := codec.decodeFailure(event.payload);
        if p.Some? {
          AppendRepeated(ErrorEntry, "error", FirstNonEmpty([p.value.0, p.value.1, "turn failed"]));
        }
        busy := false;
        requests := requests + [LoadTimeline, LoadReports];
      } else if event.typ in ["turn_completed", "turn.completed", "turn_interrupted", "turn.interrupted"] {
        CloseAssistantStream();
        busy := false;
        requests := requests + [LoadTimeline, LoadReports];
      } else if event.typ in ["session_queue_updated", "session.queue_updated"] {
        var q := codec.decodeQueue(event.payload);
        if q.Some? {
          queueSummary := q.value;
        }
      } else if event.typ in ["report_ready", "report.ready", "task_result_ready"] {
        statusBarMessage := "Reports updated";
        requests := requests + [LoadReports];
      } else if event.typ in ["system_notice", "system.notice"] {
        var text := codec.decodeNotice(event.payload);
        if text.Some? {
          AppendRepeated(NoticeEntry, "notice", text.value);
        }
      }
    }
  }
}
