// What the entries of the terminal client's view keep, whatever events arrive
// (internal/v2/tui/entries.go, internal/v2/tui/cmdqueue.go).
module TuiEntries {
  import opened Basics
  import opened Text
  import opened TuiModel

  predicate ShowsCall(e: Entry) {
    e.kind.ToolEntry? && TrimSpace(e.toolCallId) != ""
  }

  /** Each call that has an id has one entry, which the index points to; entries are numbered by their place. */
  ghost predicate EntriesOk(v: View) {
    && (forall id :: id in v.toolIndex ==>
          v.toolIndex[id] < |v.entries| && ShowsCall(v.entries[v.toolIndex[id]]) && v.entries[v.toolIndex[id]].toolCallId == id)
    && (forall i :: 0 <= i < |v.entries| && ShowsCall(v.entries[i]) ==>
          v.entries[i].toolCallId in v.toolIndex && v.toolIndex[v.entries[i].toolCallId] == i)
    && (forall i :: 0 <= i < |v.entries| ==> v.entries[i].id == "entry_" + Decimal(i + 1) && v.entries[i].count >= 1)
  }

  lemma AppendKeeps(v: View, entry: Entry)
    requires EntriesOk(v) && !ShowsCall(entry)
    ensures EntriesOk(v.(entries := AppendEntry(v.entries, entry)))
  {
    hide TrimSpace, Decimal;
    var added := AppendEntry(v.entries, entry)[|v.entries|];
    assert !ShowsCall(added);
  }

  lemma ReplaceKeeps(v: View, i: nat, entry: Entry)
    requires EntriesOk(v) && i < |v.entries|
    requires entry.kind == v.entries[i].kind && entry.toolCallId == v.entries[i].toolCallId
    requires entry.id == v.entries[i].id && entry.count >= 1
    ensures EntriesOk(v.(entries := v.entries[i := entry]))
  {
    hide TrimSpace, Decimal;
  }

  lemma ReplaceLastKeeps(v: View, entry: Entry)
    requires EntriesOk(v) && v.entries != []
    requires var last := v.entries[|v.entries| - 1];
             entry.kind == last.kind && entry.toolCallId == last.toolCallId && entry.id == last.id && entry.count >= 1
    ensures EntriesOk(v.(entries := ReplaceLast(v.entries, entry)))
  {
    hide EntriesOk;
    ReplaceKeeps(v, |v.entries| - 1, entry);
    assert ReplaceLast(v.entries, entry) == v.entries[|v.entries| - 1 := entry];
  }

  lemma CountAtLeastOne(v: View, i: nat)
    requires EntriesOk(v) && i < |v.entries|
    ensures v.entries[i].count >= 1
  {
  }

  lemma DeltaKeeps(v: View, text: string)
    requires EntriesOk(v)
    ensures EntriesOk(v.(entries := AppendDelta(v.entries, text)))
  {
    hide EntriesOk, TrimSpace;
    if text != "" {
      if LastStreams(v.entries) {
        CountAtLeastOne(v, |v.entries| - 1);
        var last := v.entries[|v.entries| - 1];
        ReplaceLastKeeps(v, last.(body := last.body + text));
      } else {
        AppendKeeps(v, Entry("", AssistantEntry, "Sesame", text, true, "", "", 0));
      }
    }
  }

  lemma CloseKeeps(v: View)
    requires EntriesOk(v)
    ensures EntriesOk(v.(entries := CloseStream(v.entries)))
  {
    hide EntriesOk, TrimNewlines;
    if v.entries != [] && v.entries[|v.entries| - 1].kind.AssistantEntry? {
      CountAtLeastOne(v, |v.entries| - 1);
      var last := v.entries[|v.entries| - 1];
      ReplaceLastKeeps(v, last.(streaming := false, body := TrimNewlines(last.body)));
    }
  }

  lemma CountedKeeps(v: View, kind: EntryKind, title: string, text: string)
    requires EntriesOk(v) && !kind.ToolEntry?
    ensures EntriesOk(v.(entries := AppendCounted(v.entries, kind, title, text)))
  {
    hide EntriesOk, TrimSpace;
    var body := TrimSpace(text);
    if body != "" {
      if v.entries != [] && v.entries[|v.entries| - 1].kind == kind && v.entries[|v.entries| - 1].body == body {
        var last := v.entries[|v.entries| - 1];
        ReplaceLastKeeps(v, last.(count := last.count + 1));
      } else {
        AppendKeeps(v, Entry("", kind, title, body, false, "", "", 0));
      }
    }
  }

  lemma DisplayKeeps(v: View, title: string, body: string, callId: string, status: string)
    requires EntriesOk(v)
    ensures EntriesOk(UpsertDisplay(v, title, body, callId, status))
  {
    hide TrimSpace, Decimal;
    if callId in v.toolIndex {
      var i := v.toolIndex[callId];
      ReplaceKeeps(v, i, v.entries[i].(title := title, body := body, status := status));
    }
  }

  lemma ToolKeeps(v: View, p: ToolPayload, completed: bool)
    requires EntriesOk(v)
    ensures EntriesOk(UpsertTool(v, p, completed))
  {
    hide EntriesOk, UpsertDisplay, FirstNonEmpty, Preview, CloseStream;
    CloseKeeps(v);
    var args := FirstNonEmpty([p.arguments, p.argsPreview]);
    DisplayKeeps(v.(entries := CloseStream(v.entries)),
                 FirstNonEmpty([p.toolName, p.name, "tool"]),
                 if completed then FirstNonEmpty([p.resultPreview, Preview(p.output, 400), args]) else args,
                 FirstNonEmpty([p.toolCallId, p.id]),
                 if !completed then "running" else if p.isError then "failed" else "completed");
  }

  lemma OtherFields(v: View, v': View)
    requires EntriesOk(v) && v'.entries == v.entries && v'.toolIndex == v.toolIndex
    ensures EntriesOk(v')
  {
    hide TrimSpace, Decimal;
  }

  lemma ApplyKeeps(codec: Payloads, v: View, event: Event)
    requires EntriesOk(v)
    ensures EntriesOk(Apply(codec, v, event))
  {
    hide EntriesOk, AppendDelta, CloseStream, AppendCounted, UpsertTool, FirstNonEmpty;
    var text, tool := codec.decodeDelta(event.payload), codec.decodeTool(event.payload);
    var failure, notice := codec.decodeFailure(event.payload), codec.decodeNotice(event.payload);
    var closed := v.(entries := CloseStream(v.entries));
    CloseKeeps(v);
    if text.Some? {
      DeltaKeeps(v, text.value);
    }
    if tool.Some? {
      ToolKeeps(v, tool.value, false);
      ToolKeeps(v, tool.value, true);
    }
    if notice.Some? {
      CountedKeeps(v, NoticeEntry, "notice", notice.value);
    }
    if failure.Some? {
      var said := FirstNonEmpty([failure.value.0, failure.value.1, "turn failed"]);
      CountedKeeps(closed, ErrorEntry, "error", said);
      OtherFields(closed.(entries := AppendCounted(closed.entries, ErrorEntry, "error", said)),
                  v.(entries := AppendCounted(closed.entries, ErrorEntry, "error", said),
                     busy := false, requests := v.requests + [LoadTimeline, LoadReports]));
    }
    OtherFields(closed, closed.(busy := false, requests := v.requests + [LoadTimeline, LoadReports]));
    SameEntries(codec, v, event);
  }

  /** The events that touch no entry. */
  lemma SameEntries(codec: Payloads, v: View, event: Event)
    requires EntriesOk(v)
    ensures EntriesOk(v.(busy := true))
    ensures codec.decodeQueue(event.payload).Some? ==> EntriesOk(v.(queue := codec.decodeQueue(event.payload).value))
    ensures EntriesOk(v.(statusBar := "Reports updated", requests := v.requests + [LoadReports]))
  {
    hide EntriesOk;
    OtherFields(v, v.(busy := true));
    OtherFields(v, v.(statusBar := "Reports updated", requests := v.requests + [LoadReports]));
    if codec.decodeQueue(event.payload).Some? {
      OtherFields(v, v.(queue := codec.decodeQueue(event.payload).value));
    }
  }

  /**
   After any events a tool call with an id is shown by one entry, the one that every further
   event of that call updates.
   */
  lemma {:induction false} OneEntryPerCall(codec: Payloads, v: View, events: seq<Event>)
    requires EntriesOk(v)
    ensures EntriesOk(ApplyAll(codec, v, events))
    decreases |events|
  {
    hide EntriesOk, Apply;
    if events != [] {
      ApplyKeeps(codec, v, events[0]);
      OneEntryPerCall(codec, Apply(codec, v, events[0]), events[1..]);
    }
  }

  /** b has the entries of a, with their kinds and calls, and perhaps more behind them. */
  ghost predicate Grown(a: seq<Entry>, b: seq<Entry>) {
    |a| <= |b| && forall i :: 0 <= i < |a| ==> b[i].kind == a[i].kind && b[i].toolCallId == a[i].toolCallId
  }

  lemma GrownByEach(v: View, text: string, kind: EntryKind, title: string)
    ensures Grown(v.entries, AppendDelta(v.entries, text))
    ensures Grown(v.entries, CloseStream(v.entries))
    ensures Grown(v.entries, AppendCounted(v.entries, kind, title, text))
  {
    hide TrimSpace, Decimal, TrimNewlines;
  }

  lemma GrownByTool(v: View, p: ToolPayload, completed: bool)
    ensures Grown(v.entries, UpsertTool(v, p, completed).entries)
  {
    hide TrimSpace, Decimal, TrimNewlines, FirstNonEmpty, Preview;
  }

  lemma GrownByEvent(codec: Payloads, v: View, event: Event)
    ensures Grown(v.entries, Apply(codec, v, event).entries)
  {
    hide AppendDelta, CloseStream, AppendCounted, UpsertTool, FirstNonEmpty;
    var text, tool := codec.decodeDelta(event.payload), codec.decodeTool(event.payload);
    var failure, notice := codec.decodeFailure(event.payload), codec.decodeNotice(event.payload);
    GrownByEach(v, if text.Some? then text.value else "", NoticeEntry, "notice");
    GrownByEach(v, if notice.Some? then notice.value else "", NoticeEntry, "notice");
    if tool.Some? {
      GrownByTool(v, tool.value, false);
      GrownByTool(v, tool.value, true);
    }
    if failure.Some? {
      var said := FirstNonEmpty([failure.value.0, failure.value.1, "turn failed"]);
      GrownByEach(v.(entries := CloseStream(v.entries)), said, ErrorEntry, "error");
    }
  }

  /** Events never take an entry away, nor change what kind of entry it is or which call it shows. */
  lemma {:induction false} EntriesOnlyGrow(codec: Payloads, v: View, events: seq<Event>)
    ensures Grown(v.entries, ApplyAll(codec, v, events).entries)
    decreases |events|
  {
    hide Apply;
    if events != [] {
      GrownByEvent(codec, v, events[0]);
      EntriesOnlyGrow(codec, Apply(codec, v, events[0]), events[1..]);
    }
  }
}
