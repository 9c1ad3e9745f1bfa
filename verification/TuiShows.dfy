/** What the terminal shows of any events (internal/v2/tui/cmdqueue.go, internal/v2/tui/entries.go). */
module TuiShows {
  import opened Basics
  import opened Text
  import opened TuiModel
  import opened TuiEntries

  lemma {:induction false} ApplyLast(codec: Payloads, v: View, events: seq<Event>)
    requires events != []
    ensures ApplyAll(codec, v, events) == Apply(codec, ApplyAll(codec, v, events[..|events| - 1]), events[|events| - 1])
    decreases |events|
  {
    hide Apply;
    if |events| > 1 {
      ApplyLast(codec, Apply(codec, v, events[0]), events[1..]);
      assert events[1..][..|events| - 2] == events[..|events| - 1][1..];
    } else {
      assert events[1..] == [] && events[..0] == [];
    }
  }

  // -------- busy, queue, status bar, requests --------

  predicate StartsTurn(e: Event) {
    e.typ == "turn_started" || e.typ == "turn.started"
  }

  predicate FailsTurn(e: Event) {
    e.typ == "turn_failed" || e.typ == "turn.failed"
  }

  predicate EndsTurn(e: Event) {
    || FailsTurn(e) || e.typ == "turn_completed" || e.typ == "turn.completed"
    || e.typ == "turn_interrupted" || e.typ == "turn.interrupted"
  }

  predicate TellsQueue(e: Event) {
    e.typ == "session_queue_updated" || e.typ == "session.queue_updated"
  }

  predicate TellsReports(e: Event) {
    e.typ == "report_ready" || e.typ == "report.ready" || e.typ == "task_result_ready"
  }

  predicate BeginsCall(e: Event) {
    e.typ == "tool_call" || e.typ == "tool.started"
  }

  predicate FinishesCall(e: Event) {
    e.typ == "tool_result" || e.typ == "tool.completed"
  }

  predicate Notifies(e: Event) {
    e.typ == "system_notice" || e.typ == "system.notice"
  }

  /** An event is of one kind only. */
  lemma OneKind(e: Event)
    ensures StartsTurn(e) ==> !IsDelta(e.typ) && !BeginsCall(e) && !FinishesCall(e) && !EndsTurn(e) && !TellsQueue(e) && !TellsReports(e) && !Notifies(e)
    ensures IsDelta(e.typ) ==> !BeginsCall(e) && !FinishesCall(e) && !EndsTurn(e) && !TellsQueue(e) && !TellsReports(e) && !Notifies(e)
    ensures BeginsCall(e) ==> !FinishesCall(e) && !EndsTurn(e) && !TellsQueue(e) && !TellsReports(e) && !Notifies(e)
    ensures FinishesCall(e) ==> !EndsTurn(e) && !TellsQueue(e) && !TellsReports(e) && !Notifies(e)
    ensures EndsTurn(e) ==> !TellsQueue(e) && !TellsReports(e) && !Notifies(e)
    ensures TellsQueue(e) ==> !TellsReports(e) && !Notifies(e)
    ensures TellsReports(e) ==> !Notifies(e)
    ensures FailsTurn(e) ==> EndsTurn(e)
  {
  }

  lemma Applied(codec: Payloads, v: View, e: Event)
    ensures var v' := Apply(codec, v, e);
            if StartsTurn(e) then v' == v.(busy := true)
            else if IsDelta(e.typ) then
              var text := codec.decodeDelta(e.payload);
              v' == if text.Some? then v.(entries := AppendDelta(v.entries, text.value)) else v
            else if BeginsCall(e) || FinishesCall(e) then
              var p := codec.decodeTool(e.payload);
              v' == if p.Some? then UpsertTool(v, p.value, FinishesCall(e)) else v
            else if EndsTurn(e) then
              var p, closed := codec.decodeFailure(e.payload), CloseStream(v.entries);
              v' == v.(entries := if FailsTurn(e) && p.Some?
                                  then AppendCounted(closed, ErrorEntry, "error", FirstNonEmpty([p.value.0, p.value.1, "turn failed"]))
                                  else closed,
                       busy := false, requests := v.requests + [LoadTimeline, LoadReports])
            else if TellsQueue(e) then
              var q := codec.decodeQueue(e.payload);
              v' == if q.Some? then v.(queue := q.value) else v
            else if TellsReports(e) then v' == v.(statusBar := "Reports updated", requests := v.requests + [LoadReports])
            else if Notifies(e) then
              var text := codec.decodeNotice(e.payload);
              v' == if text.Some? then v.(entries := AppendCounted(v.entries, NoticeEntry, "notice", text.value)) else v
            else v' == v
  {
    OneKind(e);
    hide AppendDelta, CloseStream, AppendCounted, UpsertTool, FirstNonEmpty;
  }

  /** No turn event behind place i. */
  ghost predicate NoTurnBehind(events: seq<Event>, i: int)
    requires i >= -1
  {
    forall j :: i < j < |events| ==> !StartsTurn(events[j]) && !EndsTurn(events[j])
  }

  /** What the other fields are after one event. */
  lemma OneEvent(codec: Payloads, v: View, e: Event)
    ensures var v', q := Apply(codec, v, e), codec.decodeQueue(e.payload);
            && v'.busy == (if StartsTurn(e) then true else if EndsTurn(e) then false else v.busy)
            && v'.queue == (if TellsQueue(e) && q.Some? then q.value else v.queue)
            && v'.statusBar == (if TellsReports(e) then "Reports updated" else v.statusBar)
            && v'.requests == v.requests + Asked(e)
  {
    OneKind(e);
    Applied(codec, v, e);
    hide AppendDelta, CloseStream, AppendCounted, UpsertTool, FirstNonEmpty, Apply;
    hide StartsTurn, FailsTurn, EndsTurn, TellsQueue, TellsReports, BeginsCall, FinishesCall, Notifies, IsDelta;
    var p := codec.decodeTool(e.payload);
    if p.Some? {
      ToolLeavesRest(v, p.value, FinishesCall(e));
    }
  }

  lemma ToolLeavesRest(v: View, p: ToolPayload, completed: bool)
    ensures var v' := UpsertTool(v, p, completed);
            v'.busy == v.busy && v'.queue == v.queue && v'.statusBar == v.statusBar && v'.requests == v.requests
  {
    hide AppendEntry, CloseStream, FirstNonEmpty, Preview, TrimSpace;
  }

  /** What an event makes the client load. */
  function Asked(e: Event): seq<Request> {
    if EndsTurn(e) then [LoadTimeline, LoadReports] else if TellsReports(e) then [LoadReports] else []
  }

  function AllAsked(events: seq<Event>): seq<Request> {
    if events == [] then [] else AllAsked(events[..|events| - 1]) + Asked(events[|events| - 1])
  }

  /** After any events the client is busy exactly if the last turn event is a start, or it was busy and there is none. */
  lemma {:induction false} BusyExactlyWhen(codec: Payloads, v: View, events: seq<Event>)
    ensures ApplyAll(codec, v, events).busy
            <==> || (v.busy && NoTurnBehind(events, -1))
                 || exists i :: 0 <= i < |events| && StartsTurn(events[i]) && NoTurnBehind(events, i)
  {
    hide Apply, StartsTurn, EndsTurn, ApplyAll;
    if events == [] {
      NoEvents(codec, v);
    } else {
      var n := |events| - 1;
      var front, e := events[..n], events[n];
      ApplyLast(codec, v, events);
      BusyExactlyWhen(codec, v, front);
      OneEvent(codec, ApplyAll(codec, v, front), e);
      TurnEventsDiffer(e);
      assert NoTurnBehind(events, n);
      assert forall i :: 0 <= i < n ==> front[i] == events[i];
      forall i | -1 <= i < n ensures NoTurnBehind(events, i) <==> NoTurnBehind(front, i) && !StartsTurn(e) && !EndsTurn(e) {
        assert forall j :: i < j < n ==> front[j] == events[j];
      }
    }
  }

  lemma TurnEventsDiffer(e: Event)
    ensures !(StartsTurn(e) && EndsTurn(e))
  {
  }

  lemma NoEvents(codec: Payloads, v: View)
    ensures ApplyAll(codec, v, []) == v
  {
  }

  /** The queue shown is what the last decodable queue event told, or what it was before. */
  lemma {:induction false} QueueIsTheLastTold(codec: Payloads, v: View, events: seq<Event>)
    ensures var q := ApplyAll(codec, v, events).queue;
            || (q == v.queue && forall j :: 0 <= j < |events| && TellsQueue(events[j]) ==> codec.decodeQueue(events[j].payload).None?)
            || exists i :: 0 <= i < |events| && TellsQueue(events[i]) && codec.decodeQueue(events[i].payload) == Some(q)
                 && forall j :: i < j < |events| && TellsQueue(events[j]) ==> codec.decodeQueue(events[j].payload).None?
  {
    hide Apply, TellsQueue, ApplyAll;
    if events == [] {
      NoEvents(codec, v);
    } else {
      var n := |events| - 1;
      var front, e := events[..n], events[n];
      ApplyLast(codec, v, events);
      QueueIsTheLastTold(codec, v, front);
      OneEvent(codec, ApplyAll(codec, v, front), e);
      assert forall i :: 0 <= i < n ==> front[i] == events[i];
      var q := ApplyAll(codec, v, front).queue;
      if !(TellsQueue(e) && codec.decodeQueue(e.payload).Some?) {
        if i :| 0 <= i < n && TellsQueue(front[i]) && codec.decodeQueue(front[i].payload) == Some(q)
                && forall j :: i < j < n && TellsQueue(front[j]) ==> codec.decodeQueue(front[j].payload).None? {
          assert TellsQueue(events[i]) && codec.decodeQueue(events[i].payload) == Some(q);
        }
      }
    }
  }

  /** Each end of a turn makes the client load timeline and reports, each report event the reports; nothing else does. */
  lemma {:induction false} RequestsAreAsked(codec: Payloads, v: View, events: seq<Event>)
    ensures ApplyAll(codec, v, events).requests == v.requests + AllAsked(events)
    ensures ApplyAll(codec, v, events).statusBar
            == if exists i :: 0 <= i < |events| && TellsReports(events[i]) then "Reports updated" else v.statusBar
  {
    hide Apply, Asked, TellsReports, ApplyAll;
    if events == [] {
      NoEvents(codec, v);
    } else {
      var n := |events| - 1;
      var front, e := events[..n], events[n];
      ApplyLast(codec, v, events);
      RequestsAreAsked(codec, v, front);
      OneEvent(codec, ApplyAll(codec, v, front), e);
      assert (v.requests + AllAsked(front)) + Asked(e) == v.requests + AllAsked(events);
      if i :| 0 <= i < n && TellsReports(front[i]) {
        assert TellsReports(events[i]);
      }
      if i :| 0 <= i < |events| && TellsReports(events[i]) {
        assert i < n ==> TellsReports(front[i]);
      }
    }
  }

  // -------- texts, notices and errors --------

  /** What is read on the screen: letters, but for line ends, and each notice and error as often as it was given. */
  datatype Mark = Letter(c: char) | Note(kind: EntryKind, body: string)

  function Letters(text: string): seq<Mark> {
    if text == "" then []
    else Letters(text[..|text| - 1]) + if text[|text| - 1] == '\n' then [] else [Letter(text[|text| - 1])]
  }

  function Repeated(mark: Mark, n: nat): seq<Mark> {
    if n == 0 then [] else Repeated(mark, n - 1) + [mark]
  }

  function MarksOf(entry: Entry): seq<Mark> {
    match entry.kind
    case AssistantEntry => Letters(entry.body)
    case NoticeEntry => Repeated(Note(NoticeEntry, entry.body), entry.count)
    case ErrorEntry => Repeated(Note(ErrorEntry, entry.body), entry.count)
    case _ => []
  }

  function Marks(entries: seq<Entry>): seq<Mark> {
    if entries == [] then [] else Marks(entries[..|entries| - 1]) + MarksOf(entries[|entries| - 1])
  }

  /** A notice or error of a text, unless that is blank. */
  function Noted(kind: EntryKind, text: string): seq<Mark> {
    if IsBlank(text) then [] else [Note(kind, TrimSpace(text))]
  }

  /** What an event adds to what is read. */
  function Given(codec: Payloads, e: Event): seq<Mark> {
    if IsDelta(e.typ) then
      var text := codec.decodeDelta(e.payload);
      if text.Some? then Letters(text.value) else []
    else if Notifies(e) then
      var text := codec.decodeNotice(e.payload);
      if text.Some? then Noted(NoticeEntry, text.value) else []
    else if FailsTurn(e) then
      var p := codec.decodeFailure(e.payload);
      if p.None? then []
      else if !IsBlank(p.value.0) then Noted(ErrorEntry, p.value.0)
      else if !IsBlank(p.value.1) then Noted(ErrorEntry, p.value.1)
      else [Note(ErrorEntry, "turn failed")]
    else []
  }

  function AllGiven(codec: Payloads, events: seq<Event>): seq<Mark> {
    if events == [] then [] else AllGiven(codec, events[..|events| - 1]) + Given(codec, events[|events| - 1])
  }

  lemma {:induction false} LettersConcat(a: string, b: string)
    ensures Letters(a + b) == Letters(a) + Letters(b)
  {
    if b == "" {
      assert a + b == a;
    } else {
      LettersConcat(a, b[..|b| - 1]);
      assert (a + b)[..|a + b| - 1] == a + b[..|b| - 1];
    }
  }

  lemma {:induction false} TrimmedLetters(text: string)
    ensures Letters(TrimNewlines(text)) == Letters(text)
  {
    if text != "" && text[|text| - 1] == '\n' {
      TrimmedLetters(text[..|text| - 1]);
    }
  }

  lemma MarksAppend(entries: seq<Entry>, entry: Entry)
    ensures Marks(entries + [entry]) == Marks(entries) + MarksOf(entry)
  {
    hide MarksOf;
    assert (entries + [entry])[..|entries|] == entries;
  }

  lemma MarksOfAppended(entries: seq<Entry>, entry: Entry)
    requires entry.count == 0
    ensures Marks(AppendEntry(entries, entry)) == Marks(entries) + MarksOf(entry.(count := 1))
  {
    hide MarksOf, Decimal;
    var added := entry.(id := "entry_" + Decimal(|entries| + 1), count := 1);
    MarksAppend(entries, added);
    MarksIgnoreId(entry.(count := 1), added.id);
  }

  lemma MarksIgnoreId(entry: Entry, id: string)
    ensures MarksOf(entry.(id := id)) == MarksOf(entry)
  {
  }

  lemma MarksOfReplaced(entries: seq<Entry>, entry: Entry)
    requires entries != []
    ensures Marks(ReplaceLast(entries, entry)) == Marks(entries[..|entries| - 1]) + MarksOf(entry)
    ensures Marks(entries) == Marks(entries[..|entries| - 1]) + MarksOf(entries[|entries| - 1])
  {
    hide MarksOf;
    MarksAppend(entries[..|entries| - 1], entry);
  }

  lemma DeltaMarks(entries: seq<Entry>, text: string)
    ensures Marks(AppendDelta(entries, text)) == Marks(entries) + Letters(text)
  {
    hide Marks, AppendEntry, Letters;
    if text == "" {
      NoLetters();
      assert Marks(entries) + [] == Marks(entries);
    } else if LastStreams(entries) {
      var front, last := entries[..|entries| - 1], entries[|entries| - 1];
      MarksOfReplaced(entries, last.(body := last.body + text));
      LettersConcat(last.body, text);
      assert Marks(front) + (Letters(last.body) + Letters(text)) == (Marks(front) + Letters(last.body)) + Letters(text);
    } else {
      MarksOfAppended(entries, Entry("", AssistantEntry, "Sesame", text, true, "", "", 0));
    }
  }

  lemma NoLetters()
    ensures Letters("") == []
  {
  }

  lemma CloseMarks(entries: seq<Entry>)
    ensures Marks(CloseStream(entries)) == Marks(entries)
  {
    hide Marks, Letters, TrimNewlines;
    if entries != [] && entries[|entries| - 1].kind.AssistantEntry? {
      var last := entries[|entries| - 1];
      MarksOfReplaced(entries, last.(streaming := false, body := TrimNewlines(last.body)));
      TrimmedLetters(last.body);
    }
  }

  lemma CountedMarks(entries: seq<Entry>, kind: EntryKind, title: string, text: string)
    requires kind == NoticeEntry || kind == ErrorEntry
    ensures Marks(AppendCounted(entries, kind, title, text)) == Marks(entries) + Noted(kind, text)
  {
    BlankIffTrimmedEmpty(text);
    hide Marks, AppendEntry, TrimSpace, IsBlank;
    var body := TrimSpace(text);
    if body == "" {
      assert Marks(entries) + [] == Marks(entries);
    } else if entries != [] && entries[|entries| - 1].kind == kind && entries[|entries| - 1].body == body {
      var front, last := entries[..|entries| - 1], entries[|entries| - 1];
      MarksOfReplaced(entries, last.(count := last.count + 1));
      assert Marks(front) + (Repeated(Note(kind, body), last.count) + [Note(kind, body)])
          == (Marks(front) + Repeated(Note(kind, body), last.count)) + [Note(kind, body)];
    } else {
      MarksOfAppended(entries, Entry("", kind, title, body, false, "", "", 0));
      assert Repeated(Note(kind, body), 1) == Repeated(Note(kind, body), 0) + [Note(kind, body)] == [Note(kind, body)];
    }
  }

  lemma {:induction false} MarksOfUpdated(entries: seq<Entry>, i: nat, entry: Entry)
    requires i < |entries| && MarksOf(entry) == MarksOf(entries[i])
    ensures Marks(entries[i := entry]) == Marks(entries)
  {
    hide MarksOf;
    var n := |entries| - 1;
    if i < n {
      MarksOfUpdated(entries[..n], i, entry);
      assert entries[i := entry][..n] == entries[..n][i := entry];
    } else {
      assert entries[i := entry][..n] == entries[..n];
    }
  }

  /** Tool entries hold nothing that is read as text or notice. */
  lemma ToolMarks(v: View, p: ToolPayload, completed: bool)
    requires EntriesOk(v)
    ensures Marks(UpsertTool(v, p, completed).entries) == Marks(v.entries)
  {
    hide EntriesOk, Marks, FirstNonEmpty, Preview, CloseStream, UpsertDisplay;
    CloseMarks(v.entries);
    CloseKeeps(v);
    var args := FirstNonEmpty([p.arguments, p.argsPreview]);
    DisplayMarks(v.(entries := CloseStream(v.entries)),
                 FirstNonEmpty([p.toolName, p.name, "tool"]),
                 if completed then FirstNonEmpty([p.resultPreview, Preview(p.output, 400), args]) else args,
                 FirstNonEmpty([p.toolCallId, p.id]),
                 if !completed then "running" else if p.isError then "failed" else "completed");
  }

  lemma DisplayMarks(v: View, title: string, body: string, callId: string, status: string)
    requires EntriesOk(v)
    ensures Marks(UpsertDisplay(v, title, body, callId, status).entries) == Marks(v.entries)
  {
    hide Marks, AppendEntry, TrimSpace, Decimal;
    if callId in v.toolIndex {
      var i := v.toolIndex[callId];
      MarksOfUpdated(v.entries, i, v.entries[i].(title := title, body := body, status := status));
    } else {
      MarksOfAppended(v.entries, Entry("", ToolEntry, title, body, false, callId, status, 0));
      assert Marks(v.entries) + [] == Marks(v.entries);
    }
  }

  /** The first that is not blank, without surrounding space. */
  lemma {:induction false} FirstIsNotBlank(values: seq<string>)
    ensures (forall i :: 0 <= i < |values| ==> IsBlank(values[i])) ==> FirstNonEmpty(values) == ""
    ensures forall i :: 0 <= i < |values| && !IsBlank(values[i]) && (forall j :: 0 <= j < i ==> IsBlank(values[j])) ==>
              FirstNonEmpty(values) == TrimSpace(values[i])
  {
    hide IsBlank, TrimSpace;
    if values != [] {
      BlankIffTrimmedEmpty(values[0]);
      FirstIsNotBlank(values[1..]);
      var rest := values[1..];
      assert forall i :: 0 <= i < |rest| ==> rest[i] == values[i + 1];
      forall i | 0 <= i < |values| && !IsBlank(values[i]) && (forall j :: 0 <= j < i ==> IsBlank(values[j]))
        ensures FirstNonEmpty(values) == TrimSpace(values[i])
      {
        if i > 0 {
          assert IsBlank(values[0]) && !IsBlank(rest[i - 1]);
          assert forall j :: 0 <= j < i - 1 ==> IsBlank(rest[j]);
        }
      }
    }
  }

  lemma FailureText(a: string, b: string)
    ensures Noted(ErrorEntry, FirstNonEmpty([a, b, "turn failed"]))
            == if !IsBlank(a) then Noted(ErrorEntry, a) else if !IsBlank(b) then Noted(ErrorEntry, b) else [Note(ErrorEntry, "turn failed")]
  {
    var said := "turn failed";
    FixedText();
    TrimmedTwice(a);
    TrimmedTwice(b);
    TrimmedTwice(said);
    FirstIsNotBlank([a, b, said]);
    hide TrimSpace, IsBlank, FirstNonEmpty;
    var values := [a, b, said];
    assert values[0] == a && values[1] == b && values[2] == said;
  }

  lemma FixedText()
    ensures !IsBlank("turn failed") && TrimSpace("turn failed") == "turn failed"
  {
    var said := "turn failed";
    assert !IsSpace(said[0]) && !IsSpace(said[|said| - 1]);
    TrimSpaceTrims(said);
  }

  lemma TrimmedTwice(text: string)
    ensures TrimSpace(TrimSpace(text)) == TrimSpace(text) && (IsBlank(TrimSpace(text)) <==> IsBlank(text))
  {
    TrimSpaceTrims(text);
    TrimSpaceTrims(TrimSpace(text));
    BlankIffTrimmedEmpty(text);
    BlankIffTrimmedEmpty(TrimSpace(text));
    hide TrimSpace, IsBlank;
  }

  lemma EventMarks(codec: Payloads, v: View, e: Event)
    requires EntriesOk(v)
    ensures Marks(Apply(codec, v, e).entries) == Marks(v.entries) + Given(codec, e)
  {
    OneKind(e);
    Applied(codec, v, e);
    hide EntriesOk, Marks, AppendDelta, CloseStream, AppendCounted, UpsertTool, FirstNonEmpty, Letters, Noted, IsBlank, Apply;
    hide StartsTurn, FailsTurn, EndsTurn, TellsQueue, TellsReports, BeginsCall, FinishesCall, Notifies, IsDelta;
    var text, tool := codec.decodeDelta(e.payload), codec.decodeTool(e.payload);
    var failure, notice := codec.decodeFailure(e.payload), codec.decodeNotice(e.payload);
    assert Marks(v.entries) + [] == Marks(v.entries);
    CloseMarks(v.entries);
    if text.Some? {
      DeltaMarks(v.entries, text.value);
    }
    if tool.Some? {
      ToolMarks(v, tool.value, FinishesCall(e));
    }
    if notice.Some? {
      CountedMarks(v.entries, NoticeEntry, "notice", notice.value);
    }
    if failure.Some? {
      FailureText(failure.value.0, failure.value.1);
      CountedMarks(CloseStream(v.entries), ErrorEntry, "error", FirstNonEmpty([failure.value.0, failure.value.1, "turn failed"]));
    }
  }

  /**
   After any events, what is read on the screen is what was read before and what each event gave, in order:
   the letters of every delta, and every notice and error, however they were joined or counted.
   */
  lemma {:induction false} ScreenShowsAllGiven(codec: Payloads, v: View, events: seq<Event>)
    requires EntriesOk(v)
    ensures Marks(ApplyAll(codec, v, events).entries) == Marks(v.entries) + AllGiven(codec, events)
  {
    hide EntriesOk, Apply, ApplyAll, Marks, Given;
    if events == [] {
      NoEvents(codec, v);
      assert Marks(v.entries) + [] == Marks(v.entries);
    } else {
      var front, e := events[..|events| - 1], events[|events| - 1];
      ApplyLast(codec, v, events);
      OneEntryPerCall(codec, v, front);
      ScreenShowsAllGiven(codec, v, front);
      EventMarks(codec, ApplyAll(codec, v, front), e);
      assert (Marks(v.entries) + AllGiven(codec, front)) + Given(codec, e) == Marks(v.entries) + AllGiven(codec, events);
    }
  }

  // -------- tool calls --------

  /** The event says something of the call. */
  ghost predicate TellsCall(codec: Payloads, e: Event, id: string) {
    && (BeginsCall(e) || FinishesCall(e)) && codec.decodeTool(e.payload).Some?
    && var p := codec.decodeTool(e.payload).value; FirstNonEmpty([p.toolCallId, p.id]) == id
  }

  /** The entry shows what the event says: the tool's name, its arguments or its result, and how far it is. */
  ghost predicate ShowsEvent(codec: Payloads, entry: Entry, e: Event)
    requires codec.decodeTool(e.payload).Some?
  {
    var p := codec.decodeTool(e.payload).value;
    && (entry.status == "running" <==> BeginsCall(e))
    && (entry.status == "failed" <==> FinishesCall(e) && p.isError)
    && (entry.status == "completed" <==> FinishesCall(e) && !p.isError)
    && entry.title == FirstNonEmpty([p.toolName, p.name, "tool"])
    && var args := FirstNonEmpty([p.arguments, p.argsPreview]);
       entry.body == if BeginsCall(e) then args else FirstNonEmpty([p.resultPreview, Preview(p.output, 400), args])
  }

  /** The call's entry is the same in both. */
  ghost predicate SameCall(v: View, v': View, id: string) {
    id in v.toolIndex ==>
      && v.toolIndex[id] < |v.entries| && id in v'.toolIndex && v'.toolIndex[id] == v.toolIndex[id]
      && v.toolIndex[id] < |v'.entries| && v'.entries[v.toolIndex[id]] == v.entries[v.toolIndex[id]]
  }

  lemma DeltaLeavesCalls(v: View, text: string, id: string)
    requires EntriesOk(v)
    ensures SameCall(v, v.(entries := AppendDelta(v.entries, text)), id)
  {
    hide TrimSpace, Decimal;
  }

  lemma CloseLeavesCalls(v: View, id: string)
    requires EntriesOk(v)
    ensures SameCall(v, v.(entries := CloseStream(v.entries)), id)
  {
    hide TrimSpace, Decimal, TrimNewlines;
  }

  lemma CountedLeavesCalls(v: View, kind: EntryKind, title: string, text: string, id: string)
    requires EntriesOk(v) && !kind.ToolEntry?
    ensures SameCall(v, v.(entries := AppendCounted(v.entries, kind, title, text)), id)
  {
    hide TrimSpace, Decimal;
  }

  lemma DisplayOfCall(v: View, title: string, body: string, callId: string, status: string, id: string)
    requires EntriesOk(v)
    ensures var v' := UpsertDisplay(v, title, body, callId, status);
            if callId == id && TrimSpace(id) != "" then
              && id in v'.toolIndex && v'.toolIndex[id] < |v'.entries|
              && var entry := v'.entries[v'.toolIndex[id]]; entry.title == title && entry.body == body && entry.status == status
            else SameCall(v, v', id)
  {
    hide TrimSpace, Decimal;
  }

  lemma ToolOfCall(codec: Payloads, v: View, e: Event, completed: bool, id: string)
    requires EntriesOk(v) && codec.decodeTool(e.payload).Some? && TrimSpace(id) != ""
    requires if completed then FinishesCall(e) else BeginsCall(e)
    ensures var p := codec.decodeTool(e.payload).value;
            var v' := UpsertTool(v, p, completed);
            if FirstNonEmpty([p.toolCallId, p.id]) == id then
              id in v'.toolIndex && v'.toolIndex[id] < |v'.entries| && ShowsEvent(codec, v'.entries[v'.toolIndex[id]], e)
            else SameCall(v, v', id)
  {
    hide EntriesOk, FirstNonEmpty, Preview, CloseStream, UpsertDisplay, TrimSpace;
    var p := codec.decodeTool(e.payload).value;
    CloseKeeps(v);
    CloseLeavesCalls(v, id);
    var closed := v.(entries := CloseStream(v.entries));
    var args := FirstNonEmpty([p.arguments, p.argsPreview]);
    DisplayOfCall(closed,
                  FirstNonEmpty([p.toolName, p.name, "tool"]),
                  if completed then FirstNonEmpty([p.resultPreview, Preview(p.output, 400), args]) else args,
                  FirstNonEmpty([p.toolCallId, p.id]),
                  if !completed then "running" else if p.isError then "failed" else "completed", id);
  }

  lemma SameThrough(a: View, b: View, c: View, id: string)
    requires SameCall(a, b, id) && SameCall(b, c, id)
    ensures SameCall(a, c, id)
  {
  }

  lemma SameIfUnchanged(v: View, v': View, id: string)
    requires EntriesOk(v) && v'.entries == v.entries && v'.toolIndex == v.toolIndex
    ensures SameCall(v, v', id)
  {
  }

  lemma EventOfCall(codec: Payloads, v: View, e: Event, id: string)
    requires EntriesOk(v) && TrimSpace(id) != ""
    ensures var v' := Apply(codec, v, e);
            if TellsCall(codec, e, id) then
              id in v'.toolIndex && v'.toolIndex[id] < |v'.entries| && ShowsEvent(codec, v'.entries[v'.toolIndex[id]], e)
            else SameCall(v, v', id)
  {
    OneKind(e);
    Applied(codec, v, e);
    hide EntriesOk, AppendDelta, CloseStream, AppendCounted, UpsertTool, FirstNonEmpty, SameCall, ShowsEvent, TrimSpace, Apply;
    hide StartsTurn, FailsTurn, EndsTurn, TellsQueue, TellsReports, BeginsCall, FinishesCall, Notifies, IsDelta;
    var v' := Apply(codec, v, e);
    var text, failure, notice := codec.decodeDelta(e.payload), codec.decodeFailure(e.payload), codec.decodeNotice(e.payload);
    if (BeginsCall(e) || FinishesCall(e)) && codec.decodeTool(e.payload).Some? {
      ToolOfCall(codec, v, e, FinishesCall(e), id);
    } else if IsDelta(e.typ) && text.Some? {
      DeltaLeavesCalls(v, text.value, id);
    } else if EndsTurn(e) {
      var closed := v.(entries := CloseStream(v.entries));
      CloseKeeps(v);
      CloseLeavesCalls(v, id);
      var shown := v.(entries := v'.entries);
      if FailsTurn(e) && failure.Some? {
        var said := FirstNonEmpty([failure.value.0, failure.value.1, "turn failed"]);
        CountedLeavesCalls(closed, ErrorEntry, "error", said, id);
        SameThrough(v, closed, shown, id);
      }
      SameEntriesSameCall(v, shown, v', id);
    } else if Notifies(e) && notice.Some? {
      CountedLeavesCalls(v, NoticeEntry, "notice", notice.value, id);
    } else {
      SameIfUnchanged(v, v', id);
    }
  }

  lemma SameEntriesSameCall(a: View, b: View, c: View, id: string)
    requires SameCall(a, b, id) && c.entries == b.entries && c.toolIndex == b.toolIndex
    ensures SameCall(a, c, id)
  {
  }

  /** After any events, the entry of a call shows what the last event of that call said. */
  lemma {:induction false} EntryShowsTheLastEvent(codec: Payloads, v: View, events: seq<Event>, id: string, i: nat)
    requires EntriesOk(v) && TrimSpace(id) != "" && i < |events| && TellsCall(codec, events[i], id)
    requires codec.decodeTool(events[i].payload).Some?
    requires forall j :: i < j < |events| ==> !TellsCall(codec, events[j], id)
    ensures var v' := ApplyAll(codec, v, events);
            id in v'.toolIndex && v'.toolIndex[id] < |v'.entries| && ShowsEvent(codec, v'.entries[v'.toolIndex[id]], events[i])
  {
    hide EntriesOk, Apply, ApplyAll, TellsCall, ShowsEvent, TrimSpace, FirstNonEmpty;
    var n := |events| - 1;
    var front, e := events[..n], events[n];
    ApplyLast(codec, v, events);
    OneEntryPerCall(codec, v, front);
    EventOfCall(codec, ApplyAll(codec, v, front), e, id);
    if i < n {
      assert front[i] == events[i] && forall j :: i < j < n ==> front[j] == events[j];
      EntryShowsTheLastEvent(codec, v, front, id, i);
    }
  }

  // -------- the entry that streams --------

  /** The text of the deltas since an event last closed the entry they go to. */
  function OpenText(codec: Payloads, events: seq<Event>): string {
    if events == [] then ""
    else
      var e, before := events[|events| - 1], OpenText(codec, events[..|events| - 1]);
      if IsDelta(e.typ) then before + codec.decodeDelta(e.payload).GetOr("")
      else if EndsTurn(e) || ((BeginsCall(e) || FinishesCall(e)) && codec.decodeTool(e.payload).Some?) then ""
      else if Notifies(e) && !IsBlank(codec.decodeNotice(e.payload).GetOr("")) then ""
      else before
  }

  lemma DeltaStreams(entries: seq<Entry>, text: string)
    ensures var after := AppendDelta(entries, text);
            && (text == "" ==> after == entries)
            && (text != "" ==> LastStreams(after)
                               && after[|after| - 1].body == (if LastStreams(entries) then entries[|entries| - 1].body else "") + text)
  {
    hide Decimal;
  }

  lemma ClosedStreams(entries: seq<Entry>, kind: EntryKind, title: string, text: string)
    requires !kind.AssistantEntry?
    ensures !LastStreams(CloseStream(entries))
    ensures !IsBlank(text) ==> !LastStreams(AppendCounted(entries, kind, title, text))
    ensures IsBlank(text) ==> AppendCounted(entries, kind, title, text) == entries
    ensures !LastStreams(AppendCounted(CloseStream(entries), kind, title, text))
  {
    BlankIffTrimmedEmpty(text);
    hide Decimal, TrimSpace, TrimNewlines, IsBlank;
  }

  lemma ToolStreams(v: View, p: ToolPayload, completed: bool)
    requires EntriesOk(v)
    ensures !LastStreams(UpsertTool(v, p, completed).entries)
  {
    hide EntriesOk, FirstNonEmpty, Preview, CloseStream, UpsertDisplay, LastStreams;
    CloseKeeps(v);
    ClosedStreams(v.entries, NoticeEntry, "", "");
    var args := FirstNonEmpty([p.arguments, p.argsPreview]);
    DisplayStreams(v.(entries := CloseStream(v.entries)),
                   FirstNonEmpty([p.toolName, p.name, "tool"]),
                   if completed then FirstNonEmpty([p.resultPreview, Preview(p.output, 400), args]) else args,
                   FirstNonEmpty([p.toolCallId, p.id]),
                   if !completed then "running" else if p.isError then "failed" else "completed");
  }

  lemma DisplayStreams(v: View, title: string, body: string, callId: string, status: string)
    requires EntriesOk(v) && !LastStreams(v.entries)
    ensures !LastStreams(UpsertDisplay(v, title, body, callId, status).entries)
  {
    hide TrimSpace, Decimal;
  }

  /** The last entry streams exactly if there is such a text, which it holds. */
  ghost predicate Streams(entries: seq<Entry>, text: string) {
    && (LastStreams(entries) <==> text != "")
    && (text != "" ==> entries[|entries| - 1].body == text)
  }

  lemma OpenStep(codec: Payloads, events: seq<Event>, e: Event)
    ensures OpenText(codec, events + [e])
            == if IsDelta(e.typ) then OpenText(codec, events) + codec.decodeDelta(e.payload).GetOr("")
               else if EndsTurn(e) || ((BeginsCall(e) || FinishesCall(e)) && codec.decodeTool(e.payload).Some?) then ""
               else if Notifies(e) && !IsBlank(codec.decodeNotice(e.payload).GetOr("")) then ""
               else OpenText(codec, events)
  {
    hide IsDelta, EndsTurn, BeginsCall, FinishesCall, Notifies, IsBlank;
    assert (events + [e])[..|events|] == events;
  }

  lemma EventStreams(codec: Payloads, v: View, events: seq<Event>, e: Event)
    requires EntriesOk(v) && Streams(v.entries, OpenText(codec, events))
    ensures Streams(Apply(codec, v, e).entries, OpenText(codec, events + [e]))
  {
    OpenStep(codec, events, e);
    OneKind(e);
    Applied(codec, v, e);
    hide OpenText, EntriesOk, AppendDelta, CloseStream, AppendCounted, UpsertTool, FirstNonEmpty, Apply, LastStreams, IsBlank;
    hide StartsTurn, FailsTurn, EndsTurn, TellsQueue, TellsReports, BeginsCall, FinishesCall, Notifies, IsDelta;
    if IsDelta(e.typ) {
      DeltaStreams(v.entries, codec.decodeDelta(e.payload).GetOr(""));
    } else if BeginsCall(e) || FinishesCall(e) {
      if codec.decodeTool(e.payload).Some? {
        ToolStreams(v, codec.decodeTool(e.payload).value, FinishesCall(e));
      }
    } else if EndsTurn(e) {
      EndStreams(codec, v, e);
    } else if Notifies(e) {
      NothingIsBlank();
      ClosedStreams(v.entries, NoticeEntry, "notice", codec.decodeNotice(e.payload).GetOr(""));
    }
  }

  lemma EndStreams(codec: Payloads, v: View, e: Event)
    requires EndsTurn(e)
    ensures !LastStreams(Apply(codec, v, e).entries)
  {
    OneKind(e);
    Applied(codec, v, e);
    hide AppendDelta, CloseStream, AppendCounted, UpsertTool, FirstNonEmpty, Apply, LastStreams, IsBlank;
    hide StartsTurn, FailsTurn, EndsTurn, TellsQueue, TellsReports, BeginsCall, FinishesCall, Notifies, IsDelta;
    var p := codec.decodeFailure(e.payload).GetOr(("", ""));
    ClosedStreams(v.entries, ErrorEntry, "error", FirstNonEmpty([p.0, p.1, "turn failed"]));
  }

  lemma NothingIsBlank()
    ensures IsBlank("")
  {
  }

  /**
   After any events on a fresh screen, the last entry streams exactly if text has come since an event last
   closed it, and then holds exactly that text.
   */
  lemma {:induction false} LastEntryStreamsOpenText(codec: Payloads, v: View, events: seq<Event>)
    requires EntriesOk(v) && !LastStreams(v.entries)
    ensures Streams(ApplyAll(codec, v, events).entries, OpenText(codec, events))
  {
    hide EntriesOk, Apply, ApplyAll, LastStreams;
    if events == [] {
      NoEvents(codec, v);
    } else {
      var front, e := events[..|events| - 1], events[|events| - 1];
      ApplyLast(codec, v, events);
      OneEntryPerCall(codec, v, front);
      LastEntryStreamsOpenText(codec, v, front);
      EventStreams(codec, ApplyAll(codec, v, front), front, e);
      assert front + [e] == events;
    }
  }

  // -------- titles and previews --------

  /** Assistant, notice and error entries have their titles. */
  ghost predicate Titled(entries: seq<Entry>) {
    forall i :: 0 <= i < |entries| ==>
      && (entries[i].kind.AssistantEntry? ==> entries[i].title == "Sesame")
      && (entries[i].kind.NoticeEntry? ==> entries[i].title == "notice")
      && (entries[i].kind.ErrorEntry? ==> entries[i].title == "error")
  }

  lemma TitledByEach(v: View, text: string)
    requires Titled(v.entries)
    ensures Titled(AppendDelta(v.entries, text)) && Titled(CloseStream(v.entries))
    ensures Titled(AppendCounted(v.entries, NoticeEntry, "notice", text)) && Titled(AppendCounted(v.entries, ErrorEntry, "error", text))
  {
    hide TrimSpace, Decimal, TrimNewlines;
  }

  lemma TitledByTool(v: View, p: ToolPayload, completed: bool)
    requires EntriesOk(v) && Titled(v.entries)
    ensures Titled(UpsertTool(v, p, completed).entries)
  {
    hide EntriesOk, FirstNonEmpty, Preview, CloseStream, UpsertDisplay, Titled;
    CloseKeeps(v);
    TitledByEach(v, "");
    var args := FirstNonEmpty([p.arguments, p.argsPreview]);
    TitledByDisplay(v.(entries := CloseStream(v.entries)),
                    FirstNonEmpty([p.toolName, p.name, "tool"]),
                    if completed then FirstNonEmpty([p.resultPreview, Preview(p.output, 400), args]) else args,
                    FirstNonEmpty([p.toolCallId, p.id]),
                    if !completed then "running" else if p.isError then "failed" else "completed");
  }

  lemma TitledByDisplay(v: View, title: string, body: string, callId: string, status: string)
    requires EntriesOk(v) && Titled(v.entries)
    ensures Titled(UpsertDisplay(v, title, body, callId, status).entries)
  {
    hide TrimSpace, Decimal;
  }

  lemma {:induction false} TitlesStay(codec: Payloads, v: View, events: seq<Event>)
    requires EntriesOk(v) && Titled(v.entries)
    ensures Titled(ApplyAll(codec, v, events).entries)
  {
    hide EntriesOk, Apply, ApplyAll, Titled, AppendDelta, CloseStream, AppendCounted, UpsertTool, FirstNonEmpty, IsDelta;
    hide StartsTurn, FailsTurn, EndsTurn, TellsQueue, TellsReports, BeginsCall, FinishesCall, Notifies;
    if events == [] {
      NoEvents(codec, v);
    } else {
      var front, e := events[..|events| - 1], events[|events| - 1];
      ApplyLast(codec, v, events);
      OneEntryPerCall(codec, v, front);
      TitlesStay(codec, v, front);
      var w := ApplyAll(codec, v, front);
      Applied(codec, w, e);
      var failure := codec.decodeFailure(e.payload);
      TitledByEach(w, codec.decodeDelta(e.payload).GetOr(""));
      TitledByEach(w, codec.decodeNotice(e.payload).GetOr(""));
      if codec.decodeTool(e.payload).Some? {
        TitledByTool(w, codec.decodeTool(e.payload).value, FinishesCall(e));
      }
      if failure.Some? {
        TitledByEach(w.(entries := CloseStream(w.entries)), FirstNonEmpty([failure.value.0, failure.value.1, "turn failed"]));
      }
    }
  }

  /** A preview is the trimmed text, or its first characters followed by dots. */
  lemma PreviewKeepsTheBeginning(text: string, max: int)
    requires max > 0
    ensures var said, r := TrimSpace(text), Preview(text, max);
            if |said| <= max then r == said else |r| == max + 3 && r[..max] == said[..max] && r[max..] == "..."
  {
    hide TrimSpace;
  }
}
