/** One agent turn: stream, store, run the tools, store the results (internal/v2/agent/agent.go). */
module AgentLoop {
  import opened Basics
  import opened Text
  import opened Transcript
  import opened ModelAdapter
  import opened MessageStore

  /** generatedId is the id made up for a call that comes without one. */
  datatype StreamEvent =
    | TextDelta(text: string)
    | ThinkingDelta(text: string)
    | ThinkingSignature(signature: string)
    | ToolCallEnd(id: string, name: string, args: string, generatedId: string)
    | Bookkeeping       // tool call start and delta, usage, response metadata, message end
    | Unsupported

  datatype Call = Call(id: string, name: string, args: string)

  datatype Heard = Heard(items: seq<Item>, calls: seq<Call>, thinking: string, signature: string)

  const Silence := Heard([], [], "", "")

  function Flush(h: Heard): Heard {
    if h.thinking == "" && IsBlank(h.signature) then h.(signature := "")
    else h.(items := h.items + [AssistantThinking(h.thinking, h.signature)], thinking := "", signature := "")
  }

  function AddText(items: seq<Item>, text: string): seq<Item> {
    if items != [] && items[|items| - 1].AssistantText? then
      items[..|items| - 1] + [AssistantText(items[|items| - 1].text + text)]
    else items + [AssistantText(text)]
  }

  function CallId(e: StreamEvent): string
    requires e.ToolCallEnd?
  {
    if IsBlank(e.id) then e.generatedId else e.id
  }

  /** What one event adds to what has been heard; None for an event the loop does not know. */
  function Hear(h: Heard, e: StreamEvent): Option<Heard> {
    match e
    case ThinkingDelta(text) => Some(h.(thinking := h.thinking + text))
    case ThinkingSignature(signature) => Some(Flush(h.(signature := signature)))
    case TextDelta(text) =>
      var f := Flush(h);
      Some(if text == "" then f else f.(items := AddText(f.items, text)))
    case ToolCallEnd(_, name, args, _) =>
      var f := Flush(h);
      Some(f.(items := f.items + [ToolCall(CallId(e), name, args)], calls := f.calls + [Call(CallId(e), name, args)]))
    case Bookkeeping => Some(Flush(h))
    case Unsupported => None
  }

  function HearAll(events: seq<StreamEvent>): Option<Heard> {
    if events == [] then Some(Silence)
    else
      var before := HearAll(events[..|events| - 1]);
      if before.None? then None else Hear(before.value, events[|events| - 1])
  }

  /** A stream that ends well: its assistant items and the tool calls among them. */
  function Spoken(events: seq<StreamEvent>): Option<Heard> {
    var h := HearAll(events);
    if h.None? then None else Some(Flush(h.value))
  }

  method StreamOnce(events: seq<StreamEvent>, ok: bool) returns (r: Option<(seq<Item>, seq<Call>)>)
    ensures r == if ok && Spoken(events).Some? then Some((Spoken(events).value.items, Spoken(events).value.calls)) else None
  {
    hide Flush, Hear;
    var items: seq<Item>, calls: seq<Call>, thinking, signature := [], [], "", "";
    for i := 0 to |events|
      invariant HearAll(events[..i]) == Some(Heard(items, calls, thinking, signature))
    {
      assert events[..i + 1][..i] == events[..i];
      var next := HearEvent(Heard(items, calls, thinking, signature), events[i]);
      if next.None? {
        DeafForever(events, i + 1);
        return None;
      }
      items, calls, thinking, signature := next.value.items, next.value.calls, next.value.thinking, next.value.signature;
    }
    assert events[..|events|] == events;
    var flushed := FlushThinking(Heard(items, calls, thinking, signature));
    if !ok {
      return None;
    }
    return Some((flushed.items, flushed.calls));
  }

  method FlushThinking(h: Heard) returns (f: Heard)
    ensures f == Flush(h)
  {
    var items, thinking, signature := h.items, h.thinking, h.signature;
    if |thinking| == 0 && IsBlank(signature) {
      signature := "";
    } else {
      items := items + [AssistantThinking(thinking, signature)];
      thinking, signature := "", "";
    }
    return Heard(items, h.calls, thinking, signature);
  }

  method HearEvent(before: Heard, e: StreamEvent) returns (r: Option<Heard>)
    ensures r == Hear(before, e)
  {
    hide Flush, IsBlank;
    var h := before;
    if !e.ThinkingDelta? && !e.ThinkingSignature? {
      h := FlushThinking(h);
    }
    match e {
      case TextDelta(text) =>
        if text != "" {
          h := h.(items := AddText(h.items, text));
        }
      case ThinkingDelta(text) => h := h.(thinking := h.thinking + text);
      case ThinkingSignature(signature) => h := FlushThinking(h.(signature := signature));
      case ToolCallEnd(_, name, args, _) =>
        var id := CallId(e);
        h := h.(items := h.items + [ToolCall(id, name, args)], calls := h.calls + [Call(id, name, args)]);
      case Bookkeeping =>
      case Unsupported => return None;
    }
    return Some(h);
  }

  lemma DeafForever(events: seq<StreamEvent>, n: nat)
    requires n <= |events| && HearAll(events[..n]).None?
    ensures HearAll(events).None?
    decreases |events|
  {
    if n == |events| {
      assert events[..n] == events;
    } else {
      assert events[..|events| - 1][..n] == events[..n];
      DeafForever(events[..|events| - 1], n);
    }
  }

  // -------- what a stream is made of --------

  predicate IsSpeech(item: Item) {
    item.AssistantText? || item.AssistantThinking? || item.ToolCall?
  }

  function CallsIn(items: seq<Item>): seq<Call> {
    if items == [] then []
    else
      var last := items[|items| - 1];
      CallsIn(items[..|items| - 1]) + if last.ToolCall? then [Call(last.id, last.name, last.args)] else []
  }

  /** The calls handed to the tools are exactly the call items, in order. */
  lemma CallsAreTheCallItems(events: seq<StreamEvent>)
    requires Spoken(events).Some?
    ensures Spoken(events).value.calls == CallsIn(Spoken(events).value.items)
    ensures forall i :: 0 <= i < |Spoken(events).value.items| ==> IsSpeech(Spoken(events).value.items[i])
  {
    HeardCalls(events);
    FlushKeepsCalls(HearAll(events).value);
  }

  ghost predicate CallsMatch(h: Heard) {
    h.calls == CallsIn(h.items) && forall i :: 0 <= i < |h.items| ==> IsSpeech(h.items[i])
  }

  lemma FlushKeepsCalls(h: Heard)
    requires CallsMatch(h)
    ensures CallsMatch(Flush(h))
  {
    hide IsBlank;
    var f := Flush(h);
    if |f.items| > |h.items| {
      assert f.items[..|h.items|] == h.items;
    }
  }

  lemma {:induction false} HeardCalls(events: seq<StreamEvent>)
    requires HearAll(events).Some?
    ensures CallsMatch(HearAll(events).value)
  {
    assert CallsMatch(Silence);
    hide Hear, CallsMatch;
    if events != [] {
      HeardCalls(events[..|events| - 1]);
      HearKeepsCalls(HearAll(events[..|events| - 1]).value, events[|events| - 1]);
    }
  }

  lemma HearKeepsCalls(before: Heard, e: StreamEvent)
    requires CallsMatch(before) && Hear(before, e).Some?
    ensures CallsMatch(Hear(before, e).value)
  {
    hide Flush, IsBlank, AddText;
    FlushKeepsCalls(before);
    var f := Flush(before);
    match e
    case TextDelta(text) => TextKeepsCalls(f.items, text);
    case ThinkingSignature(signature) => FlushKeepsCalls(before.(signature := signature));
    case ToolCallEnd(_, name, args, _) =>
      assert (f.items + [ToolCall(CallId(e), name, args)])[..|f.items|] == f.items;
    case _ =>
  }

  lemma TextKeepsCalls(items: seq<Item>, text: string)
    ensures CallsIn(AddText(items, text)) == CallsIn(items)
    ensures forall item :: item in AddText(items, text) ==> item in items || item.AssistantText?
  {
    var added := AddText(items, text);
    assert |added| > 0 && added[..|added| - 1] <= items;
  }

  // -------- executing the calls --------

  /** The stored results: one for each call, in order, whatever the tool did. */
  function ResultsOf(calls: seq<Call>, outputs: nat -> string, turnId: string): (r: seq<Message>)
    ensures |r| == |calls|
    ensures forall i :: 0 <= i < |r| ==> r[i] == Message("", turnId, "tool", outputs(i), calls[i].id, 0)
  {
    seq(|calls|, i requires 0 <= i < |calls| => Message("", turnId, "tool", outputs(i), calls[i].id, 0))
  }

  method ExecuteToolCalls(calls: seq<Call>, outputs: nat -> string, turnId: string) returns (messages: seq<Message>)
    ensures messages == ResultsOf(calls, outputs, turnId)
  {
    messages := [];
    for i := 0 to |calls|
      invariant messages == ResultsOf(calls, outputs, turnId)[..i]
    {
      messages := messages + [Message("", turnId, "tool", outputs(i), calls[i].id, 0)];
    }
  }

  // -------- when one step's messages are a complete exchange --------

  function Key(c: Call): string {
    TrimSpace(c.id)
  }

  function Keys(calls: seq<Call>): set<string> {
    if calls == [] then {} else Keys(calls[..|calls| - 1]) + {Key(calls[|calls| - 1])}
  }

  ghost predicate KeysDistinct(calls: seq<Call>) {
    forall i, j :: 0 <= i < j < |calls| ==> Key(calls[i]) != Key(calls[j])
  }

  ghost predicate KeysPresent(calls: seq<Call>) {
    forall i :: 0 <= i < |calls| ==> Key(calls[i]) != ""
  }

  /** Content that comes, anywhere, behind a call. */
  ghost predicate Splits(items: seq<Item>) {
    exists i, j :: 0 <= i < j < |items| && items[i].ToolCall? && items[j].IsContent()
  }

  /**
   What a step's speech has to look like: its calls are named, their ids differ
   after trimming, and no text or thought that gets stored stands behind a call.
   */
  ghost predicate WellShaped(codec: Codec, items: seq<Item>) {
    && (forall i :: 0 <= i < |CallsIn(items)| ==> !IsBlank(CallsIn(items)[i].name))
    && KeysDistinct(CallsIn(items))
    && !Splits(ReadBackAll(codec, items))
  }

  function Named(calls: seq<Call>): (n: seq<Call>)
    ensures |n| <= |calls|
    ensures |n| == |calls| <==> forall i :: 0 <= i < |calls| ==> !IsBlank(calls[i].name)
    ensures |n| == |calls| ==> n == calls
  {
    if calls == [] then []
    else
      var last := calls[|calls| - 1];
      Named(calls[..|calls| - 1]) + if IsBlank(last.name) then [] else [last]
  }

  /** Speech in which every call has an id. */
  ghost predicate Speech(items: seq<Item>) {
    forall i :: 0 <= i < |items| ==> IsSpeech(items[i]) && (items[i].ToolCall? ==> !IsBlank(items[i].id))
  }

  lemma ReadBackKind(codec: Codec, item: Item)
    requires IsSpeech(item) && (item.ToolCall? ==> !IsBlank(item.id))
    ensures item.ToolCall? && !IsBlank(item.name) ==> ReadBack(codec, item) == Some(item)
    ensures !(item.ToolCall? && !IsBlank(item.name)) && ReadBack(codec, item).Some? ==> ReadBack(codec, item).value.IsContent()
  {
    hide IsBlank;
  }

  /** Reading back keeps the named calls as calls. */
  lemma {:induction false} ReadBackCalls(codec: Codec, items: seq<Item>)
    requires Speech(items)
    ensures CallsIn(ReadBackAll(codec, items)) == Named(CallsIn(items))
  {
    hide IsBlank, ReadBack;
    if items != [] {
      var front, last := items[..|items| - 1], items[|items| - 1];
      ReadBackCalls(codec, front);
      CallsSplit(items);
      ReadBackSplit(codec, items);
      ReadBackCallsStep(codec, ReadBackAll(codec, front), CallsIn(front), last);
    }
  }

  lemma ReadBackCallsStep(codec: Codec, kept: seq<Item>, calls: seq<Call>, last: Item)
    requires CallsIn(kept) == Named(calls)
    requires IsSpeech(last) && (last.ToolCall? ==> !IsBlank(last.id))
    ensures var back := ReadBack(codec, last);
            CallsIn(if back.Some? then kept + [back.value] else kept)
            == Named(if last.ToolCall? then calls + [Call(last.id, last.name, last.args)] else calls)
  {
    hide IsBlank, ReadBack, CallsIn, Named;
    ReadBackKind(codec, last);
    if last.ToolCall? {
      NamedAppend(calls, Call(last.id, last.name, last.args));
    }
    if ReadBack(codec, last).Some? {
      CallsAppend(kept, ReadBack(codec, last).value);
    }
  }

  /** The rest of what is read back is content. */
  lemma {:induction false} ReadBackKinds(codec: Codec, items: seq<Item>)
    requires Speech(items)
    ensures forall item :: item in ReadBackAll(codec, items) ==> item.IsContent() || (item.ToolCall? && !IsBlank(item.id))
  {
    hide IsBlank, ReadBack;
    if items != [] {
      ReadBackKinds(codec, items[..|items| - 1]);
      ReadBackSplit(codec, items);
      ReadBackKind(codec, items[|items| - 1]);
    }
  }

  lemma ReadBackSplit(codec: Codec, items: seq<Item>)
    requires items != []
    ensures var front, last := items[..|items| - 1], ReadBack(codec, items[|items| - 1]);
            ReadBackAll(codec, items) == if last.Some? then ReadBackAll(codec, front) + [last.value] else ReadBackAll(codec, front)
  {
    hide ReadBack;
  }

  lemma CallsAppend(items: seq<Item>, item: Item)
    ensures CallsIn(items + [item]) == if item.ToolCall? then CallsIn(items) + [Call(item.id, item.name, item.args)] else CallsIn(items)
  {
    assert (items + [item])[..|items|] == items;
  }

  lemma CallsSplit(items: seq<Item>)
    requires items != []
    ensures var last := items[|items| - 1];
            var before := CallsIn(items[..|items| - 1]);
            CallsIn(items) == if last.ToolCall? then before + [Call(last.id, last.name, last.args)] else before
  {
  }

  lemma NamedAppend(calls: seq<Call>, c: Call)
    ensures Named(calls + [c]) == if IsBlank(c.name) then Named(calls) else Named(calls) + [c]
  {
    hide IsBlank;
    assert (calls + [c])[..|calls|] == calls;
  }

  lemma KeysNonempty(calls: seq<Call>)
    ensures Keys(calls) == {} <==> calls == []
  {
    hide TrimSpace;
  }

  lemma CallsExist(items: seq<Item>)
    ensures CallsIn(items) != [] <==> exists i :: 0 <= i < |items| && items[i].ToolCall?
  {
    if items != [] {
      CallsExist(items[..|items| - 1]);
    }
  }

  /** Content and calls open the calls' ids, unless content stands behind a call. */
  lemma {:induction false} SpeechOpens(items: seq<Item>)
    requires forall i :: 0 <= i < |items| ==> items[i].IsContent() || (items[i].ToolCall? && TrimSpace(items[i].id) != "")
    ensures OpenFrom({}, items) == if Splits(items) then None else Some(Keys(CallsIn(items)))
  {
    hide TrimSpace;
    if items != [] {
      var front, last := items[..|items| - 1], items[|items| - 1];
      SpeechOpens(front);
      CallsExist(front);
      KeysNonempty(CallsIn(front));
      SplitsStep(items);
      if last.ToolCall? {
        var calls, c := CallsIn(front), Call(last.id, last.name, last.args);
        assert (calls + [c])[..|calls|] == calls;
      }
    }
  }

  lemma SplitsStep(items: seq<Item>)
    requires items != []
    ensures Splits(items) <==>
              || Splits(items[..|items| - 1])
              || (items[|items| - 1].IsContent() && exists i :: 0 <= i < |items| - 1 && items[i].ToolCall?)
  {
    var front := items[..|items| - 1];
    if Splits(front) {
      var i, j :| 0 <= i < j < |front| && front[i].ToolCall? && front[j].IsContent();
      assert items[i].ToolCall? && items[j].IsContent();
    }
    if Splits(items) {
      var i, j :| 0 <= i < j < |items| && items[i].ToolCall? && items[j].IsContent();
      assert j < |front| ==> front[i].ToolCall? && front[j].IsContent();
    }
  }

  function ResultItems(calls: seq<Call>, outputs: nat -> string): (r: seq<Item>)
    ensures |r| == |calls|
    ensures forall i :: 0 <= i < |r| ==> r[i] == ToolResult(Some(ToolOutput(calls[i].id, outputs(i), false)))
  {
    seq(|calls|, i requires 0 <= i < |calls| => ToolResult(Some(ToolOutput(calls[i].id, outputs(i), false))))
  }

  /** Results close the ids they carry; each has to be open and can be closed once. */
  lemma {:induction false} ResultsClose(open: set<string>, calls: seq<Call>, outputs: nat -> string)
    requires KeysPresent(calls)
    ensures OpenFrom(open, ResultItems(calls, outputs)) ==
              if KeysDistinct(calls) && Keys(calls) <= open then Some(open - Keys(calls)) else None
  {
    hide TrimSpace;
    if calls != [] {
      var front, last := calls[..|calls| - 1], calls[|calls| - 1];
      ResultsClose(open, front, outputs);
      var results := ResultItems(front, outputs);
      var result := ToolResult(Some(ToolOutput(last.id, outputs(|front|), false)));
      assert ResultItems(calls, outputs) == results + [result];
      OpenAppend(open, results, result);
      DistinctStep(calls);
      hide KeysDistinct, OpenFrom, ResultItems;
      assert Keys(calls) == Keys(front) + {Key(last)};
      assert open - Keys(calls) == (open - Keys(front)) - {Key(last)};
    } else {
      assert ResultItems(calls, outputs) == [];
      assert open - Keys(calls) == open;
    }
  }

  lemma DistinctStep(calls: seq<Call>)
    requires calls != []
    ensures var front, last := calls[..|calls| - 1], calls[|calls| - 1];
            KeysDistinct(calls) <==> KeysDistinct(front) && Key(last) !in Keys(front)
  {
    hide TrimSpace;
    var front, last := calls[..|calls| - 1], calls[|calls| - 1];
    KeysMeaning(front);
    if KeysDistinct(front) && Key(last) !in Keys(front) {
      forall i, j | 0 <= i < j < |calls| ensures Key(calls[i]) != Key(calls[j]) {
        assert calls[i] == front[i];
      }
    }
  }

  lemma KeysMeaning(calls: seq<Call>)
    ensures forall k :: k in Keys(calls) <==> exists i :: 0 <= i < |calls| && Key(calls[i]) == k
  {
    hide TrimSpace;
    if calls != [] {
      var front, last := calls[..|calls| - 1], calls[|calls| - 1];
      KeysMeaning(front);
      forall k ensures k in Keys(calls) <==> exists i :: 0 <= i < |calls| && Key(calls[i]) == k {
        if k in Keys(front) {
          var i :| 0 <= i < |front| && Key(front[i]) == k;
          assert Key(calls[i]) == k;
        }
        if k == Key(last) {
          assert Key(calls[|calls| - 1]) == k;
        }
      }
    }
  }

  lemma KeysSize(calls: seq<Call>)
    ensures |Keys(calls)| <= |calls|
    ensures KeysDistinct(calls) ==> |Keys(calls)| == |calls|
  {
    hide TrimSpace;
    if calls != [] {
      var front := calls[..|calls| - 1];
      KeysSize(front);
      KeysMeaning(front);
    }
  }

  // -------- one step --------

  /** What a step's assistant items and the results of its calls read back as. */
  function ExchangeItems(codec: Codec, items: seq<Item>, outputs: nat -> string): seq<Item> {
    ReadBackAll(codec, items) + ResultItems(CallsIn(items), outputs)
  }

  /** The messages a step stores, speech and results, are a complete exchange exactly when the speech is well shaped. */
  lemma StepIsCompleteExchange(codec: Codec, items: seq<Item>, outputs: nat -> string)
    requires Speech(items)
    ensures OpenFrom({}, ExchangeItems(codec, items, outputs)) ==
              if CallsIn(items) == [] || WellShaped(codec, items) then Some({}) else None
  {
    hide OpenFrom, ReadBackAll, CallsIn, Named, Keys, KeysDistinct, KeysPresent, Splits, ResultItems, IsBlank;
    var kept, calls := ReadBackAll(codec, items), CallsIn(items);
    KeptOpens(codec, items);
    PresentKeys(items);
    OpenConcat({}, kept, ResultItems(calls, outputs));
    ResultsClose(Keys(Named(calls)), calls, outputs);
    AllNamedIfCovered(calls);
    assert Keys(calls) - Keys(calls) == {};
    if calls == [] {
      NoCallsNoSplit(codec, items);
      KeysNonempty(calls);
      AllDistinct(calls);
    }
  }

  lemma AllDistinct(calls: seq<Call>)
    requires calls == []
    ensures KeysDistinct(calls)
  {
  }

  lemma KeptOpens(codec: Codec, items: seq<Item>)
    requires Speech(items)
    ensures OpenFrom({}, ReadBackAll(codec, items)) ==
              if Splits(ReadBackAll(codec, items)) then None else Some(Keys(Named(CallsIn(items))))
  {
    hide IsBlank, TrimSpace, ReadBack, Keys, Named, Splits;
    var kept := ReadBackAll(codec, items);
    ReadBackKinds(codec, items);
    ReadBackCalls(codec, items);
    forall i | 0 <= i < |kept| ensures kept[i].IsContent() || (kept[i].ToolCall? && TrimSpace(kept[i].id) != "") {
      assert kept[i] in kept;
      if kept[i].ToolCall? {
        BlankIffTrimmedEmpty(kept[i].id);
      }
    }
    SpeechOpens(kept);
  }

  lemma PresentKeys(items: seq<Item>)
    requires Speech(items)
    ensures KeysPresent(CallsIn(items))
  {
    hide IsBlank, TrimSpace;
    if items != [] {
      var last := items[|items| - 1];
      PresentKeys(items[..|items| - 1]);
      if last.ToolCall? {
        BlankIffTrimmedEmpty(last.id);
      }
    }
  }

  /** If distinct ids are all among those of the named calls, every call is named. */
  lemma AllNamedIfCovered(calls: seq<Call>)
    ensures Named(calls) == calls <==> forall i :: 0 <= i < |calls| ==> !IsBlank(calls[i].name)
    ensures KeysDistinct(calls) && Keys(calls) <= Keys(Named(calls)) ==> Named(calls) == calls
  {
    hide IsBlank, TrimSpace;
    KeysSize(calls);
    KeysSize(Named(calls));
    if KeysDistinct(calls) && Keys(calls) <= Keys(Named(calls)) {
      SubsetSize(Keys(calls), Keys(Named(calls)));
    }
  }

  lemma SubsetSize<T>(a: set<T>, b: set<T>)
    requires a <= b
    ensures |a| <= |b|
  {
    assert b == a + (b - a);
  }

  lemma NoCallsNoSplit(codec: Codec, items: seq<Item>)
    requires Speech(items) && CallsIn(items) == []
    ensures !Splits(ReadBackAll(codec, items))
  {
    hide IsBlank, ReadBack;
    ReadBackCalls(codec, items);
    CallsExist(ReadBackAll(codec, items));
  }

  // -------- streams whose speech is well shaped --------

  /** No text or thinking follows a finished tool call. */
  ghost predicate QuietAfterCalls(events: seq<StreamEvent>) {
    forall i, j :: 0 <= i < j < |events| && events[i].ToolCallEnd? ==>
      !events[j].TextDelta? && !events[j].ThinkingDelta? && !events[j].ThinkingSignature?
  }

  ghost predicate GeneratedIdsOk(events: seq<StreamEvent>) {
    forall i :: 0 <= i < |events| && events[i].ToolCallEnd? ==> !IsBlank(events[i].generatedId)
  }

  ghost predicate CallsLast(items: seq<Item>) {
    forall i, j :: 0 <= i < j < |items| && items[i].ToolCall? ==> items[j].ToolCall?
  }

  /** Nothing is left to flush once a call has been heard, and calls come last. */
  ghost predicate QuietSoFar(h: Heard, called: bool) {
    && CallsLast(h.items)
    && ((exists i :: 0 <= i < |h.items| && h.items[i].ToolCall?) <==> called)
    && (called ==> h.thinking == "" && h.signature == "")
  }

  lemma {:induction false} QuietStreamsCallLast(events: seq<StreamEvent>)
    requires QuietAfterCalls(events) && HearAll(events).Some?
    ensures QuietSoFar(HearAll(events).value, exists i :: 0 <= i < |events| && events[i].ToolCallEnd?)
  {
    hide Hear, QuietSoFar, IsBlank;
    if events == [] {
      QuietSilence();
    } else {
      var front, e := events[..|events| - 1], events[|events| - 1];
      var before := exists i :: 0 <= i < |front| && front[i].ToolCallEnd?;
      QuietStreamsCallLast(front);
      if before {
        var i :| 0 <= i < |front| && front[i].ToolCallEnd?;
        assert events[i].ToolCallEnd?;
      }
      QuietStep(HearAll(front).value, before, e);
      assert (exists i :: 0 <= i < |events| && events[i].ToolCallEnd?) <==> before || e.ToolCallEnd?;
    }
  }

  lemma QuietSilence()
    ensures QuietSoFar(Silence, false)
  {
  }

  lemma QuietStep(h: Heard, called: bool, e: StreamEvent)
    requires QuietSoFar(h, called) && Hear(h, e).Some?
    requires called ==> !e.TextDelta? && !e.ThinkingDelta? && !e.ThinkingSignature?
    ensures QuietSoFar(Hear(h, e).value, called || e.ToolCallEnd?)
  {
    assert IsBlank("");
    hide IsBlank;
    var h' := Hear(h, e).value;
    if e.ToolCallEnd? {
      assert h'.items[|h'.items| - 1].ToolCall?;
    }
  }

  lemma {:induction false} HeardIds(events: seq<StreamEvent>)
    requires GeneratedIdsOk(events) && HearAll(events).Some?
    ensures Speech(HearAll(events).value.items)
  {
    hide IsBlank, Hear;
    if events != [] {
      HeardIds(events[..|events| - 1]);
      HearKeepsSpeech(HearAll(events[..|events| - 1]).value, events[|events| - 1]);
    }
  }

  lemma HearKeepsSpeech(h: Heard, e: StreamEvent)
    requires Speech(h.items) && Hear(h, e).Some? && (e.ToolCallEnd? ==> !IsBlank(e.generatedId))
    ensures Speech(Hear(h, e).value.items)
  {
    hide IsBlank;
  }

  /** Items with their calls last and named read back without content behind a call. */
  lemma {:induction false} CallsLastNoSplit(codec: Codec, items: seq<Item>)
    requires Speech(items) && CallsLast(items)
    requires forall i :: 0 <= i < |CallsIn(items)| ==> !IsBlank(CallsIn(items)[i].name)
    ensures !Splits(ReadBackAll(codec, items))
  {
    hide IsBlank, ReadBack;
    if items != [] {
      var front, last := items[..|items| - 1], items[|items| - 1];
      CallsSplit(items);
      CallsExist(front);
      if last.ToolCall? {
        forall i | 0 <= i < |CallsIn(front)| ensures !IsBlank(CallsIn(front)[i].name) {
          assert CallsIn(items)[i] == CallsIn(front)[i];
        }
        assert CallsIn(items)[|CallsIn(front)|].name == last.name;
        CallsLastNoSplit(codec, front);
        ReadBackKind(codec, last);
        ReadBackSplit(codec, items);
        SplitsStep(ReadBackAll(codec, items));
        assert ReadBackAll(codec, items)[..|ReadBackAll(codec, front)|] == ReadBackAll(codec, front);
      } else {
        assert CallsIn(front) == [];
        NoCallsNoSplit(codec, items);
      }
    }
  }

  /**
   A stream that is quiet after its calls, with named calls whose ids differ
   after trimming, gives well-shaped speech.
   */
  lemma QuietStreamsAreWellShaped(codec: Codec, events: seq<StreamEvent>)
    requires Spoken(events).Some? && QuietAfterCalls(events) && GeneratedIdsOk(events)
    requires var calls := Spoken(events).value.calls;
             (forall i :: 0 <= i < |calls| ==> !IsBlank(calls[i].name)) && KeysDistinct(calls)
    ensures WellShaped(codec, Spoken(events).value.items)
  {
    SpokenIsSpeech(events);
    CallsAreTheCallItems(events);
    SpokenCallsLast(events);
    hide IsBlank, Flush, ReadBackAll, CallsIn, KeysDistinct, Splits;
    CallsLastNoSplit(codec, Spoken(events).value.items);
  }

  lemma SpokenCallsLast(events: seq<StreamEvent>)
    requires Spoken(events).Some? && QuietAfterCalls(events)
    ensures CallsLast(Spoken(events).value.items)
  {
    assert IsBlank("");
    hide IsBlank;
    QuietStreamsCallLast(events);
  }

  lemma SpokenIsSpeech(events: seq<StreamEvent>)
    requires Spoken(events).Some? && GeneratedIdsOk(events)
    ensures Speech(Spoken(events).value.items)
  {
    hide IsBlank;
    HeardIds(events);
  }
}
