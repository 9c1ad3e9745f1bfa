// The context of every turn of a session has the loop's shape: what turns store, what a compaction
// leaves of it, and what clearing old results keeps (internal/v2/agent/agent.go).
module TurnShapes {
  import opened Basics
  import opened Text
  import opened Transcript
  import opened ModelAdapter
  import opened MessageStore
  import opened ContextBudget
  import opened ContextWindow
  import opened Microcompact
  import opened Compaction
  import opened CompactionTheorems
  import opened AgentLoop
  import AgentTurn
  import opened SessionLife
  import opened AnthropicMessages
  import AnthropicShape
  import RequestValidity
  import RenderedTurns

  // -------- one iteration --------

  lemma ContentIsShaped(items: seq<Item>)
    requires forall i :: 0 <= i < |items| ==> items[i].IsContent()
    ensures AgentShaped(items)
  {
    var _ := RenderedTurns.PlainSegments(items);
  }

  /** Speech none of whose calls is named reads back as content. */
  lemma UncalledIsShaped(codec: Codec, items: seq<Item>)
    requires Speech(items) && Named(CallsIn(items)) == []
    ensures AgentShaped(ReadBackAll(codec, items))
  {
    hide ReadBackAll, Speech, CallsIn, Named, AgentShaped;
    var kept := ReadBackAll(codec, items);
    ReadBackCalls(codec, items);
    ReadBackKinds(codec, items);
    CallsExist(kept);
    forall i | 0 <= i < |kept| ensures kept[i].IsContent() {
      assert kept[i] in kept;
    }
    ContentIsShaped(kept);
  }

  /** An iteration that goes on spoke well-shaped speech, and one that was cut named no call. */
  ghost predicate Clean(turn: AgentTurn.Turn, rows: seq<Message>, first: bool, world: AgentTurn.World) {
    var p, spoken := AgentTurn.Iterate(turn, rows, first, world), Spoken(world.events);
    && (p.Going? ==> spoken.Some? && WellShaped(turn.codec, spoken.value.items))
    && (p.Over? && p.outcome == AgentTurn.CutExchange && spoken.Some? ==> Named(spoken.value.calls) == [])
  }

  /** What an iteration stores has the loop's shape. */
  lemma IterationAddsShaped(turn: AgentTurn.Turn, rows: seq<Message>, first: bool, world: AgentTurn.World) returns (items: seq<Item>)
    requires AgentTurn.Usable(turn) && AgentTurn.WorldOk(world) && Rising(OfSession(rows, turn.sessionId))
    requires AgentShaped(ItemsOf(turn.codec, turn.input)) && Clean(turn, rows, first, world)
    ensures var p := AgentTurn.Iterate(turn, rows, first, world);
            AgentTurn.Stored(turn, p.rows) == AgentTurn.Stored(turn, rows) + items && AgentShaped(items)
  {
    hide OfSession, ItemsOf, AgentTurn.AppendTo, AgentTurn.Stored, MessagesOf, ResultsOf, ReadBackAll, CallsIn, Named,
         Speech, AgentTurn.Usable, Rising, Spoken, AgentTurn.WorldOk, WellShaped, AgentShaped, ExchangeItems;
    var p := AgentTurn.Iterate(turn, rows, first, world);
    RenderedTurns.NoItemsAreShaped(turn.codec);
    NoItems(turn.codec);
    items := [];
    assert AgentTurn.Stored(turn, rows) + [] == AgentTurn.Stored(turn, rows);
    if world.streamOk && Spoken(world.events).Some? {
      var heard := Spoken(world.events).value;
      var opening := ItemsOf(turn.codec, if first then turn.input else []);
      RenderedTurns.SpeechOfWorld(world);
      CallsAreTheCallItems(world.events);
      if p.Going? {
        RenderedTurns.IterationAppendsExchange(turn, rows, first, world);
        RenderedTurns.StepIsAgentShaped(turn.codec, heard.items, world.outputs);
        items := Appended(AgentTurn.Stored(turn, rows), opening, ExchangeItems(turn.codec, heard.items, world.outputs));
      } else if p.rows != rows {
        AgentTurn.SpeechStored(turn, rows, first, heard.items);
        NoneIsNamed(heard.calls);
        UncalledIsShaped(turn.codec, heard.items);
        items := Appended(AgentTurn.Stored(turn, rows), opening, ReadBackAll(turn.codec, heard.items));
      }
    }
  }

  lemma Appended(before: seq<Item>, a: seq<Item>, b: seq<Item>) returns (items: seq<Item>)
    requires AgentShaped(a) && AgentShaped(b)
    ensures (before + a) + b == before + items && AgentShaped(items)
  {
    hide AgentShaped;
    items := a + b;
    AgentShapedConcat(a, b);
  }

  lemma NoneIsNamed(calls: seq<AgentLoop.Call>)
    ensures calls == [] ==> Named(calls) == []
  {
  }

  // -------- one turn --------

  lemma UncutIsClean(rows: seq<Message>, span: Span, j: nat)
    requires Uncut(rows, span) && j < span.steps && AgentTurn.Head(span.turn, rows, span.worlds, j).Going?
    ensures Clean(span.turn, AgentTurn.Head(span.turn, rows, span.worlds, j).rows, j == 0, span.worlds(j))
  {
    hide AgentTurn.Iterate, WellShaped, Spoken, Named;
    assert !CutAt(rows, span, j);
    assert AgentTurn.Head(span.turn, rows, span.worlds, j + 1)
        == AgentTurn.Iterate(span.turn, AgentTurn.Head(span.turn, rows, span.worlds, j).rows, j == 0, span.worlds(j));
  }

  /** What a turn that is not cut stores has the loop's shape. */
  lemma {:induction false} TurnAddsShaped(rows: seq<Message>, span: Span, k: nat) returns (items: seq<Item>)
    requires AgentTurn.Usable(span.turn) && (forall j: nat :: AgentTurn.WorldOk(span.worlds(j))) && Uncut(rows, span) && k <= span.steps
    requires Rising(OfSession(rows, span.turn.sessionId)) && Valid(AgentTurn.Stored(span.turn, rows))
    requires AgentShaped(ItemsOf(span.turn.codec, span.turn.input))
    ensures var rows' := AgentTurn.Head(span.turn, rows, span.worlds, k).rows;
            AgentTurn.Stored(span.turn, rows') == AgentTurn.Stored(span.turn, rows) + items && AgentShaped(items)
  {
    hide AgentTurn.Iterate, AgentTurn.Usable, AgentTurn.WorldOk, Uncut, Rising, OfSession, Valid, AgentTurn.Stored, AgentShaped, ItemsOf, Clean;
    var turn, worlds := span.turn, span.worlds;
    if k == 0 {
      items := [];
      AnthropicShape.NothingIsShaped();
      assert AgentTurn.Stored(turn, rows) + [] == AgentTurn.Stored(turn, rows);
    } else {
      items := TurnAddsShaped(rows, span, k - 1);
      var before := AgentTurn.Head(turn, rows, worlds, k - 1);
      if before.Going? {
        HeadIsRising(turn, rows, worlds, k - 1);
        UncutIsClean(rows, span, k - 1);
        var more := IterationAddsShaped(turn, before.rows, k == 1, worlds(k - 1));
        AgentShapedConcat(items, more);
        assert (AgentTurn.Stored(turn, rows) + items) + more == AgentTurn.Stored(turn, rows) + (items + more);
        items := items + more;
      }
    }
  }

  lemma HeadIsRising(turn: AgentTurn.Turn, rows: seq<Message>, worlds: nat -> AgentTurn.World, k: nat)
    requires AgentTurn.Usable(turn) && forall j: nat :: AgentTurn.WorldOk(worlds(j))
    requires Rising(OfSession(rows, turn.sessionId)) && Valid(AgentTurn.Stored(turn, rows))
    requires AgentTurn.Head(turn, rows, worlds, k).Going?
    ensures Rising(OfSession(AgentTurn.Head(turn, rows, worlds, k).rows, turn.sessionId))
  {
    hide *;
    AgentTurn.EveryHeadIsValid(turn, rows, worlds, k);
  }

  // -------- all turns --------

  /** The messages behind the last boundary have the loop's shape. */
  ghost predicate ActiveShaped(codec: Codec, sessionId: string, rows: seq<Message>) {
    AgentShaped(ItemsOf(codec, AfterBoundary(List(rows, sessionId))))
  }

  lemma SystemIsShaped(codec: Codec, msg: Message)
    requires msg.role == "system"
    ensures AgentShaped(ItemsOf(codec, [msg]))
  {
    hide TrimSpace, IsCompactSummary, CompactSummaryContent;
    RequestValidity.OneReads(codec, msg);
    hide ItemsOf, AgentShaped;
    ContentIsShaped(ItemsOf(codec, [msg]));
  }

  lemma OpenedIsShaped(codec: Codec, sessionId: string, rows: seq<Message>, span: Span)
    requires Kept(codec, sessionId, rows) && ActiveShaped(codec, sessionId, rows) && span.turn.sessionId == sessionId
    ensures ActiveShaped(codec, sessionId, Opened(rows, span))
  {
    hide AllRising, List, ItemsOf, Valid, TurnsValid, AfterBoundary, CompactMessages, IsCompactBoundary, OfSession, MaxPosition, PlaceAll, AgentShaped;
    if span.compacted.Some? {
      var turnId, summary, id := span.turn.turnId, span.compacted.value.0, span.compacted.value.1;
      var c := CompactMessages(turnId, summary, id);
      var w := Write(sessionId, turnId, c);
      assert FreshMessages(w) by { CompactMessagesAreFresh(turnId, summary, id); }
      WriteKeepsRising(rows, w);
      var placed := PlaceAll(c, sessionId, turnId, MaxPosition(OfSession(rows, sessionId)) + 1);
      PlacedAreBoundaryAndSummary(c, placed, turnId, summary, id);
      SummaryOnly(List(rows, sessionId), placed, []);
      SummaryIsSystem(turnId, summary, id);
      SystemIsShaped(codec, placed[1]);
    }
  }

  lemma SamePrefix(a: seq<Item>, x: seq<Item>, y: seq<Item>)
    requires a + x == a + y
    ensures x == y
  {
    assert (a + x)[|a|..] == x && (a + y)[|a|..] == y;
  }

  lemma TurnKeepsShape(codec: Codec, sessionId: string, rows: seq<Message>, span: Span)
    requires Kept(codec, sessionId, rows) && Sound(codec, sessionId, rows, span)
    requires ActiveShaped(codec, sessionId, rows) && AgentShaped(ItemsOf(codec, span.turn.input))
    ensures ActiveShaped(codec, sessionId, AfterTurn(rows, span))
  {
    hide List, ItemsOf, Valid, TurnsValid, AfterBoundary, OfTurn, Opened, AgentTurn.Head, AgentTurn.Usable, IsBlank, Uncut,
         AgentTurn.WorldOk, AgentShaped, OfSession, Rising;
    OpenedIsKept(codec, sessionId, rows, span);
    OpenedIsShaped(codec, sessionId, rows, span);
    var mid := Opened(rows, span);
    assert Rising(OfSession(mid, sessionId));
    hide AllRising;
    var added := HeadOfTurn(span.turn, mid, span.worlds, span.steps);
    var items := TurnAddsShaped(mid, span, span.steps);
    ItemsConcat(codec, List(mid, sessionId), added);
    SamePrefix(ItemsOf(codec, List(mid, sessionId)), ItemsOf(codec, added), items);
    OfTurnHasNoBoundary(added, span.turn.turnId);
    BoundaryBefore(List(mid, sessionId), added);
    ItemsConcat(codec, AfterBoundary(List(mid, sessionId)), added);
    AgentShapedConcat(ItemsOf(codec, AfterBoundary(List(mid, sessionId))), ItemsOf(codec, added));
  }

  ghost predicate InputsShaped(codec: Codec, spans: seq<Span>) {
    forall i :: 0 <= i < |spans| ==> AgentShaped(ItemsOf(codec, spans[i].turn.input))
  }

  lemma {:induction false} TurnsKeepShape(codec: Codec, sessionId: string, rows: seq<Message>, spans: seq<Span>)
    requires Kept(codec, sessionId, rows) && AllSound(codec, sessionId, rows, spans)
    requires ActiveShaped(codec, sessionId, rows) && InputsShaped(codec, spans)
    ensures ActiveShaped(codec, sessionId, AfterTurns(rows, spans))
    decreases |spans|
  {
    hide Kept, Sound, AfterTurn, ActiveShaped, AgentShaped, ItemsOf;
    if spans != [] {
      TurnKeeps(codec, sessionId, rows, spans[0]);
      TurnKeepsShape(codec, sessionId, rows, spans[0]);
      assert forall i :: 0 <= i < |spans| - 1 ==> spans[1..][i] == spans[i + 1];
      TurnsKeepShape(codec, sessionId, AfterTurn(rows, spans[0]), spans[1..]);
    }
  }

  lemma EmptyIsShaped(codec: Codec, sessionId: string)
    ensures ActiveShaped(codec, sessionId, [])
  {
    NoItems(codec);
    AnthropicShape.NothingIsShaped();
    hide AgentShaped;
  }

  // -------- clearing old results --------

  lemma {:induction false} ShapeIgnoresContent(segments: seq<Segment>, y: seq<Item>)
    requires SegmentsOk(segments) && |y| == |AllItems(segments)|
    requires forall i :: 0 <= i < |y| ==> SameExchange(AllItems(segments)[i], y[i])
    ensures AgentShaped(y)
  {
    hide SegmentOk, AgentShaped, SameExchange, SegmentItems;
    if segments == [] {
      AnthropicShape.NothingIsShaped();
    } else {
      var front, last := segments[..|segments| - 1], segments[|segments| - 1];
      var x, n := AllItems(segments), |AllItems(front)|;
      forall i | 0 <= i < n ensures SameExchange(AllItems(front)[i], y[..n][i]) {
        assert x[i] == AllItems(front)[i];
      }
      forall i | 0 <= i < |SegmentItems(last)| ensures SameExchange(SegmentItems(last)[i], y[n..][i]) {
        assert x[n + i] == SegmentItems(last)[i];
      }
      ShapeIgnoresContent(front, y[..n]);
      SegmentIgnoresContent(last, y[n..]);
      AgentShapedConcat(y[..n], y[n..]);
      assert y == y[..n] + y[n..];
    }
  }

  lemma SegmentIgnoresContent(s: Segment, y: seq<Item>)
    requires SegmentOk(s) && |y| == |SegmentItems(s)|
    requires forall i :: 0 <= i < |y| ==> SameExchange(SegmentItems(s)[i], y[i])
    ensures AgentShaped(y)
  {
    hide AgentShaped;
    match s
    case Plain(item) =>
      assert SameExchange([item][0], y[0]);
      AnthropicShape.ShapedByOne(Plain(y[0]));
      assert y == [y[0]];
    case Exchange(calls, results) =>
      var n := |calls|;
      var calls', results' := y[..n], y[n..];
      forall i | 0 <= i < n
        ensures calls'[i].ToolCall? && results'[i].ToolResult? && results'[i].result.Some?
        ensures results'[i].result.value.toolCallId == calls'[i].id
      {
        assert SameExchange((calls + results)[i], y[i]);
        assert SameExchange((calls + results)[n + i], y[n + i]);
        assert (calls + results)[n + i] == results[i];
      }
      AnthropicShape.ShapedByOne(Exchange(calls', results'));
      assert y == calls' + results';
  }

  lemma ClearingKeepsShape(codec: Codec, a: seq<Message>, b: seq<Message>)
    requires SomeCleared(a, b) && AgentShaped(ItemsOf(codec, a))
    ensures AgentShaped(ItemsOf(codec, b))
  {
    hide SomeCleared, ItemsOf, SegmentOk;
    ItemsOfSomeCleared(codec, a, b);
    var segments :| SegmentsOk(segments) && AllItems(segments) == ItemsOf(codec, a);
    hide AgentShaped, SegmentsOk, AllItems, SameExchange;
    ShapeIgnoresContent(segments, ItemsOf(codec, b));
  }

  // -------- what the next turn goes on from --------

  lemma ActiveHasNoBoundary(msgs: seq<Message>)
    ensures AfterBoundary(AfterBoundary(msgs)) == AfterBoundary(msgs) && NoBoundary(AfterBoundary(msgs))
  {
    hide AfterBoundary, IsCompactBoundary;
    AfterBoundaryIsSuffix(msgs);
    BoundaryIsUnique(AfterBoundary(msgs), 0);
    assert AfterBoundary(msgs)[0..] == AfterBoundary(msgs);
  }

  lemma RestOfTurnsIsShaped(codec: Codec, active: seq<Message>, k: nat)
    requires TurnsValid(codec, active) && AgentShaped(ItemsOf(codec, active)) && k <= |active|
    requires active == [] || (k < |active| && TurnStart(active, k))
    ensures Valid(ItemsOf(codec, active[k..])) && AgentShaped(ItemsOf(codec, active[k..]))
  {
    hide TurnsValid, AgentShaped, ItemsOf, Valid, TurnStart;
    WholeIsValid(codec, active);
    if active == [] {
      assert active[k..] == active;
    } else {
      SuffixIsValid(codec, active, k);
      assert active == active[..k] + active[k..];
      ItemsConcat(codec, active[..k], active[k..]);
      var items, m := ItemsOf(codec, active), |ItemsOf(codec, active[..k])|;
      assert items[m..] == ItemsOf(codec, active[k..]);
      RequestValidity.RestIsShaped(items, m);
    }
  }

  /** The summary in front of what is kept. */
  lemma SummaryThenKept(codec: Codec, summary: Message, kept: seq<Message>)
    requires summary.role == "system" && Valid(ItemsOf(codec, kept)) && AgentShaped(ItemsOf(codec, kept))
    ensures Valid(ItemsOf(codec, [summary] + kept)) && AgentShaped(ItemsOf(codec, [summary] + kept))
  {
    hide AgentShaped, ItemsOf, Valid;
    RequestValidity.SystemReadsAsContent(codec, summary);
    SystemIsShaped(codec, summary);
    ItemsConcat(codec, [summary], kept);
    ValidConcat(ItemsOf(codec, [summary]), ItemsOf(codec, kept));
    AgentShapedConcat(ItemsOf(codec, [summary]), ItemsOf(codec, kept));
  }

  /** Whatever compaction does to valid turns of the loop's shape, what the turn goes on from is valid and has that shape. */
  lemma ContextIsShaped(codec: Codec, job: Job, stored: seq<Message>, k: nat, budget: int, summary: Result<string, Failure>,
                        before: Tables, after: Tables, r: Result<seq<Message>, Failure>)
    requires var active := AfterBoundary(stored);
             && TurnsValid(codec, active) && AgentShaped(ItemsOf(codec, active))
             && k <= |active| && (k == 0 || IsSplit(active, budget, k))
             && Outcome(job, active, k, summary, before, after, r)
    ensures r.Ok? ==> Valid(ItemsOf(codec, AfterBoundary(r.value))) && AgentShaped(ItemsOf(codec, AfterBoundary(r.value)))
  {
    hide TurnsValid, ItemsOf, Valid, CompactMessages, Summarised, IsBlank, AgentShaped, TurnStart, MessageTokens, AfterBoundary;
    var active := AfterBoundary(stored);
    ActiveHasNoBoundary(stored);
    if k > 0 && summary.Ok? && !IsBlank(summary.value) {
      var start, end, placed :| Summarised(job, active[..k], summary.value, start, end, before, after, placed)
                                && r == Continued(placed, active[k..]);
      if placed.Ok? {
        SummarisedRows(job, active[..k], summary.value, start, end, before, after, placed);
        RestOfTurnsIsShaped(codec, active, k);
        SummaryPlaced(job, summary.value, if 0 < start <= end then job.snapshotId else "", before.rows, placed.value);
        NoBoundaryBehind(active, k);
        SummaryOnly([], placed.value, active[k..]);
        SummaryThenKept(codec, placed.value[1], active[k..]);
      }
    } else {
      WholeIsValid(codec, active);
    }
  }

  lemma NoBoundaryBehind(msgs: seq<Message>, k: nat)
    requires NoBoundary(msgs) && k <= |msgs|
    ensures NoBoundary(msgs[k..])
  {
    hide IsCompactBoundary;
  }

  lemma SummaryPlaced(job: Job, summary: string, id: string, rows: seq<Message>, placed: seq<Message>)
    requires placed == PlaceAll(CompactMessages(job.turnId, summary, id), job.sessionId, job.turnId, MaxPosition(OfSession(rows, job.sessionId)) + 1)
    ensures |placed| == 2 && IsCompactBoundary(placed[0]) && !IsCompactBoundary(placed[1]) && placed[1].role == "system"
  {
    hide CompactMessages, IsCompactBoundary, MaxPosition, OfSession, PlaceAll;
    var c := CompactMessages(job.turnId, summary, id);
    PlacedAreBoundaryAndSummary(c, placed, job.turnId, summary, id);
    SummaryIsSystem(job.turnId, summary, id);
  }

  /** After any turns of a session, none of them cut, the next turn goes on from a valid context of the loop's shape. */
  lemma EveryContextIsShaped(codec: Codec, sessionId: string, spans: seq<Span>, job: Job, k: nat, budget: int,
                             summary: Result<string, Failure>, before: Tables, after: Tables, r: Result<seq<Message>, Failure>)
    requires AllSound(codec, sessionId, [], spans) && InputsShaped(codec, spans)
    requires before.rows == AfterTurns([], spans) && job.sessionId == sessionId
    requires var active := AfterBoundary(Compacted(List(before.rows, sessionId)));
             && k <= |active| && (k == 0 || IsSplit(active, budget, k))
             && Outcome(job, active, k, summary, before, after, r)
    ensures r.Ok? ==> Valid(ItemsOf(codec, AfterBoundary(r.value))) && AgentShaped(ItemsOf(codec, AfterBoundary(r.value)))
  {
    hide AllSound, AllRising, List, ItemsOf, Valid, TurnsValid, AfterBoundary, Compacted, IsSplit, Outcome, AfterTurns, AgentShaped,
         InputsShaped, SomeCleared;
    EmptyIsKept(codec, sessionId);
    EmptyIsShaped(codec, sessionId);
    TurnsKeep(codec, sessionId, [], spans);
    TurnsKeepShape(codec, sessionId, [], spans);
    var stored := List(before.rows, sessionId);
    ActiveTurnsStayValid(codec, stored);
    CompactedIsSomeCleared(stored);
    BoundaryStays(stored, Compacted(stored));
    ClearingKeepsShape(codec, AfterBoundary(stored), AfterBoundary(Compacted(stored)));
    ContextIsShaped(codec, job, Compacted(stored), k, budget, summary, before, after, r);
  }
}
