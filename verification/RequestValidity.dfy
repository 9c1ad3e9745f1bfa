/** When the request sent is a valid transcript (internal/v2/agent/context.go). */
module RequestValidity {
  import opened Basics
  import opened Text
  import opened Transcript
  import opened ModelAdapter
  import opened ContextBudget
  import opened ContextWindow
  import opened AnthropicMessages
  import opened AnthropicShape

  // -------- a place in a transcript of the loop's shape --------

  /** The place m is strictly inside an exchange, behind some of its calls and before its last result. */
  ghost predicate InsideExchange(items: seq<Item>, m: nat, before: seq<Item>, calls: seq<Item>, results: seq<Item>, after: seq<Item>) {
    && items == ((before + calls) + results) + after && SegmentOk(Exchange(calls, results))
    && |before| < m < |before| + |calls| + |results|
    && AgentShaped(before)
  }

  ghost predicate Inside(items: seq<Item>, m: nat) {
    exists before, calls, results, after :: InsideExchange(items, m, before, calls, results, after)
  }

  lemma InsideStays(items: seq<Item>, m: nat, more: seq<Item>)
    requires Inside(items, m)
    ensures Inside(items + more, m)
  {
    hide AgentShaped, SegmentOk;
    var before, calls, results, after :| InsideExchange(items, m, before, calls, results, after);
    assert items + more == ((before + calls) + results) + (after + more);
    assert InsideExchange(items + more, m, before, calls, results, after + more);
  }

  lemma InsideLast(before: seq<Item>, calls: seq<Item>, results: seq<Item>, m: nat)
    requires AgentShaped(before) && SegmentOk(Exchange(calls, results)) && |before| < m < |before| + |calls| + |results|
    ensures Inside(before + (calls + results), m)
  {
    hide AgentShaped, SegmentOk;
    assert before + (calls + results) == ((before + calls) + results) + [];
    assert InsideExchange(before + (calls + results), m, before, calls, results, []);
  }

  /** The items are cut into two transcripts of the loop's shape. */
  ghost predicate CutBetween(items: seq<Item>, m: nat)
    requires m <= |items|
  {
    AgentShaped(items[..m]) && AgentShaped(items[m..])
  }

  /** Every place lies between two segments or inside an exchange. */
  lemma {:induction false} PlaceOf(segments: seq<Segment>, m: nat)
    requires SegmentsOk(segments) && m <= |AllItems(segments)|
    ensures CutBetween(AllItems(segments), m) || Inside(AllItems(segments), m)
  {
    hide SegmentOk, Inside, AgentShaped;
    var all := AllItems(segments);
    if m == |all| {
      assert all[..m] == all && all[m..] == [];
      SegmentsAreShaped(segments);
      NothingIsShaped();
    } else {
      var front, last := segments[..|segments| - 1], segments[|segments| - 1];
      var start := AllItems(front);
      if m <= |start| {
        PlaceOf(front, m);
        assert start[..m] == all[..m] && start[m..] + SegmentItems(last) == all[m..];
        ShapedByOne(last);
        if Inside(start, m) {
          InsideStays(start, m, SegmentItems(last));
        } else {
          AgentShapedConcat(start[m..], SegmentItems(last));
        }
      } else {
        SegmentsAreShaped(front);
        InsideLast(start, last.calls, last.results, m);
      }
    }
  }

  lemma SegmentsAreShaped(segments: seq<Segment>)
    requires SegmentsOk(segments)
    ensures AgentShaped(AllItems(segments))
  {
    hide SegmentsOk, AllItems;
  }

  lemma {:induction false} ShapedExchangesDiffer(calls: seq<Item>, results: seq<Item>, q: nat)
    requires SegmentOk(Exchange(calls, results)) && OpenFrom({}, calls + results).Some? && 0 < q < |calls|
    ensures TrimSpace(calls[q].id) != TrimSpace(calls[0].id)
  {
    hide TrimSpace, OpenFrom;
    var x, n := calls + results, |calls|;
    assert x[..|x|] == x;
    FoldMeans(x, |x|);
    assert x[n] == results[0] && x[n + q] == results[q] && WellPlaced(x, n + q);
    var key := TrimSpace(results[q].result.value.toolCallId);
    assert IsOpen(x, n + q, key);
    var j :| 0 <= j < n + q && x[j].Calls(key) && forall k :: j < k < n + q ==> !x[k].Answers(key);
    assert j < n;
  }

  /** Behind calls of its own exchange, the first result finds its call only among them. */
  lemma CutInCalls(calls: seq<Item>, results: seq<Item>, p: nat, w: seq<Item>)
    requires SegmentOk(Exchange(calls, results)) && OpenFrom({}, calls + results).Some? && 0 < p < |calls|
    requires |w| > |calls| - p && w[..|calls| - p] == calls[p..] && w[|calls| - p] == results[0]
    ensures !Valid(w)
  {
    hide TrimSpace, OpenFrom, Valid;
    var n := |calls| - p;
    ValidMeansEveryExchangeCloses(w);
    var key := TrimSpace(results[0].result.value.toolCallId);
    forall j | 0 <= j < n ensures !w[j].Calls(key) {
      assert w[j] == w[..n][j] == calls[p + j];
      ShapedExchangesDiffer(calls, results, p + j);
    }
    assert !IsOpen(w, n, key);
    assert !WellPlaced(w, n);
  }

  lemma BeginsWithResult(w: seq<Item>)
    requires w != [] && w[0].ToolResult?
    ensures !Valid(w)
  {
    hide TrimSpace, OpenFrom, Valid;
    ValidMeansEveryExchangeCloses(w);
    assert WellPlaced(w, 0) ==> IsOpen(w, 0, TrimSpace(w[0].result.value.toolCallId));
  }

  lemma EndsWithCall(w: seq<Item>)
    requires w != [] && forall i :: 0 <= i < |w| ==> w[i].ToolCall?
    ensures !Valid(w)
  {
    hide TrimSpace;
    if OpenFrom({}, w).Some? {
      CallsLeaveOpen({}, w);
    }
  }

  /** Where the calls and the results of an exchange stand. */
  lemma Places(items: seq<Item>, m: nat, before: seq<Item>, calls: seq<Item>, results: seq<Item>, after: seq<Item>)
    requires InsideExchange(items, m, before, calls, results, after) && Valid(items)
    ensures SegmentOk(Exchange(calls, results)) && OpenFrom({}, calls + results).Some?
    ensures |before| < m < |before| + |calls| + |results| <= |items|
    ensures forall i :: |before| <= i < |before| + |calls| ==> items[i] == calls[i - |before|]
    ensures forall i :: |before| + |calls| <= i < |before| + |calls| + |results| ==> items[i] == results[i - |before| - |calls|]
  {
    hide SegmentOk, AgentShaped, OpenFrom, Valid;
    ExchangeFolds(before, calls, results, after);
    Stand(before, calls, results, after);
  }

  lemma Stand(before: seq<Item>, calls: seq<Item>, results: seq<Item>, after: seq<Item>)
    ensures var items, b, c := ((before + calls) + results) + after, |before|, |before| + |calls|;
            && |items| == c + |results| + |after|
            && (forall i :: b <= i < c ==> items[i] == calls[i - b])
            && (forall i :: c <= i < c + |results| ==> items[i] == results[i - c])
  {
    var x := before + calls;
    var y := x + results;
    assert forall i :: 0 <= i < |y| ==> (y + after)[i] == y[i];
  }

  /** What begins inside an exchange is no valid transcript, wherever it ends. */
  lemma BeginsInside(items: seq<Item>, m: nat, n: nat, before: seq<Item>, calls: seq<Item>, results: seq<Item>, after: seq<Item>)
    requires InsideExchange(items, m, before, calls, results, after) && Valid(items) && m < n <= |items|
    ensures !Valid(items[m..n])
  {
    hide Valid, InsideExchange, OpenFrom;
    Places(items, m, before, calls, results, after);
    var b, c := |before|, |calls|;
    if m >= b + c {
      BeginsWithResult(items[m..n]);
    } else if n <= b + c {
      EndsWithCall(items[m..n]);
    } else {
      CutPart(items, m, n, b, calls);
      CutInCalls(calls, results, m - b, items[m..n]);
    }
  }

  lemma CutPart(items: seq<Item>, m: nat, n: nat, b: nat, calls: seq<Item>)
    requires b <= m < b + |calls| < n <= |items|
    requires forall i :: b <= i < b + |calls| ==> items[i] == calls[i - b]
    ensures var p := m - b; items[m..n][..|calls| - p] == calls[p..] && items[m..n][|calls| - p] == items[b + |calls|]
  {
  }

  lemma ExchangeFolds(before: seq<Item>, calls: seq<Item>, results: seq<Item>, after: seq<Item>)
    requires Valid(((before + calls) + results) + after) && AgentShaped(before) && SegmentOk(Exchange(calls, results))
    ensures OpenFrom({}, calls + results).Some?
  {
    hide AgentShaped, SegmentOk, OpenFrom;
    assert ((before + calls) + results) + after == before + ((calls + results) + after);
    OpenConcat({}, before, (calls + results) + after);
    ShapedIsClosed(before);
    OpenConcat({}, calls + results, after);
  }

  /** Content and exchanges leave nothing open, unless they are at fault. */
  lemma ShapedIsClosed(items: seq<Item>)
    requires AgentShaped(items) && OpenFrom({}, items).Some?
    ensures Valid(items)
  {
    hide SegmentOk, OpenFrom;
    var segments :| SegmentsOk(segments) && AllItems(segments) == items;
    SegmentsClose(segments);
  }

  lemma {:induction false} SegmentsClose(segments: seq<Segment>)
    requires SegmentsOk(segments) && OpenFrom({}, AllItems(segments)).Some?
    ensures Valid(AllItems(segments))
  {
    hide SegmentOk, OpenFrom, Advance, TrimSpace;
    NothingOpen();
    if segments != [] {
      var front, last := segments[..|segments| - 1], segments[|segments| - 1];
      OpenConcat({}, AllItems(front), SegmentItems(last));
      SegmentsClose(front);
      SegmentCloses(last);
    }
  }

  lemma NothingOpen()
    ensures Valid([])
  {
  }

  lemma SegmentCloses(s: Segment)
    requires SegmentOk(s) && OpenFrom({}, SegmentItems(s)).Some?
    ensures OpenFrom({}, SegmentItems(s)) == Some({})
  {
    match s
    case Plain(item) =>
      assert [item][..0] == [];
      hide TrimSpace;
    case Exchange(calls, results) =>
      hide OpenFrom, TrimSpace;
      ExchangeCloses(calls, results, OpenFrom({}, calls + results).value);
  }

  /** In a valid transcript of the loop's shape a part is valid exactly if both its ends lie between exchanges. */
  lemma PartIsValidExactlyWhen(items: seq<Item>, m: nat, n: nat)
    requires Valid(items) && AgentShaped(items) && m < n <= |items|
    ensures Valid(items[m..n]) <==> Valid(items[..m]) && Valid(items[..n])
  {
    hide Valid, SegmentOk, OpenFrom, AgentShaped, Inside;
    PlaceIn(items, m);
    assert items[..n] == items[..m] + items[m..n];
    if Valid(items[..m]) {
      ValidConcat(items[..m], items[m..n]);
    } else {
      if AgentShaped(items[..m]) {
        PrefixFolds(items, m);
        ShapedIsClosed(items[..m]);
      }
      InsideIsInvalid(items, m, n);
    }
  }

  lemma PlaceIn(items: seq<Item>, m: nat)
    requires AgentShaped(items) && m <= |items|
    ensures CutBetween(items, m) || Inside(items, m)
  {
    hide SegmentOk, Inside, CutBetween;
    var segments :| SegmentsOk(segments) && AllItems(segments) == items;
    PlaceOf(segments, m);
  }

  /** A valid rest of a valid transcript of the loop's shape has that shape. */
  lemma RestIsShaped(items: seq<Item>, m: nat)
    requires Valid(items) && AgentShaped(items) && m <= |items| && Valid(items[m..])
    ensures AgentShaped(items[m..])
  {
    hide Valid, AgentShaped, Inside;
    PlaceIn(items, m);
    if m < |items| {
      assert items[m..|items|] == items[m..];
      if Inside(items, m) {
        InsideIsInvalid(items, m, |items|);
      }
    } else {
      assert items[m..] == [];
      NothingIsShaped();
    }
  }

  lemma InsideIsInvalid(items: seq<Item>, m: nat, n: nat)
    requires Inside(items, m) && Valid(items) && m < n <= |items|
    ensures !Valid(items[m..n])
  {
    hide InsideExchange, Valid;
    var before, calls, results, after :| InsideExchange(items, m, before, calls, results, after);
    BeginsInside(items, m, n, before, calls, results, after);
  }

  lemma PrefixFolds(items: seq<Item>, m: nat)
    requires Valid(items) && m <= |items|
    ensures OpenFrom({}, items[..m]).Some?
  {
    hide OpenFrom;
    assert items == items[..m] + items[m..];
    OpenConcat({}, items[..m], items[m..]);
  }

  // -------- the request --------

  /** The turn in progress begins with what its user or sender said. */
  predicate BeginsWithContent(items: seq<Item>) {
    items == [] || items[0].IsContent()
  }

  lemma PartOfHistory(codec: Codec, active: seq<Message>, lo: nat, hi: nat)
    requires lo <= hi <= |active|
    ensures var items, m, n := ItemsOf(codec, active), |ItemsOf(codec, active[..lo])|, |ItemsOf(codec, active[..hi])|;
            && m <= n <= |items| && items[..m] == ItemsOf(codec, active[..lo]) && items[..n] == ItemsOf(codec, active[..hi])
            && items[m..n] == ItemsOf(codec, active[lo..hi])
  {
    hide ItemsOf;
    assert active == active[..hi] + active[hi..] && active[..hi] == active[..lo] + active[lo..hi];
    ItemsConcat(codec, active[..hi], active[hi..]);
    ItemsConcat(codec, active[..lo], active[lo..hi]);
  }

  /** The window is a valid transcript exactly if it says nothing, or is cut between exchanges at both ends. */
  lemma WindowIsValidExactlyWhen(codec: Codec, active: seq<Message>, lo: nat, hi: nat)
    requires Valid(ItemsOf(codec, active)) && AgentShaped(ItemsOf(codec, active)) && lo <= hi <= |active|
    ensures Valid(ItemsOf(codec, active[lo..hi])) <==>
              || ItemsOf(codec, active[lo..hi]) == []
              || (Valid(ItemsOf(codec, active[..lo])) && Valid(ItemsOf(codec, active[..hi])))
  {
    hide ItemsOf, Valid, AgentShaped;
    PartOfHistory(codec, active, lo, hi);
    var items, m, n := ItemsOf(codec, active), |ItemsOf(codec, active[..lo])|, |ItemsOf(codec, active[..hi])|;
    if m < n {
      PartIsValidExactlyWhen(items, m, n);
    } else {
      NothingOpen();
    }
  }

  /** Content behind open calls is at fault, so what comes before a turn must be valid by itself. */
  lemma BeforeContent(a: seq<Item>, turn: seq<Item>)
    requires Valid(turn) && BeginsWithContent(turn)
    ensures Valid(a + turn) <==> Valid(a)
  {
    hide OpenFrom, Advance;
    if turn == [] {
      assert a + turn == a;
    } else {
      OpenConcat({}, a, turn);
      if OpenFrom({}, a).Some? && OpenFrom(OpenFrom({}, a).value, turn).Some? {
        OpenFront(OpenFrom({}, a).value, turn);
        ContentLeavesOpen(OpenFrom({}, a).value, turn[0]);
      }
    }
  }

  lemma SystemReadsAsContent(codec: Codec, msg: Message)
    requires msg.role == "system"
    ensures Valid(ItemsOf(codec, [msg]))
  {
    hide TrimSpace, IsCompactSummary, CompactSummaryContent;
    OneReads(codec, msg);
    NothingOpen();
    var item := ToItem(codec, msg);
    if item.Some? {
      OpenAppend({}, [], item.value);
      assert [] + [item.value] == [item.value];
    }
  }

  lemma SystemPromptFirst(codec: Codec, systemPrompt: string, window: seq<Message>, turn: seq<Message>)
    ensures Valid(ItemsOf(codec, Request(systemPrompt, window, turn))) <==> Valid(ItemsOf(codec, window) + ItemsOf(codec, turn))
  {
    hide ItemsOf, Valid;
    ItemsConcat(codec, window, turn);
    if systemPrompt == "" {
      assert Request(systemPrompt, window, turn) == window + turn;
    } else {
      var first := Message("", "", "system", systemPrompt, "", 0);
      assert Request(systemPrompt, window, turn) == [first] + (window + turn);
      ItemsConcat(codec, [first], window + turn);
      SystemReadsAsContent(codec, first);
      ValidConcat(ItemsOf(codec, [first]), ItemsOf(codec, window + turn));
    }
  }

  /**
   The request sent for a valid history of the loop's shape and a valid turn is
   a valid transcript exactly if no end of its window cuts an exchange: what is
   left out on either side of it begins and ends between exchanges.
   */
  lemma RequestIsValidExactlyWhen(codec: Codec, systemPrompt: string, active: seq<Message>, turn: seq<Message>, budget: int,
                                  lo: nat, hi: nat, out: seq<Message>)
    requires Valid(ItemsOf(codec, active)) && AgentShaped(ItemsOf(codec, active))
    requires Valid(ItemsOf(codec, turn)) && BeginsWithContent(ItemsOf(codec, turn))
    requires IsWindow(active, BaseTokens(systemPrompt, turn), budget, lo, hi) && lo <= hi <= |active|
    requires IsRequest(systemPrompt, active, turn, budget, out)
    ensures Valid(ItemsOf(codec, out)) <==>
              || ItemsOf(codec, active[lo..hi]) == []
              || (Valid(ItemsOf(codec, active[..lo])) && Valid(ItemsOf(codec, active[..hi])))
  {
    hide ItemsOf, Valid, AgentShaped, IsWindow, IsRequest, BaseTokens, Request, BeginsWithContent;
    BuiltIsTheRequest(systemPrompt, active, turn, budget, lo, hi, out);
    SystemPromptFirst(codec, systemPrompt, active[lo..hi], turn);
    BeforeContent(ItemsOf(codec, active[lo..hi]), ItemsOf(codec, turn));
    WindowIsValidExactlyWhen(codec, active, lo, hi);
  }

  /** The budget leaves nothing of the history out exactly if the whole of it fits. */
  lemma WholeHistoryExactlyWhen(active: seq<Message>, base: nat, budget: int, lo: nat, hi: nat)
    requires IsWindow(active, base, budget, lo, hi)
    ensures lo == 0 && hi == |active| <==> active == [] || base + MessageTokens(active) <= budget
  {
    hide MessageTokens, OneMessage;
    assert active[0..|active|] == active;
    if active != [] && base + MessageTokens(active) <= budget {
      PartsCostLess(active, |active| - 1);
      if hi < |active| {
        PartsCostLess(active, hi);
      }
      if 0 < lo < hi {
        LongerCostsMore(active, 0, lo - 1, hi);
      }
    }
  }

  lemma PartsCostLess(msgs: seq<Message>, j: nat)
    requires j < |msgs|
    ensures OneMessage(msgs[j]) <= MessageTokens(msgs)
  {
    hide MessageTokens, OneMessage;
    assert msgs == (msgs[..j] + [msgs[j]]) + msgs[j + 1..];
    TokensConcat(msgs[..j] + [msgs[j]], msgs[j + 1..]);
    TokensConcat(msgs[..j], [msgs[j]]);
    TokensOfOne(msgs[j]);
  }

  /** A budget for the whole history guarantees a valid request. */
  lemma FittingHistoryIsSentValid(codec: Codec, systemPrompt: string, active: seq<Message>, turn: seq<Message>, budget: int, out: seq<Message>)
    requires Valid(ItemsOf(codec, active)) && AgentShaped(ItemsOf(codec, active))
    requires Valid(ItemsOf(codec, turn)) && BeginsWithContent(ItemsOf(codec, turn))
    requires BaseTokens(systemPrompt, turn) + MessageTokens(active) <= budget
    requires IsRequest(systemPrompt, active, turn, budget, out)
    ensures Valid(ItemsOf(codec, out))
  {
    hide ItemsOf, Valid, AgentShaped, IsWindow, BaseTokens, Request, BeginsWithContent, MessageTokens;
    var base := BaseTokens(systemPrompt, turn);
    var lo: nat, hi: nat :| IsWindow(active, base, budget, lo, hi) && lo <= hi <= |active| && out == Request(systemPrompt, active[lo..hi], turn);
    RequestIsValidExactlyWhen(codec, systemPrompt, active, turn, budget, lo, hi, out);
    WholeHistoryExactlyWhen(active, base, budget, lo, hi);
    assert active[..0] == [] && active[..|active|] == active;
    NothingReads(codec);
    NothingOpen();
  }

  lemma NothingReads(codec: Codec)
    ensures ItemsOf(codec, []) == []
  {
  }

  /** A budget for the result of an exchange, but not for its call, sends the result alone: a valid history, no valid request. */
  lemma CutExchangeIsSent(codec: Codec, id: string, name: string, args: string, answer: string, budget: int, out: seq<Message>)
    requires codec.Lawful() && !IsBlank(id) && !IsBlank(name)
    requires var base, call, result := BaseTokens("", []), StoredCall(codec, id, name, args), StoredResult(id, answer);
             base + OneMessage(result) <= budget < base + OneMessage(call) + OneMessage(result)
    requires IsRequest("", [StoredCall(codec, id, name, args), StoredResult(id, answer)], [], budget, out)
    ensures var history := ItemsOf(codec, [StoredCall(codec, id, name, args), StoredResult(id, answer)]);
            Valid(history) && AgentShaped(history)
    ensures out == [StoredResult(id, answer)] && !Valid(ItemsOf(codec, out))
  {
    hide OneMessage, BaseTokens, MessageTokens, Request, IsRequest, Valid, AgentShaped, ItemsOf;
    var call, result := StoredCall(codec, id, name, args), StoredResult(id, answer);
    var active := [call, result];
    assert active[1..2] == [result] && active[0..2] == active && active == [call] + [result];
    TokensOfOne(result);
    TokensOfOne(call);
    TokensConcat([call], [result]);
    assert IsWindow(active, BaseTokens("", []), budget, 1, 2);
    BuiltIsTheRequest("", active, [], budget, 1, 2, out);
    OnlyTheWindow([result]);
    StoredExchangeReads(codec, id, name, args, answer);
    ExchangeOfOne(id, name, args, answer);
    BeginsWithResult(ItemsOf(codec, out));
  }

  function StoredCall(codec: Codec, id: string, name: string, args: string): Message {
    Message("", "", "assistant", TOOL_CALL_PREFIX + codec.encodeCall(name, args), id, 0)
  }

  function StoredResult(id: string, answer: string): Message {
    Message("", "", "tool", answer, id, 0)
  }

  lemma OneReads(codec: Codec, msg: Message)
    ensures ItemsOf(codec, [msg]) == Listed(ToItem(codec, msg))
  {
    hide ToItem;
    assert [msg][..0] == [];
  }

  lemma CallReads(codec: Codec, id: string, name: string, args: string)
    requires codec.Lawful() && !IsBlank(id) && !IsBlank(name)
    ensures ToItem(codec, StoredCall(codec, id, name, args)) == Some(ToolCall(id, name, args))
  {
    hide ToItem, IsBlank;
    ItemReadsBack(codec, ToolCall(id, name, args), "");
  }

  lemma StoredExchangeReads(codec: Codec, id: string, name: string, args: string, answer: string)
    requires codec.Lawful() && !IsBlank(id) && !IsBlank(name)
    ensures var call, result := StoredCall(codec, id, name, args), StoredResult(id, answer);
            && ItemsOf(codec, [result]) == [ToolResult(Some(ToolOutput(id, answer, false)))]
            && ItemsOf(codec, [call, result]) == [ToolCall(id, name, args), ToolResult(Some(ToolOutput(id, answer, false)))]
  {
    hide ItemsOf, StoredCall, IsBlank;
    var call, result := StoredCall(codec, id, name, args), StoredResult(id, answer);
    CallReads(codec, id, name, args);
    OneReads(codec, call);
    OneReads(codec, result);
    assert [call, result] == [call] + [result];
    ItemsConcat(codec, [call], [result]);
  }

  lemma ExchangeOfOne(id: string, name: string, args: string, answer: string)
    requires !IsBlank(id)
    ensures var items := [ToolCall(id, name, args), ToolResult(Some(ToolOutput(id, answer, false)))];
            Valid(items) && AgentShaped(items)
  {
    hide TrimSpace, IsBlank, AgentShaped;
    var call, result := ToolCall(id, name, args), ToolResult(Some(ToolOutput(id, answer, false)));
    BlankIffTrimmedEmpty(id);
    NothingOpen();
    OpenAppend({}, [], call);
    OpenAppend({}, [call], result);
    assert [] + [call] == [call] && [call] + [result] == [call, result];
    ShapedByOne(Exchange([call], [result]));
  }

  lemma OnlyTheWindow(window: seq<Message>)
    ensures Request("", window, []) == window
  {
  }
}
