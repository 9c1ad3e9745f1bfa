/** Which transcripts are rendered paired (internal/model/provider_anthropic.go). */
module AnthropicShape {
  import opened Basics
  import opened Text
  import opened Transcript
  import opened AnthropicMessages

  /** No item of a kind that neither the validator nor the renderer looks at. */
  ghost predicate KnownKinds(items: seq<Item>) {
    forall i :: 0 <= i < |items| ==> !items[i].OtherKind?
  }

  // -------- what more items do to a rendering --------

  /** More items change only the last message, and only by adding to it. */
  lemma {:induction false} RenderGrows(a: seq<Item>, b: seq<Item>)
    ensures var x, z := Render(a), Render(a + b);
            |x| <= |z| && forall i :: 0 <= i < |x| - 1 ==> z[i] == x[i]
    ensures var x, z := Render(a), Render(a + b);
            x != [] ==> z[|x| - 1].role == x[|x| - 1].role && x[|x| - 1].content <= z[|x| - 1].content
  {
    hide BlocksOf, AppendBlocks, Render;
    if b == [] {
      assert a + b == a;
    } else {
      var front, last := b[..|b| - 1], b[|b| - 1];
      RenderGrows(a, front);
      assert a + b == (a + front) + [last];
      RenderAppend(a + front, last);
      AppendBlocksAtOnce(Render(a + front), RoleOf(last), BlocksOf(last));
    }
  }

  lemma RenderOne(a: seq<Item>, item: Item)
    ensures Render(a + [item]) == Extend(Render(a), RoleOf(item), BlocksOf(item))
  {
    hide BlocksOf, AppendBlocks, Render, Extend;
    RenderAppend(a, item);
    AppendBlocksAtOnce(Render(a), RoleOf(item), BlocksOf(item));
  }

  /** A message followed by one of the other role no longer changes. */
  lemma FrozenBehind(a: seq<Item>, item: Item, b: seq<Item>)
    requires Render(a) != [] && BlocksOf(item) != [] && RoleOf(item) != Render(a)[|Render(a)| - 1].role
    ensures var q := |Render(a)| - 1; q < |Render(a + ([item] + b))| && Render(a + ([item] + b))[q] == Render(a)[q]
  {
    hide BlocksOf, AppendBlocks, Render;
    RenderOne(a, item);
    RenderGrows(a + [item], b);
    assert a + ([item] + b) == (a + [item]) + b;
  }

  // -------- what validity says of the next item --------

  lemma OpenFront(open: set<string>, items: seq<Item>)
    requires items != [] && OpenFrom(open, items).Some?
    ensures Advance(open, items[0], 1).Ok?
    ensures OpenFrom(Advance(open, items[0], 1).value, items[1..]) == OpenFrom(open, items)
  {
    hide Advance;
    assert items == [items[0]] + items[1..];
    OpenConcat(open, [items[0]], items[1..]);
    OpenAppend(open, [], items[0]);
    assert [] + [items[0]] == [items[0]];
    assert OpenFrom(open, []) == Some(open);
  }

  lemma ContentLeavesOpen(open: set<string>, item: Item)
    requires item.IsContent() && Advance(open, item, 1).Ok?
    ensures open == {} && Advance(open, item, 1) == Ok({})
  {
    hide TrimSpace;
  }

  lemma ResultNeedsOpen(open: set<string>, item: Item)
    requires item.ToolResult? && Advance(open, item, 1).Ok?
    ensures open != {} && item.result.Some?
  {
    hide TrimSpace;
  }

  /** Behind a message of results, what follows adds no result to it, unless results follow at once. */
  lemma {:induction false} AnswersFixed(a: seq<Item>, b: seq<Item>, open: set<string>)
    requires OpenFrom(open, b) == Some({}) && KnownKinds(b)
    requires Render(a) != [] && Render(a)[|Render(a)| - 1].role == User
    requires open == {} || b == [] || !b[0].ToolResult?
    ensures var q := |Render(a)| - 1;
            q < |Render(a + b)| && ResultIds(Render(a + b)[q].content) == ResultIds(Render(a)[q].content)
    decreases |b|
  {
    hide BlocksOf, Render, OpenFrom, ResultIds, UseIds, Advance;
    if b == [] {
      assert a + b == a;
    } else {
      var item, rest := b[0], b[1..];
      assert b == [item] + rest;
      OpenFront(open, b);
      if item.ToolCall? {
        CallHasBlock(item);
        FrozenBehind(a, item, rest);
      } else if item.ToolResult? {
        ResultNeedsOpen(open, item);
      } else {
        ContentLeavesOpen(open, item);
        ContentBehindAnswers(a, item, rest);
        if Render(a + [item]) != [] && |Render(a + [item])| == |Render(a)| {
          AnswersFixed(a + [item], rest, {});
          assert (a + [item]) + rest == a + b;
        } else {
          RenderGrows(a + [item], rest);
          assert (a + [item]) + rest == a + b;
        }
      }
    }
  }

  lemma CallHasBlock(item: Item)
    requires item.ToolCall?
    ensures BlocksOf(item) != [] && RoleOf(item) == Assistant
  {
  }

  /** Content behind a message of results joins it, without results, or begins the next message. */
  lemma ContentBehindAnswers(a: seq<Item>, item: Item, b: seq<Item>)
    requires item.IsContent() && Render(a) != [] && Render(a)[|Render(a)| - 1].role == User
    ensures var x, y := Render(a), Render(a + [item]);
            && y != [] && (|y| == |x| || |y| == |x| + 1) && y[|x| - 1].role == User
            && ResultIds(y[|x| - 1].content) == ResultIds(x[|x| - 1].content)
  {
    hide BlocksOf, Render, ResultIds, UseIds;
    RenderOne(a, item);
    ContentIds(item);
    IdsConcat(Render(a)[|Render(a)| - 1].content, BlocksOf(item));
  }

  // -------- one exchange --------

  function CallRun(items: seq<Item>): (n: nat)
    ensures n <= |items| && (forall i :: 0 <= i < n ==> items[i].ToolCall?) && (n < |items| ==> !items[n].ToolCall?)
  {
    if items == [] || !items[0].ToolCall? then 0 else 1 + CallRun(items[1..])
  }

  function ResultRun(items: seq<Item>): (n: nat)
    ensures n <= |items| && (forall i :: 0 <= i < n ==> items[i].ToolResult?) && (n < |items| ==> !items[n].ToolResult?)
  {
    if items == [] || !items[0].ToolResult? then 0 else 1 + ResultRun(items[1..])
  }

  lemma CallsLeaveOpen(open: set<string>, calls: seq<Item>)
    requires calls != [] && (forall i :: 0 <= i < |calls| ==> calls[i].ToolCall?) && OpenFrom(open, calls).Some?
    ensures OpenFrom(open, calls).value != {}
  {
    hide TrimSpace;
    var last := calls[|calls| - 1];
    assert TrimSpace(last.id) in OpenFrom(open, calls).value;
  }

  lemma {:induction false} ResultsHavePayload(open: set<string>, results: seq<Item>)
    requires (forall i :: 0 <= i < |results| ==> results[i].ToolResult?) && OpenFrom(open, results).Some?
    ensures forall i :: 0 <= i < |results| ==> results[i].result.Some?
  {
    hide TrimSpace;
    if results != [] {
      ResultsHavePayload(open, results[..|results| - 1]);
    }
  }

  /** Behind calls come results at once. */
  lemma ResultsFollow(open: set<string>, rest: seq<Item>)
    requires open != {} && OpenFrom(open, rest) == Some({}) && KnownKinds(rest)
    requires rest != [] ==> !rest[0].ToolCall?
    ensures rest != [] && rest[0].ToolResult?
  {
    hide TrimSpace;
    if rest != [] {
      OpenFront(open, rest);
    }
  }

  /** The messages of the calls and of the results that follow ask and answer the same. */
  lemma RunsMatch(before: seq<Item>, calls: seq<Item>, results: seq<Item>, rest: seq<Item>, open: set<string>)
    requires Paired(Render(before)) && Paired(Render(((before + calls) + results) + rest))
    requires calls != [] && (forall i :: 0 <= i < |calls| ==> calls[i].ToolCall?)
    requires results != [] && (forall i :: 0 <= i < |results| ==> results[i].ToolResult? && results[i].result.Some?)
    requires OpenFrom(open, rest) == Some({}) && KnownKinds(rest) && (rest == [] || !rest[0].ToolResult?)
    ensures UseIds(BlocksOfAll(calls)) == ResultIds(BlocksOfAll(results))
  {
    hide BlocksOf, AppendBlocks, UseIds, ResultIds, Render, BlocksOfAll, OpenFrom, PairedUpTo;
    var uses, answers := BlocksOfAll(calls), BlocksOfAll(results);
    CallBlocks(calls);
    ResultBlocks(results);
    RenderSameRole(before, calls, Assistant);
    RenderSameRole(before + calls, results, User);
    AppendBlocksAtOnce(Render(before), Assistant, uses);
    AppendBlocksAtOnce(Render(before + calls), User, answers);
    ExtendAsks(Render(before), Assistant, uses);
    AnswerMessage(Render(before), uses, answers);
    var asked, answered := Render(before + calls), Render((before + calls) + results);
    RenderGrows((before + calls) + results, rest);
    AnswersFixed((before + calls) + results, rest, open);
    AskedAt(asked, UseIds(uses));
    PairAt(Render(((before + calls) + results) + rest), |asked| - 1);
  }

  lemma AnswerMessage(out: seq<RoleMessage>, uses: seq<Block>, answers: seq<Block>)
    requires uses != [] && answers != []
    ensures var asked := Extend(out, Assistant, uses);
            var answered := Extend(asked, User, answers);
            && asked != [] && |answered| == |asked| + 1
            && answered[|asked| - 1] == asked[|asked| - 1] && answered[|asked|] == RoleMessage(User, answers)
  {
  }

  lemma AskedAt(out: seq<RoleMessage>, asked: seq<string>)
    requires PairedUpTo(out, asked) && out != []
    ensures UseIds(out[|out| - 1].content) == asked
  {
    hide UseIds, ResultIds;
  }

  lemma PairAt(out: seq<RoleMessage>, i: nat)
    requires Paired(out) && i + 1 < |out|
    ensures UseIds(out[i].content) == ResultIds(out[i + 1].content)
  {
    hide UseIds, ResultIds;
  }

  lemma SameIdsAreExchange(calls: seq<Item>, results: seq<Item>)
    requires calls != [] && (forall i :: 0 <= i < |calls| ==> calls[i].ToolCall?)
    requires forall i :: 0 <= i < |results| ==> results[i].ToolResult? && results[i].result.Some?
    requires UseIds(BlocksOfAll(calls)) == ResultIds(BlocksOfAll(results))
    ensures SegmentOk(Exchange(calls, results))
  {
    hide UseIds, ResultIds, BlocksOfAll;
    CallBlocks(calls);
    ResultBlocks(results);
  }

  /** No call of a complete exchange is left open. */
  lemma CallIsAnswered(calls: seq<Item>, results: seq<Item>, key: string)
    requires SegmentOk(Exchange(calls, results))
    ensures !IsOpen(calls + results, |calls + results|, key)
  {
    hide TrimSpace;
    var items := calls + results;
    forall j | 0 <= j < |items| && items[j].Calls(key)
      ensures exists k :: j < k < |items| && items[k].Answers(key)
    {
      assert j < |calls|;
      assert items[|calls| + j] == results[j];
      assert items[|calls| + j].Answers(key);
    }
  }

  /** A complete exchange leaves nothing open. */
  lemma ExchangeCloses(calls: seq<Item>, results: seq<Item>, open: set<string>)
    requires SegmentOk(Exchange(calls, results)) && OpenFrom({}, calls + results) == Some(open)
    ensures open == {}
  {
    hide TrimSpace, OpenFrom, IsOpen;
    var items := calls + results;
    assert items[..|items|] == items;
    FoldMeans(items, |items|);
    forall key ensures key !in open {
      CallIsAnswered(calls, results, key);
    }
  }

  lemma ShapedByOne(s: Segment)
    requires SegmentOk(s)
    ensures AgentShaped(SegmentItems(s))
  {
    hide SegmentOk;
    assert [s][..0] == [] && AllItems([]) == [];
    assert AllItems([s]) == [] + SegmentItems(s);
    assert SegmentsOk([s]) && AllItems([s]) == SegmentItems(s);
  }

  // -------- the whole transcript --------

  /** Behind a part of the loop's shape, a valid rest that is rendered paired has that shape, too. */
  lemma {:induction false} PairedRestIsShaped(before: seq<Item>, items: seq<Item>)
    requires AgentShaped(before) && Valid(items) && KnownKinds(items) && Paired(Render(before + items))
    ensures AgentShaped(before + items)
    decreases |items|
  {
    hide AgentShaped, Render, Paired, OpenFrom, SegmentOk, Advance, TrimSpace;
    if items == [] {
      assert before + items == before;
    } else if items[0].ToolCall? {
      ExchangeFirst(before, items);
      var n := CallRun(items);
      var m := ResultRun(items[n..]);
      var done := before + items[..n + m];
      assert done + items[n + m..] == before + items;
      PairedRestIsShaped(done, items[n + m..]);
    } else {
      FirstIsContent(items);
      var done := before + [items[0]];
      ShapedByOne(Plain(items[0]));
      AgentShapedConcat(before, [items[0]]);
      assert done + items[1..] == before + items;
      PairedRestIsShaped(done, items[1..]);
    }
  }

  lemma FirstIsContent(items: seq<Item>)
    requires Valid(items) && KnownKinds(items) && items != [] && !items[0].ToolCall?
    ensures items[0].IsContent() && SegmentOk(Plain(items[0])) && Valid(items[1..])
  {
    hide TrimSpace;
    OpenFront({}, items);
  }

  /** Valid items that begin with a call are calls, results and a rest behind which nothing is left open. */
  lemma ExchangeAndRest(items: seq<Item>)
    requires Valid(items) && KnownKinds(items) && items != [] && items[0].ToolCall?
    ensures var n := CallRun(items);
            var m := ResultRun(items[n..]);
            var calls, results, rest := items[..n], items[n..][..m], items[n..][m..];
            && 0 < n && 0 < m && items == (calls + results) + rest && items[..n + m] == calls + results
            && rest == items[n + m..]
            && OpenFrom({}, calls + results).Some?
            && OpenFrom(OpenFrom({}, calls + results).value, rest) == Some({})
            && forall i :: 0 <= i < |results| ==> results[i].ToolResult? && results[i].result.Some?
  {
    hide OpenFrom, TrimSpace, ResultRun;
    var n := CallRun(items);
    hide CallRun;
    var calls, behind := items[..n], items[n..];
    var m := ResultRun(behind);
    var results, rest := behind[..m], behind[m..];
    assert items == calls + behind && behind == results + rest;
    OpenConcat({}, calls, behind);
    CallsLeaveOpen({}, calls);
    var open := OpenFrom({}, calls).value;
    ResultsFollow(open, behind);
    OpenConcat(open, results, rest);
    OpenConcat({}, calls, results);
    ResultsHavePayload(open, results);
  }

  lemma ExchangeFirst(before: seq<Item>, items: seq<Item>)
    requires AgentShaped(before) && Valid(items) && KnownKinds(items) && Paired(Render(before + items))
    requires items != [] && items[0].ToolCall?
    ensures var n := CallRun(items);
            var m := ResultRun(items[n..]);
            && 0 < n + m <= |items| && AgentShaped(before + items[..n + m]) && Valid(items[n + m..]) && KnownKinds(items[n + m..])
  {
    hide Render, Paired, OpenFrom, SegmentOk, AgentShaped, CallRun, ResultRun;
    ExchangeAndRest(items);
    var n := CallRun(items);
    var m := ResultRun(items[n..]);
    var calls, results, rest := items[..n], items[n..][..m], items[n..][m..];
    ExchangeIsShaped(before, calls, results, rest);
    assert before + (calls + results) == before + items[..n + m];
  }

  lemma ExchangeIsShaped(before: seq<Item>, calls: seq<Item>, results: seq<Item>, rest: seq<Item>)
    requires AgentShaped(before) && KnownKinds(rest) && Paired(Render(before + ((calls + results) + rest)))
    requires calls != [] && (forall i :: 0 <= i < |calls| ==> calls[i].ToolCall?)
    requires results != [] && (forall i :: 0 <= i < |results| ==> results[i].ToolResult? && results[i].result.Some?)
    requires rest == [] || !rest[0].ToolResult?
    requires OpenFrom({}, calls + results).Some? && OpenFrom(OpenFrom({}, calls + results).value, rest) == Some({})
    ensures AgentShaped(before + (calls + results)) && Valid(rest)
  {
    hide Render, Paired, OpenFrom, SegmentOk, AgentShaped, KnownKinds;
    AgentTranscriptsRenderPaired(before);
    assert before + ((calls + results) + rest) == ((before + calls) + results) + rest;
    RunsMatch(before, calls, results, rest, OpenFrom({}, calls + results).value);
    SameIdsAreExchange(calls, results);
    ExchangeCloses(calls, results, OpenFrom({}, calls + results).value);
    ShapedByOne(Exchange(calls, results));
    AgentShapedConcat(before, calls + results);
  }

  lemma NothingIsShaped()
    ensures AgentShaped([])
  {
    var none: seq<Segment> := [];
    assert SegmentsOk(none) && AllItems(none) == [];
  }

  /** A valid transcript is rendered with every tool use answered in the next message if and only if it has the loop's shape. */
  lemma PairedExactlyWhenShaped(items: seq<Item>)
    requires Valid(items) && KnownKinds(items)
    ensures Paired(Render(items)) <==> AgentShaped(items)
  {
    hide AgentShaped, Render, Paired, OpenFrom;
    if AgentShaped(items) {
      AgentTranscriptsRenderPaired(items);
    }
    if Paired(Render(items)) {
      NothingIsShaped();
      assert [] + items == items;
      PairedRestIsShaped([], items);
    }
  }
}
