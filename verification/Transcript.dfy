/** Conversation items and the checks over them (internal/model/transcript.go). */
module Transcript {
  import opened Basics
  import opened Text

  datatype ContentPart =
    | TextPart(text: string)
    | ImagePart(mimeType: string, data: string)
    | OtherPart

  datatype ToolOutput = ToolOutput(toolCallId: string, content: string, isError: bool)

  /** content of a summary is the text that the renderer makes of it. */
  datatype Item =
    | UserMessage(text: string, parts: seq<ContentPart>)
    | AssistantText(text: string)
    | AssistantThinking(text: string, signature: string)
    | ToolCall(id: string, name: string, args: string)
    | ToolResult(result: Option<ToolOutput>)
    | Summary(content: string)
    | OtherKind
  {
    /** An item that must not stand inside an open tool exchange. */
    predicate IsContent() {
      UserMessage? || AssistantText? || AssistantThinking? || Summary?
    }

    predicate Calls(key: string) {
      ToolCall? && TrimSpace(id) == key
    }

    predicate Answers(key: string) {
      ToolResult? && result.Some? && TrimSpace(result.value.toolCallId) == key
    }
  }

  datatype Fault =
    | CallWithoutId(position: nat)
    | ResultWithoutPayload(position: nat)
    | ResultWithoutId(position: nat)
    | ResultWithoutOpenCall(position: nat, id: string)
    | UserBeforeResults(position: nat, pending: set<string>)
    | ContentSplitsExchange(position: nat, pending: set<string>)
    | EndsUnresolved(pending: set<string>)

  /** What one item makes of the set of open calls. */
  function Advance(pending: set<string>, item: Item, position: nat): Result<set<string>, Fault> {
    match item
    case ToolCall(id, _, _) =>
      if TrimSpace(id) == "" then Err(CallWithoutId(position)) else Ok(pending + {TrimSpace(id)})
    case ToolResult(result) =>
      if result.None? then Err(ResultWithoutPayload(position))
      else
        var id := TrimSpace(result.value.toolCallId);
        if id == "" then Err(ResultWithoutId(position))
        else if id !in pending then Err(ResultWithoutOpenCall(position, id))
        else Ok(pending - {id})
    case UserMessage(_, _) => if pending != {} then Err(UserBeforeResults(position, pending)) else Ok(pending)
    case OtherKind => Ok(pending)
    case _ => if pending != {} then Err(ContentSplitsExchange(position, pending)) else Ok(pending)
  }

  /** The calls left open by the items, starting with some open; None once an item is at fault. */
  function OpenFrom(pending: set<string>, items: seq<Item>): Option<set<string>> {
    if items == [] then Some(pending)
    else
      var before := OpenFrom(pending, items[..|items| - 1]);
      if before.None? then None
      else
        var after := Advance(before.value, items[|items| - 1], |items|);
        if after.Ok? then Some(after.value) else None
  }

  /** Every tool exchange is complete and nothing splits one. */
  predicate Valid(items: seq<Item>) {
    OpenFrom({}, items) == Some({})
  }

  method ValidateConversationItems(items: seq<Item>) returns (fault: Option<Fault>)
    ensures fault.None? <==> Valid(items)
    ensures fault.Some? && fault.value.EndsUnresolved? ==>
              OpenFrom({}, items) == Some(fault.value.pending) && fault.value.pending != {}
    ensures fault.Some? && !fault.value.EndsUnresolved? ==>
              var p := fault.value.position;
              && 1 <= p <= |items|
              && OpenFrom({}, items[..p - 1]).Some?
              && Advance(OpenFrom({}, items[..p - 1]).value, items[p - 1], p) == Err(fault.value)
    ensures fault.Some? ==> TellsWhy(items, fault.value)
  {
    hide TrimSpace;
    if |items| == 0 {
      return None;
    }
    var pending := {};
    for idx := 0 to |items|
      invariant OpenFrom({}, items[..idx]) == Some(pending)
    {
      var next := Advance(pending, items[idx], idx + 1);
      assert items[..idx + 1][..idx] == items[..idx];
      if next.Err? {
        FaultTellsWhy(items, idx, pending);
        FaultIsFinal({}, items[..idx + 1], items[idx + 1..]);
        assert items[..idx + 1] + items[idx + 1..] == items;
        return Some(next.error);
      }
      pending := next.value;
    }
    assert items[..|items|] == items;
    if pending != {} {
      FoldMeans(items, |items|);
      return Some(EndsUnresolved(pending));
    }
    return None;
  }

  /** The greatest prefix, no longer than preferred, that is valid by itself. */
  method NearestSafeConversationBoundary(items: seq<Item>, preferred: int) returns (safe: nat)
    ensures safe <= |items| && (safe == 0 || safe <= preferred)
    ensures Valid(items[..safe])
    ensures forall k :: safe < k <= |items| && k <= preferred ==> !Valid(items[..k])
  {
    hide TrimSpace;
    if preferred <= 0 || |items| == 0 {
      return 0;
    }
    var limit := if preferred > |items| then |items| else preferred;
    safe := 0;
    var pending := {};
    for idx := 0 to limit
      invariant OpenFrom({}, items[..idx]) == Some(pending)
      invariant safe <= idx && Valid(items[..safe])
      invariant forall k :: safe < k <= idx ==> !Valid(items[..k])
    {
      var next := Advance(pending, items[idx], idx + 1);
      assert items[..idx + 1][..idx] == items[..idx];
      if next.Err? {
        forall k | idx < k <= |items| ensures !Valid(items[..k]) {
          FaultIsFinal({}, items[..idx + 1], items[idx + 1..k]);
          assert items[..idx + 1] + items[idx + 1..k] == items[..k];
        }
        return;
      }
      pending := next.value;
      if pending == {} {
        safe := idx + 1;
      }
    }
  }

  // -------- prefixes, suffixes and concatenation --------

  lemma OpenConcat(pending: set<string>, a: seq<Item>, b: seq<Item>)
    ensures OpenFrom(pending, a + b) ==
              if OpenFrom(pending, a).None? then None else OpenFrom(OpenFrom(pending, a).value, b)
  {
    hide TrimSpace;
    if b == [] {
      assert a + b == a;
    } else {
      OpenConcat(pending, a, b[..|b| - 1]);
      assert (a + b)[..|a + b| - 1] == a + b[..|b| - 1];
      if OpenFrom(pending, a).Some? && OpenFrom(OpenFrom(pending, a).value, b[..|b| - 1]).Some? {
        AdvanceIgnoresPosition(OpenFrom(OpenFrom(pending, a).value, b[..|b| - 1]).value, b[|b| - 1], |a + b|, |b|);
      }
    }
  }

  lemma OpenAppend(open: set<string>, items: seq<Item>, item: Item)
    ensures OpenFrom(open, items + [item]) ==
              if OpenFrom(open, items).None? then None
              else var next := Advance(OpenFrom(open, items).value, item, |items| + 1);
                   if next.Ok? then Some(next.value) else None
  {
    hide TrimSpace, Advance;
    assert (items + [item])[..|items|] == items;
  }

  lemma AdvanceIgnoresPosition(pending: set<string>, item: Item, p: nat, q: nat)
    ensures Advance(pending, item, p).Ok? == Advance(pending, item, q).Ok?
    ensures Advance(pending, item, p).Ok? ==> Advance(pending, item, p) == Advance(pending, item, q)
  {
    hide TrimSpace;
  }

  lemma FaultIsFinal(pending: set<string>, a: seq<Item>, b: seq<Item>)
    requires OpenFrom(pending, a).None?
    ensures OpenFrom(pending, a + b).None?
  {
    hide TrimSpace;
    OpenConcat(pending, a, b);
  }

  /** Valid transcripts can be put together, and taken apart at a valid prefix. */
  lemma ValidConcat(a: seq<Item>, b: seq<Item>)
    requires Valid(a)
    ensures Valid(a + b) <==> Valid(b)
  {
    hide TrimSpace;
    OpenConcat({}, a, b);
  }

  /** Cutting a valid conversation at a safe boundary leaves a valid rest. */
  lemma RestAfterBoundaryIsValid(items: seq<Item>, k: nat)
    requires Valid(items) && k <= |items| && Valid(items[..k])
    ensures Valid(items[k..])
  {
    hide TrimSpace;
    assert items == items[..k] + items[k..];
    ValidConcat(items[..k], items[k..]);
  }

  // -------- what validity means, without a fold --------

  /** Before position n there is a call with this id that no result has answered since. */
  ghost predicate IsOpen(items: seq<Item>, n: nat, key: string)
    requires n <= |items|
  {
    exists j :: 0 <= j < n && items[j].Calls(key) && forall k :: j < k < n ==> !items[k].Answers(key)
  }

  ghost predicate WellPlaced(items: seq<Item>, i: nat)
    requires i < |items|
  {
    && (items[i].ToolCall? ==> TrimSpace(items[i].id) != "")
    && (items[i].ToolResult? ==>
          items[i].result.Some?
          && TrimSpace(items[i].result.value.toolCallId) != ""
          && IsOpen(items, i, TrimSpace(items[i].result.value.toolCallId)))
    && (items[i].IsContent() ==> forall key :: !IsOpen(items, i, key))
  }

  lemma OpenStep(items: seq<Item>, n: nat, key: string)
    requires n < |items|
    ensures IsOpen(items, n + 1, key) <==> items[n].Calls(key) || (IsOpen(items, n, key) && !items[n].Answers(key))
  {
    hide TrimSpace;
    if items[n].Calls(key) {
    } else if IsOpen(items, n, key) && !items[n].Answers(key) {
      var j :| 0 <= j < n && items[j].Calls(key) && forall k :: j < k < n ==> !items[k].Answers(key);
      assert forall k :: j < k < n + 1 ==> !items[k].Answers(key);
    }
  }

  /** One step of the fold is exact if the fold was exact before it. */
  lemma AdvanceMeans(items: seq<Item>, n: nat, pending: set<string>)
    requires n < |items|
    requires forall key :: key in pending <==> IsOpen(items, n, key)
    ensures Advance(pending, items[n], n + 1).Ok? <==> WellPlaced(items, n)
    ensures Advance(pending, items[n], n + 1).Ok? ==>
              var next := Advance(pending, items[n], n + 1).value;
              forall key :: key in next <==> IsOpen(items, n + 1, key)
  {
    hide TrimSpace;
    if items[n].IsContent() {
      if pending != {} {
        var key :| key in pending;
        assert IsOpen(items, n, key);
      }
    }
    var next := Advance(pending, items[n], n + 1);
    if next.Ok? {
      forall key ensures key in next.value <==> IsOpen(items, n + 1, key) {
        OpenStep(items, n, key);
      }
    }
  }

  /** The fold computes exactly the open calls, and stops exactly at the first misplaced item. */
  lemma {:induction false} FoldMeans(items: seq<Item>, n: nat)
    requires n <= |items|
    ensures OpenFrom({}, items[..n]).Some? <==> forall i :: 0 <= i < n ==> WellPlaced(items, i)
    ensures OpenFrom({}, items[..n]).Some? ==>
              forall key :: key in OpenFrom({}, items[..n]).value <==> IsOpen(items, n, key)
  {
    hide TrimSpace;
    if n > 0 {
      FoldMeans(items, n - 1);
      assert items[..n][..n - 1] == items[..n - 1];
      var before := OpenFrom({}, items[..n - 1]);
      if before.Some? {
        AdvanceMeans(items, n - 1, before.value);
      }
    }
  }

  /**
   The validator accepts exactly the conversations in which every call has an
   id, every result answers a call that is open at that point, and no call is
   open at a content item or at the end.
   */
  lemma ValidMeansEveryExchangeCloses(items: seq<Item>)
    ensures Valid(items) <==>
              && (forall i :: 0 <= i < |items| ==> WellPlaced(items, i))
              && (forall key :: !IsOpen(items, |items|, key))
  {
    hide TrimSpace;
    FoldMeans(items, |items|);
    assert items[..|items|] == items;
    var open := OpenFrom({}, items);
    if open.Some? && open.value != {} {
      var key :| key in open.value;
      assert IsOpen(items, |items|, key);
    }
  }

  // -------- what a fault tells --------

  ghost predicate AreOpen(items: seq<Item>, n: nat, pending: set<string>)
    requires n <= |items|
  {
    pending != {} && forall key :: key in pending <==> IsOpen(items, n, key)
  }

  /** What a fault says is so of the item at its position, counted from one, or of the end. */
  ghost predicate TellsWhy(items: seq<Item>, fault: Fault) {
    && (fault.EndsUnresolved? ==> AreOpen(items, |items|, fault.pending))
    && (!fault.EndsUnresolved? ==>
          && 1 <= fault.position <= |items|
          && var i := fault.position - 1;
             match fault
             case CallWithoutId(_) => items[i].Calls("")
             case ResultWithoutPayload(_) => items[i] == ToolResult(None)
             case ResultWithoutId(_) => items[i].Answers("")
             case ResultWithoutOpenCall(_, id) => id != "" && items[i].Answers(id) && !IsOpen(items, i, id)
             case UserBeforeResults(_, pending) => items[i].UserMessage? && AreOpen(items, i, pending)
             case ContentSplitsExchange(_, pending) => items[i].IsContent() && !items[i].UserMessage? && AreOpen(items, i, pending)
             case EndsUnresolved(_) => true)
  }

  lemma FaultTellsWhy(items: seq<Item>, n: nat, pending: set<string>)
    requires n < |items| && OpenFrom({}, items[..n]) == Some(pending) && Advance(pending, items[n], n + 1).Err?
    ensures TellsWhy(items, Advance(pending, items[n], n + 1).error)
  {
    FoldMeans(items, n);
    hide TrimSpace, OpenFrom;
  }
}
