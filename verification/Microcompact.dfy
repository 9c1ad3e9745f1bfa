// Clearing old tool results before a request: above a threshold, all but the newest eight
// lose their content and keep their place (internal/v2/agent/microcompact.go).
module Microcompact {
  import opened Basics
  import opened Text
  import opened Transcript
  import opened ModelAdapter
  import opened ContextBudget

  const THRESHOLD_TOKENS := 48_000
  const KEEP_RECENT_RESULTS := 8
  const MAX_PREVIEW_RUNES := 240
  const CLEARED_PREFIX := "[old tool result content cleared before model request;"

  function PreviewRunes(text: string, max: int): string {
    if max <= 0 then "" else if |text| <= max then text else text[..max] + "..."
  }

  function ClearedContent(content: string): string {
    var preview := PreviewRunes(TrimSpace(content), MAX_PREVIEW_RUNES);
    CLEARED_PREFIX + " original approximately " + Decimal(TextTokens(content)) + " tokens; preview: "
    + (if preview == "" then "content omitted" else preview) + "]"
  }

  /** A tool result with content that has not been cleared yet. */
  predicate Clearable(msg: Message) {
    msg.role == "tool" && !IsBlank(msg.content) && !HasPrefix(msg.content, CLEARED_PREFIX)
  }

  function Cleared(msg: Message): Message {
    msg.(content := ClearedContent(msg.content))
  }

  function CountClearable(msgs: seq<Message>): nat {
    if msgs == [] then 0 else CountClearable(msgs[..|msgs| - 1]) + if Clearable(msgs[|msgs| - 1]) then 1 else 0
  }

  /** The messages with the first n clearable ones cleared. */
  function ClearFirst(msgs: seq<Message>, n: nat): (out: seq<Message>)
    ensures |out| == |msgs|
  {
    if msgs == [] then []
    else
      var front, last := msgs[..|msgs| - 1], msgs[|msgs| - 1];
      ClearFirst(front, n) + [if Clearable(last) && CountClearable(front) < n then Cleared(last) else last]
  }

  function Compacted(msgs: seq<Message>): seq<Message> {
    if MessageTokens(msgs) < THRESHOLD_TOKENS || CountClearable(msgs) <= KEEP_RECENT_RESULTS then msgs
    else ClearFirst(msgs, CountClearable(msgs) - KEEP_RECENT_RESULTS)
  }

  /** What is left of a result: a note of its size, and at most the first 240 characters of what it said. */
  ghost predicate Previews(original: string, left: string) {
    var said := TrimSpace(original);
    exists shown ::
      && left == CLEARED_PREFIX + " original approximately " + Decimal(TextTokens(original)) + " tokens; preview: " + shown + "]"
      && if |said| <= MAX_PREVIEW_RUNES then shown == said
         else |shown| == MAX_PREVIEW_RUNES + 3 && shown[..MAX_PREVIEW_RUNES] == said[..MAX_PREVIEW_RUNES] && shown[MAX_PREVIEW_RUNES..] == "..."
  }

  /** The clearable results with eight or more clearable ones behind them, at the threshold, keep a preview; all else stays. */
  ghost predicate OldResultsCleared(msgs: seq<Message>, out: seq<Message>) {
    && |out| == |msgs|
    && forall i :: 0 <= i < |msgs| ==>
         if MessageTokens(msgs) >= THRESHOLD_TOKENS && Clearable(msgs[i]) && CountClearable(msgs[i + 1..]) >= KEEP_RECENT_RESULTS
         then out[i] == msgs[i].(content := out[i].content) && !Clearable(out[i]) && Previews(msgs[i].content, out[i].content)
         else out[i] == msgs[i]
  }

  /** The indexes of the clearable messages, and the first of them overwritten in a copy. */
  method MicrocompactToolResults(msgs: seq<Message>) returns (out: seq<Message>, cleared: nat)
    ensures out == Compacted(msgs) && OldResultsCleared(msgs, out)
    ensures MessageTokens(msgs) >= THRESHOLD_TOKENS ==> CountClearable(out) <= KEEP_RECENT_RESULTS
    ensures cleared == if MessageTokens(msgs) < THRESHOLD_TOKENS || CountClearable(msgs) <= KEEP_RECENT_RESULTS then 0
                       else CountClearable(msgs) - KEEP_RECENT_RESULTS
  {
    hide Clearable, Cleared, MessageTokens, CountClearable, ClearFirst, OldResultsCleared;
    CompactionClears(msgs);
    var tokens := ApproximateMessageTokens(msgs);
    if tokens < THRESHOLD_TOKENS {
      return msgs, 0;
    }
    var toolIndexes := ClearableIndexes(msgs);
    var clearCount := |toolIndexes| - KEEP_RECENT_RESULTS;
    if clearCount <= 0 {
      return msgs, 0;
    }
    IndexesCount(msgs, toolIndexes);
    out := msgs;
    for k := 0 to clearCount
      invariant out == ClearFirst(msgs, k)
    {
      var idx := toolIndexes[k];
      IndexesClear(msgs, toolIndexes, k);
      out := out[idx := Cleared(out[idx])];
    }
    return out, clearCount;
  }

  method ClearableIndexes(msgs: seq<Message>) returns (idxs: seq<nat>)
    ensures Indexes(msgs, idxs)
  {
    hide Clearable, Indexes;
    idxs := [];
    NoIndexes();
    assert msgs[..0] == [];
    for i := 0 to |msgs|
      invariant Indexes(msgs[..i], idxs)
    {
      IndexesNext(msgs, i, idxs);
      if Clearable(msgs[i]) {
        idxs := idxs + [i];
      }
    }
    assert msgs[..|msgs|] == msgs;
  }

  lemma NoIndexes()
    ensures Indexes([], [])
  {
  }

  /** idxs are the indexes of the clearable messages, in order. */
  ghost predicate Indexes(msgs: seq<Message>, idxs: seq<nat>) {
    && (forall k :: 0 <= k < |idxs| ==> idxs[k] < |msgs| && Clearable(msgs[idxs[k]]) && CountClearable(msgs[..idxs[k]]) == k)
    && |idxs| == CountClearable(msgs)
  }

  lemma IndexesNext(msgs: seq<Message>, i: nat, idxs: seq<nat>)
    requires i < |msgs| && Indexes(msgs[..i], idxs)
    ensures Indexes(msgs[..i + 1], if Clearable(msgs[i]) then idxs + [i] else idxs)
  {
    hide Clearable;
    assert msgs[..i + 1][..i] == msgs[..i];
    var next := if Clearable(msgs[i]) then idxs + [i] else idxs;
    forall k | 0 <= k < |next|
      ensures next[k] < i + 1 && Clearable(msgs[..i + 1][next[k]]) && CountClearable(msgs[..i + 1][..next[k]]) == k {
      if k < |idxs| {
        assert msgs[..i + 1][..idxs[k]] == msgs[..i][..idxs[k]];
      }
    }
  }

  lemma IndexesCount(msgs: seq<Message>, idxs: seq<nat>)
    requires Indexes(msgs, idxs)
    ensures |idxs| == CountClearable(msgs)
    ensures ClearFirst(msgs, 0) == msgs
  {
    ClearNone(msgs);
  }

  lemma ClearNone(msgs: seq<Message>)
    ensures ClearFirst(msgs, 0) == msgs
  {
    hide Clearable, Cleared;
    if msgs != [] {
      ClearNone(msgs[..|msgs| - 1]);
    }
  }

  /** The k-th clearable message is what clearing one more changes. */
  lemma IndexesClear(msgs: seq<Message>, idxs: seq<nat>, k: nat)
    requires Indexes(msgs, idxs) && k < |idxs|
    ensures idxs[k] < |msgs| && ClearFirst(msgs, k)[idxs[k]] == msgs[idxs[k]]
    ensures ClearFirst(msgs, k + 1) == ClearFirst(msgs, k)[idxs[k] := Cleared(msgs[idxs[k]])]
  {
    hide Clearable, Cleared;
    forall i | 0 <= i < |msgs|
      ensures ClearFirst(msgs, k + 1)[i] == ClearFirst(msgs, k)[idxs[k] := Cleared(msgs[idxs[k]])][i]
      ensures i == idxs[k] ==> ClearFirst(msgs, k)[i] == msgs[i]
    {
      ClearFirstAt(msgs, k, i);
      ClearFirstAt(msgs, k + 1, i);
      if Clearable(msgs[i]) && CountClearable(msgs[..i]) == k {
        SameCountSameIndex(msgs, i, idxs[k]);
      }
    }
  }

  lemma ClearFirstAt(msgs: seq<Message>, n: nat, i: nat)
    requires i < |msgs|
    ensures ClearFirst(msgs, n)[i] == if Clearable(msgs[i]) && CountClearable(msgs[..i]) < n then Cleared(msgs[i]) else msgs[i]
  {
    hide Clearable, Cleared;
    if i < |msgs| - 1 {
      ClearFirstAt(msgs[..|msgs| - 1], n, i);
      assert msgs[..|msgs| - 1][..i] == msgs[..i];
    }
  }

  lemma CountGrows(msgs: seq<Message>, i: nat, j: nat)
    requires i <= j <= |msgs|
    ensures CountClearable(msgs[..i]) <= CountClearable(msgs[..j])
  {
    hide Clearable;
    if i < j {
      assert msgs[..j][..j - 1] == msgs[..j - 1];
      CountGrows(msgs, i, j - 1);
    }
  }

  lemma SameCountSameIndex(msgs: seq<Message>, i: nat, j: nat)
    requires i < |msgs| && j < |msgs| && Clearable(msgs[i]) && Clearable(msgs[j])
    requires CountClearable(msgs[..i]) == CountClearable(msgs[..j])
    ensures i == j
  {
    hide Clearable;
    if i < j {
      assert msgs[..i + 1][..i] == msgs[..i];
      CountGrows(msgs, i + 1, j);
    } else if j < i {
      assert msgs[..j + 1][..j] == msgs[..j];
      CountGrows(msgs, j + 1, i);
    }
  }

  // -------- idempotence and what is left alone --------

  lemma ClearedIsNotClearable(msg: Message)
    ensures !Clearable(Cleared(msg))
  {
    hide IsBlank, TextTokens, TrimSpace, PreviewRunes, Decimal;
    var rest := ClearedContent(msg.content)[|CLEARED_PREFIX|..];
    assert ClearedContent(msg.content) == CLEARED_PREFIX + rest;
  }

  lemma CountAfterClear(msgs: seq<Message>, n: nat)
    ensures CountClearable(ClearFirst(msgs, n)) == if n <= CountClearable(msgs) then CountClearable(msgs) - n else 0
  {
    hide Clearable, Cleared;
    if msgs != [] {
      var front, last := msgs[..|msgs| - 1], msgs[|msgs| - 1];
      CountAfterClear(front, n);
      ClearedIsNotClearable(last);
      var out := ClearFirst(msgs, n);
      assert out[..|out| - 1] == ClearFirst(front, n);
    }
  }

  /** Running microcompaction on its own output changes nothing. */
  lemma Idempotent(msgs: seq<Message>)
    ensures Compacted(Compacted(msgs)) == Compacted(msgs)
  {
    hide ClearFirst, CountClearable, MessageTokens;
    if CountClearable(msgs) > KEEP_RECENT_RESULTS {
      CountAfterClear(msgs, CountClearable(msgs) - KEEP_RECENT_RESULTS);
    }
  }

  /** Only tool results change, only their content, and the newest eight with content never do. */
  lemma OnlyOldResultsChange(msgs: seq<Message>, i: nat)
    requires i < |msgs|
    ensures |Compacted(msgs)| == |msgs|
    ensures Compacted(msgs)[i] == msgs[i] || (msgs[i].role == "tool" && Compacted(msgs)[i] == Cleared(msgs[i]))
    ensures Clearable(msgs[i]) && CountClearable(msgs[i..]) <= KEEP_RECENT_RESULTS ==> Compacted(msgs)[i] == msgs[i]
  {
    hide Cleared, ClearFirst, IsBlank, MessageTokens;
    if CountClearable(msgs) > KEEP_RECENT_RESULTS {
      ClearFirstAt(msgs, CountClearable(msgs) - KEEP_RECENT_RESULTS, i);
      assert msgs[..i] + msgs[i..] == msgs;
      CountConcat(msgs[..i], msgs[i..]);
    }
  }

  lemma CountConcat(a: seq<Message>, b: seq<Message>)
    ensures CountClearable(a + b) == CountClearable(a) + CountClearable(b)
  {
    hide Clearable;
    if b == [] {
      assert a + b == a;
    } else {
      CountConcat(a, b[..|b| - 1]);
      assert (a + b)[..|a + b| - 1] == a + b[..|b| - 1];
    }
  }

  // -------- what is cleared --------

  lemma ClearedPreviews(msg: Message)
    requires Clearable(msg)
    ensures !Clearable(Cleared(msg)) && Previews(msg.content, Cleared(msg).content)
  {
    ClearedIsNotClearable(msg);
    BlankIffTrimmedEmpty(msg.content);
    hide IsBlank, TextTokens, TrimSpace, Decimal, HasPrefix;
    var said := TrimSpace(msg.content);
    var shown := PreviewRunes(said, MAX_PREVIEW_RUNES);
    assert Cleared(msg).content == CLEARED_PREFIX + " original approximately " + Decimal(TextTokens(msg.content)) + " tokens; preview: " + shown + "]";
  }

  lemma OldOnesAreFirst(msgs: seq<Message>, i: nat)
    requires i < |msgs| && Clearable(msgs[i])
    ensures CountClearable(msgs[..i]) + 1 + CountClearable(msgs[i + 1..]) == CountClearable(msgs)
  {
    hide Clearable;
    assert msgs == msgs[..i + 1] + msgs[i + 1..] && msgs[..i + 1][..i] == msgs[..i];
    CountConcat(msgs[..i + 1], msgs[i + 1..]);
  }

  /** Exactly the old results are cleared, and at most eight clearable ones are left. */
  lemma CompactionClears(msgs: seq<Message>)
    ensures OldResultsCleared(msgs, Compacted(msgs))
    ensures MessageTokens(msgs) >= THRESHOLD_TOKENS ==> CountClearable(Compacted(msgs)) <= KEEP_RECENT_RESULTS
  {
    hide Clearable, Cleared, MessageTokens, CountClearable, ClearFirst, Previews;
    var out, n := Compacted(msgs), CountClearable(msgs) - KEEP_RECENT_RESULTS;
    forall i | 0 <= i < |msgs|
      ensures if MessageTokens(msgs) >= THRESHOLD_TOKENS && Clearable(msgs[i]) && CountClearable(msgs[i + 1..]) >= KEEP_RECENT_RESULTS
              then out[i] == Cleared(msgs[i]) else out[i] == msgs[i]
    {
      if Clearable(msgs[i]) {
        OldOnesAreFirst(msgs, i);
      }
      if n > 0 {
        ClearFirstAt(msgs, n, i);
      }
    }
    forall i | 0 <= i < |msgs| && Clearable(msgs[i])
      ensures Cleared(msgs[i]) == msgs[i].(content := Cleared(msgs[i]).content)
      ensures !Clearable(Cleared(msgs[i])) && Previews(msgs[i].content, Cleared(msgs[i]).content)
    {
      ClearedPreviews(msgs[i]);
      ClearedContentOnly(msgs[i]);
    }
    if n > 0 {
      CountAfterClear(msgs, n);
    }
  }

  lemma ClearedContentOnly(msg: Message)
    ensures Cleared(msg) == msg.(content := Cleared(msg).content)
  {
    hide ClearedContent;
  }

  /** This leaves one list of messages only. */
  lemma ClearingIsUnique(msgs: seq<Message>, a: seq<Message>, b: seq<Message>)
    requires OldResultsCleared(msgs, a) && OldResultsCleared(msgs, b)
    ensures a == b
  {
    hide Clearable, MessageTokens, CountClearable, Previews;
    forall i | 0 <= i < |a| ensures a[i] == b[i] {
      if a[i] != msgs[i] {
        PreviewIsUnique(msgs[i].content, a[i].content, b[i].content);
      }
    }
  }

  lemma PreviewIsUnique(original: string, a: string, b: string)
    requires Previews(original, a) && Previews(original, b)
    ensures a == b
  {
    hide TextTokens, TrimSpace, Decimal;
  }

  // -------- validity --------

  /** The same item, but for the content of a tool result. */
  predicate SameExchange(a: Item, b: Item) {
    a == b || (a.ToolResult? && b.ToolResult? && a.result.Some? && b.result.Some?
               && a.result.value.toolCallId == b.result.value.toolCallId)
  }

  lemma OpenIgnoresContent(open: set<string>, a: seq<Item>, b: seq<Item>)
    requires |a| == |b| && forall i :: 0 <= i < |a| ==> SameExchange(a[i], b[i])
    ensures OpenFrom(open, a) == OpenFrom(open, b)
  {
    hide TrimSpace;
    if a != [] {
      OpenIgnoresContent(open, a[..|a| - 1], b[..|b| - 1]);
      assert SameExchange(a[|a| - 1], b[|b| - 1]);
    }
  }

  lemma ItemsOfCleared(codec: Codec, msgs: seq<Message>, n: nat)
    ensures var a, b := ItemsOf(codec, msgs), ItemsOf(codec, ClearFirst(msgs, n));
            |a| == |b| && forall i :: 0 <= i < |a| ==> SameExchange(a[i], b[i])
  {
    hide ToItem, Cleared, Clearable;
    if msgs != [] {
      var front, last := msgs[..|msgs| - 1], msgs[|msgs| - 1];
      ItemsOfCleared(codec, front, n);
      var out := ClearFirst(msgs, n);
      assert out[..|out| - 1] == ClearFirst(front, n);
      if Clearable(last) {
        ItemOfCleared(codec, last);
      }
    }
  }

  lemma ItemOfCleared(codec: Codec, msg: Message)
    requires Clearable(msg)
    ensures ToItem(codec, msg).Some? && ToItem(codec, Cleared(msg)).Some?
    ensures SameExchange(ToItem(codec, msg).value, ToItem(codec, Cleared(msg)).value)
  {
    hide IsBlank, HasPrefix, ClearedContent;
  }

  /** Microcompaction neither breaks nor repairs a transcript. */
  lemma KeepsValidity(codec: Codec, msgs: seq<Message>)
    ensures Valid(ItemsOf(codec, Compacted(msgs))) <==> Valid(ItemsOf(codec, msgs))
  {
    hide ItemsOf, ClearFirst, OpenFrom, CountClearable, MessageTokens;
    if CountClearable(msgs) > KEEP_RECENT_RESULTS {
      var n := CountClearable(msgs) - KEEP_RECENT_RESULTS;
      ItemsOfCleared(codec, msgs, n);
      OpenIgnoresContent({}, ItemsOf(codec, msgs), ItemsOf(codec, ClearFirst(msgs, n)));
    }
  }
}
