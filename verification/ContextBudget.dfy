// The token estimate, by bytes or by characters and never below one, and the thresholds
// of context management (internal/v2/agent/context_budget.go).
module ContextBudget {
  import opened Basics
  import opened Text
  import opened ModelAdapter

  const DEFAULT_EFFECTIVE_TOKENS := 200_000 - 20_000
  const AUTO_COMPACT_BUFFER := 13_000
  const KEEP_RECENT_TOKENS := 40_000

  /** Bytes of a character in UTF-8. */
  function ByteLength(c: char): (n: nat)
    ensures 1 <= n <= 4
  {
    if c < '\U{80}' then 1 else if c < '\U{800}' then 2 else if c < '\U{10000}' then 3 else 4
  }

  function Bytes(text: string): (n: nat)
    ensures n >= |text|
  {
    if text == "" then 0 else Bytes(text[..|text| - 1]) + ByteLength(text[|text| - 1])
  }

  /** A quarter of the bytes or, outside ASCII, at least half of the characters; rounded up, so never below one. */
  function TextTokens(text: string): (n: nat)
    ensures text != "" ==> n >= 1
  {
    if text == "" then 0
    else
      var byBytes := (Bytes(text) + 3) / 4;
      var byRunes := (|text| + 1) / 2;
      if |text| != Bytes(text) && byRunes > byBytes then byRunes else byBytes
  }

  function OneMessage(msg: Message): nat {
    TextTokens(msg.role) + TextTokens(msg.content) + TextTokens(msg.toolCallId)
  }

  function MessageTokens(msgs: seq<Message>): nat {
    if msgs == [] then 0 else MessageTokens(msgs[..|msgs| - 1]) + OneMessage(msgs[|msgs| - 1])
  }

  method ApproximateMessageTokens(msgs: seq<Message>) returns (total: nat)
    ensures total == MessageTokens(msgs)
  {
    hide TextTokens;
    total := 0;
    for i := 0 to |msgs|
      invariant total == MessageTokens(msgs[..i])
    {
      assert msgs[..i + 1][..i] == msgs[..i];
      total := total + TextTokens(msgs[i].role);
      total := total + TextTokens(msgs[i].content);
      total := total + TextTokens(msgs[i].toolCallId);
    }
    assert msgs[..|msgs|] == msgs;
  }

  function EffectiveContextTokens(maxContextTokens: int): int {
    if maxContextTokens > 0 then maxContextTokens else DEFAULT_EFFECTIVE_TOKENS
  }

  function AutoCompactThreshold(maxContextTokens: int): (t: int)
    ensures maxContextTokens > 0 ==> maxContextTokens / 2 <= t < maxContextTokens || t == maxContextTokens / 2
  {
    if maxContextTokens <= 0 then DEFAULT_EFFECTIVE_TOKENS - AUTO_COMPACT_BUFFER
    else if maxContextTokens - AUTO_COMPACT_BUFFER < maxContextTokens / 2 then maxContextTokens / 2
    else maxContextTokens - AUTO_COMPACT_BUFFER
  }

  function KeepRecentTokensFor(maxContextTokens: int): int {
    if maxContextTokens <= 0 || KEEP_RECENT_TOKENS <= maxContextTokens / 2 then KEEP_RECENT_TOKENS
    else maxContextTokens / 2
  }

  lemma BytesConcat(a: string, b: string)
    ensures Bytes(a + b) == Bytes(a) + Bytes(b)
  {
    hide ByteLength;
    if b == "" {
      assert a + b == a;
    } else {
      BytesConcat(a, b[..|b| - 1]);
      assert (a + b)[..|a + b| - 1] == a + b[..|b| - 1];
    }
  }

  /** Longer texts never get a smaller estimate. */
  lemma TokensMonotone(a: string, b: string)
    ensures TextTokens(a) <= TextTokens(a + b)
  {
    BytesConcat(a, b);
    hide Bytes;
    if a != "" {
      assert a + b != "";
    }
  }

  lemma TokensConcat(a: seq<Message>, b: seq<Message>)
    ensures MessageTokens(a + b) == MessageTokens(a) + MessageTokens(b)
  {
    hide OneMessage;
    if b == [] {
      assert a + b == a;
    } else {
      TokensConcat(a, b[..|b| - 1]);
      assert (a + b)[..|a + b| - 1] == a + b[..|b| - 1];
    }
  }

  lemma TokensOfOne(msg: Message)
    ensures MessageTokens([msg]) == OneMessage(msg)
  {
    hide OneMessage;
    assert [msg][..0] == [];
  }

  /** The estimate of a suffix is that of its two parts together. */
  lemma SuffixTokens(msgs: seq<Message>, i: nat, j: nat)
    requires i <= j <= |msgs|
    ensures MessageTokens(msgs[i..]) == MessageTokens(msgs[i..j]) + MessageTokens(msgs[j..])
  {
    assert msgs[i..] == msgs[i..j] + msgs[j..];
    TokensConcat(msgs[i..j], msgs[j..]);
  }

  // -------- what the estimates are --------

  function Above(text: string, c: char): nat {
    if text == "" then 0 else Above(text[..|text| - 1], c) + if text[|text| - 1] >= c then 1 else 0
  }

  /** Characters outside ASCII cost a second byte, then a third, then a fourth. */
  lemma {:induction false} BytesOfText(text: string)
    ensures Bytes(text) == |text| + Above(text, '\U{80}') + Above(text, '\U{800}') + Above(text, '\U{10000}')
  {
    if text != "" {
      BytesOfText(text[..|text| - 1]);
    }
  }

  /** Enough tokens for a text: one for four bytes and, unless it is all ASCII, one for two characters. */
  predicate Enough(text: string, n: nat) {
    Bytes(text) <= 4 * n && (Bytes(text) != |text| ==> |text| <= 2 * n)
  }

  /** The estimate is the least number that is enough. */
  lemma TokensAreLeast(text: string, n: nat)
    ensures Enough(text, TextTokens(text))
    ensures Enough(text, n) ==> TextTokens(text) <= n
  {
    hide Bytes;
    if text == "" {
      BytesOfText(text);
    }
  }

  /** A text has more bytes than characters exactly if some character is outside ASCII. */
  lemma {:induction false} AsciiExactlyWhen(text: string)
    ensures Bytes(text) == |text| <==> forall i :: 0 <= i < |text| ==> text[i] < '\U{80}'
  {
    hide ByteLength;
    if text != "" {
      var front, last := text[..|text| - 1], text[|text| - 1];
      AsciiExactlyWhen(front);
      OneByteExactlyWhen(last);
      assert forall i :: 0 <= i < |front| ==> front[i] == text[i];
    }
  }

  lemma OneByteExactlyWhen(c: char)
    ensures ByteLength(c) == 1 <==> c < '\U{80}'
  {
  }

  function Sum(costs: seq<nat>): nat {
    if costs == [] then 0 else Sum(costs[..|costs| - 1]) + costs[|costs| - 1]
  }

  function Costs(texts: seq<string>): (costs: seq<nat>)
    ensures |costs| == |texts| && forall i :: 0 <= i < |texts| ==> costs[i] == TextTokens(texts[i])
  {
    seq(|texts|, i requires 0 <= i < |texts| => TextTokens(texts[i]))
  }

  function Roles(msgs: seq<Message>): (r: seq<string>)
    ensures |r| == |msgs| && forall i :: 0 <= i < |r| ==> r[i] == msgs[i].role
  {
    seq(|msgs|, i requires 0 <= i < |msgs| => msgs[i].role)
  }

  function Contents(msgs: seq<Message>): (r: seq<string>)
    ensures |r| == |msgs| && forall i :: 0 <= i < |r| ==> r[i] == msgs[i].content
  {
    seq(|msgs|, i requires 0 <= i < |msgs| => msgs[i].content)
  }

  function CallIds(msgs: seq<Message>): (r: seq<string>)
    ensures |r| == |msgs| && forall i :: 0 <= i < |r| ==> r[i] == msgs[i].toolCallId
  {
    seq(|msgs|, i requires 0 <= i < |msgs| => msgs[i].toolCallId)
  }

  lemma CostsFront(texts: seq<string>)
    requires texts != []
    ensures Costs(texts)[..|texts| - 1] == Costs(texts[..|texts| - 1])
  {
  }

  /** Messages cost what all their roles, all their contents and all their call ids do. */
  lemma {:induction false} MessagesCostTheirTexts(msgs: seq<Message>)
    ensures MessageTokens(msgs) == Sum(Costs(Roles(msgs))) + Sum(Costs(Contents(msgs))) + Sum(Costs(CallIds(msgs)))
  {
    hide TextTokens, Costs, Roles, Contents, CallIds;
    if msgs != [] {
      var front := msgs[..|msgs| - 1];
      MessagesCostTheirTexts(front);
      CostsFront(Roles(msgs));
      CostsFront(Contents(msgs));
      CostsFront(CallIds(msgs));
      assert Roles(msgs)[..|front|] == Roles(front) && Contents(msgs)[..|front|] == Contents(front) && CallIds(msgs)[..|front|] == CallIds(front);
    }
  }

  /** For every model: what a compaction keeps is less than what starts one, which is less than what the model takes. */
  lemma ThresholdsAreOrdered(maxContextTokens: int)
    ensures var keep, start, all := KeepRecentTokensFor(maxContextTokens), AutoCompactThreshold(maxContextTokens),
                                    EffectiveContextTokens(maxContextTokens);
            && keep <= start < all
            && (maxContextTokens <= 0 || maxContextTokens >= 80_000 ==> keep == 40_000)
            && (0 < maxContextTokens < 80_000 ==> 2 * keep <= maxContextTokens < 2 * keep + 2)
            && (maxContextTokens > 0 ==> all == maxContextTokens) && (maxContextTokens <= 0 ==> all == 180_000)
            && (maxContextTokens <= 0 || maxContextTokens >= 26_000 ==> all - start == 13_000)
            && (0 < maxContextTokens < 26_000 ==> 2 * start <= maxContextTokens < 2 * start + 2)
  {
  }
}
