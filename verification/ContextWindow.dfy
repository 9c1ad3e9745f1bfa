// The messages sent with a request: what lies behind the last boundary, the window of it that
// fits, and the request made of system prompt, window and turn (internal/v2/agent/context.go).
module ContextWindow {
  import opened Basics
  import opened Text
  import opened ModelAdapter
  import opened ContextBudget

  /** Everything behind the last compaction boundary; all of it when there is none. */
  function AfterBoundary(msgs: seq<Message>): (after: seq<Message>)
    ensures |after| <= |msgs|
  {
    if msgs == [] || IsCompactBoundary(msgs[|msgs| - 1]) then []
    else AfterBoundary(msgs[..|msgs| - 1]) + [msgs[|msgs| - 1]]
  }

  /** It is the longest suffix without a boundary. */
  lemma {:induction false} AfterBoundaryIsSuffix(msgs: seq<Message>)
    ensures var after := AfterBoundary(msgs);
            && after == msgs[|msgs| - |after|..]
            && (forall i :: 0 <= i < |after| ==> !IsCompactBoundary(after[i]))
            && (|after| < |msgs| ==> IsCompactBoundary(msgs[|msgs| - |after| - 1]))
  {
    hide IsCompactBoundary;
    if msgs != [] && !IsCompactBoundary(msgs[|msgs| - 1]) {
      AfterBoundaryIsSuffix(msgs[..|msgs| - 1]);
    }
  }

  method MessagesAfterCompactBoundary(msgs: seq<Message>) returns (after: seq<Message>)
    ensures after == AfterBoundary(msgs)
  {
    hide IsCompactBoundary;
    for i := |msgs| downto 0
      invariant forall k :: i <= k < |msgs| ==> !IsCompactBoundary(msgs[k])
    {
      if IsCompactBoundary(msgs[i]) {
        BoundaryIsUnique(msgs, i + 1);
        return msgs[i + 1..];
      }
    }
    BoundaryIsUnique(msgs, 0);
    return msgs;
  }

  lemma {:induction false} BoundaryIsUnique(msgs: seq<Message>, n: nat)
    requires n <= |msgs| && forall k :: n <= k < |msgs| ==> !IsCompactBoundary(msgs[k])
    requires n > 0 ==> IsCompactBoundary(msgs[n - 1])
    ensures AfterBoundary(msgs) == msgs[n..]
  {
    hide IsCompactBoundary;
    if n < |msgs| {
      var front := msgs[..|msgs| - 1];
      BoundaryIsUnique(front, n);
      assert msgs[n..] == front[n..] + [msgs[|msgs| - 1]];
    }
  }

  function Reversed(msgs: seq<Message>): (r: seq<Message>)
    ensures |r| == |msgs| && forall i :: 0 <= i < |msgs| ==> r[i] == msgs[|msgs| - 1 - i]
  {
    seq(|msgs|, i requires 0 <= i < |msgs| => msgs[|msgs| - 1 - i])
  }

  /** Swaps ends towards the middle, in place. */
  method ReverseMessages(messages: array<Message>)
    modifies messages
    ensures messages[..] == Reversed(old(messages[..]))
  {
    var i, j := 0, messages.Length - 1;
    while i < j
      invariant 0 <= i && i + j == messages.Length - 1 && i <= j + 1
      invariant forall k :: 0 <= k < i || j < k < messages.Length ==> messages[k] == old(messages[messages.Length - 1 - k])
      invariant forall k :: i <= k <= j ==> messages[k] == old(messages[k])
    {
      messages[i], messages[j] := messages[j], messages[i];
      i, j := i + 1, j - 1;
    }
  }

  /** What the request costs before any earlier message is added. */
  function BaseTokens(systemPrompt: string, turn: seq<Message>): nat {
    TextTokens(systemPrompt) + MessageTokens(turn)
  }

  /**
   lo..hi is the window of earlier messages: each newer one that is left out is
   too big by itself, the window fits, and one more older message would not.
   */
  ghost predicate IsWindow(prior: seq<Message>, base: nat, budget: int, lo: nat, hi: nat) {
    && lo <= hi <= |prior|
    && (forall i :: hi <= i < |prior| ==> base + OneMessage(prior[i]) > budget)
    && (lo < hi ==> base + OneMessage(prior[hi - 1]) <= budget)
    && (lo < hi ==> base + MessageTokens(prior[lo..hi]) <= budget)
    && (0 < lo < hi ==> base + MessageTokens(prior[lo - 1..hi]) > budget)
    && (lo == hi ==> hi == 0)
  }

  /** The messages of a request with a given window. */
  function Request(systemPrompt: string, window: seq<Message>, turn: seq<Message>): seq<Message> {
    (if systemPrompt != "" then [Message("", "", "system", systemPrompt, "", 0)] else []) + window + turn
  }

  /** out is the request for one of the windows of the active messages. */
  ghost predicate IsRequest(systemPrompt: string, active: seq<Message>, turn: seq<Message>, budget: int, out: seq<Message>) {
    exists lo: nat, hi: nat ::
      IsWindow(active, BaseTokens(systemPrompt, turn), budget, lo, hi) && lo <= hi <= |active|
      && out == Request(systemPrompt, active[lo..hi], turn)
  }

  method BuildContext(systemPrompt: string, prior: seq<Message>, turn: seq<Message>, maxTokens: int) returns (out: seq<Message>)
    ensures IsRequest(systemPrompt, AfterBoundary(prior), turn, EffectiveContextTokens(maxTokens), out)
  {
    hide AfterBoundary, MessageTokens, TextTokens, OneMessage, IsWindow;
    var budget := if maxTokens <= 0 then EffectiveContextTokens(maxTokens) else maxTokens;
    var active := MessagesAfterCompactBoundary(prior);
    var turnTokens := ApproximateMessageTokens(turn);
    var selected := SelectPrior(active, TextTokens(systemPrompt) + turnTokens, budget);
    ghost var lo: nat, hi: nat :| IsWindow(active, BaseTokens(systemPrompt, turn), budget, lo, hi)
                                  && lo <= hi <= |active| && selected == Reversed(active[lo..hi]);
    selected := InOrder(selected, active[lo..hi]);
    out := [];
    if systemPrompt != "" {
      out := out + [Message("", "", "system", systemPrompt, "", 0)];
    }
    out := out + selected;
    out := out + turn;
  }

  /** The messages collected newest first, put back in order. */
  method InOrder(selected: seq<Message>, ghost window: seq<Message>) returns (inOrder: seq<Message>)
    requires selected == Reversed(window)
    ensures inOrder == window
  {
    var buffer := new Message[|selected|](i requires 0 <= i < |selected| => selected[i]);
    assert buffer[..] == selected;
    ReverseMessages(buffer);
    ReversedTwice(window);
    inOrder := buffer[..];
  }

  lemma ReversedTwice(msgs: seq<Message>)
    ensures Reversed(Reversed(msgs)) == msgs
  {
  }

  /** Walks from the newest message to older ones; collects them in that order. */
  method SelectPrior(prior: seq<Message>, base: nat, budget: int) returns (selected: seq<Message>)
    ensures exists lo: nat, hi: nat ::
              IsWindow(prior, base, budget, lo, hi) && lo <= hi <= |prior| && selected == Reversed(prior[lo..hi])
  {
    hide MessageTokens, TextTokens, OneMessage;
    var used := base;
    selected := [];
    ghost var lo: nat, hi: nat := |prior|, |prior|;
    NoTokens();
    assert prior[lo..hi] == [];
    for i := |prior| downto 0
      invariant lo == i <= hi <= |prior| && (selected == [] <==> hi == lo)
      invariant selected == Reversed(prior[lo..hi])
      invariant used == base + MessageTokens(prior[lo..hi])
      invariant forall k :: hi <= k < |prior| ==> base + OneMessage(prior[k]) > budget
      invariant lo < hi ==> used <= budget && base + OneMessage(prior[hi - 1]) <= budget
    {
      var msg := prior[i];
      var cost := ApproximateMessageTokens([msg]);
      TokensOfOne(msg);
      var next := used + cost;
      WindowGrows(prior, i, hi);
      if next > budget && |selected| > 0 {
        assert IsWindow(prior, base, budget, lo, hi);
        return;
      }
      if next > budget {
        lo, hi := i, i;
        assert prior[i..i] == [];
      } else {
        used := next;
        selected := selected + [msg];
        lo := i;
      }
    }
    assert IsWindow(prior, base, budget, lo, hi);
  }

  lemma NoTokens()
    ensures MessageTokens([]) == 0
  {
  }

  lemma WindowGrows(msgs: seq<Message>, i: nat, hi: nat)
    requires i < hi <= |msgs|
    ensures MessageTokens(msgs[i..hi]) == OneMessage(msgs[i]) + MessageTokens(msgs[i + 1..hi])
  {
    hide OneMessage;
    assert msgs[i..hi] == [msgs[i]] + msgs[i + 1..hi];
    TokensConcat([msgs[i]], msgs[i + 1..hi]);
    TokensOfOne(msgs[i]);
  }

  /** The three conditions leave no choice: there is only one window. */
  lemma WindowIsUnique(prior: seq<Message>, base: nat, budget: int, lo: nat, hi: nat, lo': nat, hi': nat)
    requires IsWindow(prior, base, budget, lo, hi) && IsWindow(prior, base, budget, lo', hi')
    ensures lo == lo' && hi == hi'
  {
    hide MessageTokens, OneMessage;
    if lo < lo' {
      SameEnd(prior, base, budget, lo, hi, lo', hi');
      LongerCostsMore(prior, lo, lo' - 1, hi);
    } else if lo' < lo {
      SameEnd(prior, base, budget, lo, hi, lo', hi');
      LongerCostsMore(prior, lo', lo - 1, hi);
    } else {
      SameEnd(prior, base, budget, lo, hi, lo', hi');
    }
  }

  /** The window ends at the newest message exactly if that fits by itself; it is empty exactly if no message does. */
  lemma NewestIsKeptExactlyWhen(active: seq<Message>, base: nat, budget: int, lo: nat, hi: nat)
    requires IsWindow(active, base, budget, lo, hi)
    ensures hi == |active| <==> active == [] || base + OneMessage(active[|active| - 1]) <= budget
    ensures lo == hi <==> forall i :: 0 <= i < |active| ==> base + OneMessage(active[i]) > budget
  {
    hide OneMessage, MessageTokens;
  }

  lemma BuiltIsTheRequest(systemPrompt: string, active: seq<Message>, turn: seq<Message>, budget: int, lo: nat, hi: nat, out: seq<Message>)
    requires IsWindow(active, BaseTokens(systemPrompt, turn), budget, lo, hi)
    requires IsRequest(systemPrompt, active, turn, budget, out)
    ensures out == Request(systemPrompt, active[lo..hi], turn)
  {
    hide IsWindow, BaseTokens, Request;
    var lo': nat, hi': nat :| IsWindow(active, BaseTokens(systemPrompt, turn), budget, lo', hi') && lo' <= hi' <= |active|
                              && out == Request(systemPrompt, active[lo'..hi'], turn);
    WindowIsUnique(active, BaseTokens(systemPrompt, turn), budget, lo, hi, lo', hi');
  }

  lemma SameWindow(systemPrompt: string, a: seq<Message>, b: seq<Message>, turn: seq<Message>)
    requires Request(systemPrompt, a, turn) == Request(systemPrompt, b, turn)
    ensures a == b
  {
    var n := if systemPrompt != "" then 1 else 0;
    var out := Request(systemPrompt, a, turn);
    assert a == out[n..|out| - |turn|] && b == out[n..|out| - |turn|];
  }

  /** What the request keeps of the history is its newest part exactly if the newest message fits by itself, or if none does. */
  lemma CutFromOldestExactlyWhen(systemPrompt: string, active: seq<Message>, turn: seq<Message>, budget: int, out: seq<Message>)
    requires IsRequest(systemPrompt, active, turn, budget, out)
    ensures var base := BaseTokens(systemPrompt, turn);
            (exists from :: 0 <= from <= |active| && out == Request(systemPrompt, active[from..], turn))
            <==> || active == [] || base + OneMessage(active[|active| - 1]) <= budget
                 || forall i :: 0 <= i < |active| ==> base + OneMessage(active[i]) > budget
  {
    hide BaseTokens, Request, OneMessage, MessageTokens, IsWindow;
    var base := BaseTokens(systemPrompt, turn);
    var lo: nat, hi: nat :| IsWindow(active, base, budget, lo, hi) && lo <= hi <= |active| && out == Request(systemPrompt, active[lo..hi], turn);
    NewestIsKeptExactlyWhen(active, base, budget, lo, hi);
    if hi == |active| {
      assert active[lo..hi] == active[lo..];
    } else if lo == hi {
      assert active[lo..hi] == active[|active|..];
    } else {
      forall from | 0 <= from <= |active| ensures out != Request(systemPrompt, active[from..], turn) {
        if out == Request(systemPrompt, active[from..], turn) {
          SameWindow(systemPrompt, active[lo..hi], active[from..], turn);
          NotASuffix(active, base, budget, lo, hi, from);
        }
      }
    }
  }

  lemma NotASuffix(active: seq<Message>, base: nat, budget: int, lo: nat, hi: nat, from: nat)
    requires IsWindow(active, base, budget, lo, hi) && lo < hi < |active| && from <= |active|
    ensures active[lo..hi] != active[from..]
  {
    hide OneMessage, MessageTokens;
    if hi - lo == |active| - from {
      assert active[lo..hi][hi - lo - 1] == active[hi - 1];
      assert active[from..][hi - lo - 1] == active[|active| - 1];
    }
  }

  /** A newest message that is too big by itself is left out, while the older one that fits is sent: not a cut from the oldest side. */
  lemma OlderIsKeptInstead(systemPrompt: string, older: Message, newest: Message, turn: seq<Message>, budget: int, out: seq<Message>)
    requires BaseTokens(systemPrompt, turn) + OneMessage(older) <= budget < BaseTokens(systemPrompt, turn) + OneMessage(newest)
    requires IsRequest(systemPrompt, [older, newest], turn, budget, out)
    ensures out == Request(systemPrompt, [older], turn)
  {
    hide OneMessage, BaseTokens, Request, IsRequest;
    var active := [older, newest];
    TokensOfOne(older);
    assert active[0..1] == [older];
    assert IsWindow(active, BaseTokens(systemPrompt, turn), budget, 0, 1) by { hide MessageTokens; }
    BuiltIsTheRequest(systemPrompt, active, turn, budget, 0, 1, out);
  }

  /** Such messages and budgets exist. */
  lemma OlderKeptInput()
    ensures var older, newest := Message("", "", "u", "", "", 0), Message("", "", "u", "u", "", 0);
            BaseTokens("", []) + OneMessage(older) <= EffectiveContextTokens(1) < BaseTokens("", []) + OneMessage(newest)
  {
    var u := "u";
    assert u[..0] == "";
  }

  lemma SameEnd(prior: seq<Message>, base: nat, budget: int, lo: nat, hi: nat, lo': nat, hi': nat)
    requires IsWindow(prior, base, budget, lo, hi) && IsWindow(prior, base, budget, lo', hi')
    ensures hi == hi'
  {
    hide MessageTokens, OneMessage;
  }

  lemma LongerCostsMore(msgs: seq<Message>, i: nat, j: nat, hi: nat)
    requires i <= j <= hi <= |msgs|
    ensures MessageTokens(msgs[j..hi]) <= MessageTokens(msgs[i..hi])
  {
    assert msgs[i..hi] == msgs[i..j] + msgs[j..hi];
    TokensConcat(msgs[i..j], msgs[j..hi]);
  }

  /** The request's estimate stays within the budget, or the system prompt and turn alone, plus the system role. */
  lemma RequestFits(systemPrompt: string, active: seq<Message>, turn: seq<Message>, budget: int, out: seq<Message>)
    requires IsRequest(systemPrompt, active, turn, budget, out)
    ensures var base := BaseTokens(systemPrompt, turn);
            MessageTokens(out) <= (if base > budget then base else budget) + 2
  {
    hide MessageTokens, TextTokens, OneMessage, IsWindow, Request;
    var lo: nat, hi: nat :| IsWindow(active, BaseTokens(systemPrompt, turn), budget, lo, hi)
                            && lo <= hi <= |active| && out == Request(systemPrompt, active[lo..hi], turn);
    WindowFits(systemPrompt, active, turn, budget, lo, hi);
  }

  lemma WindowFits(systemPrompt: string, prior: seq<Message>, turn: seq<Message>, budget: int, lo: nat, hi: nat)
    requires IsWindow(prior, BaseTokens(systemPrompt, turn), budget, lo, hi)
    ensures var base := BaseTokens(systemPrompt, turn);
            MessageTokens(Request(systemPrompt, prior[lo..hi], turn)) <= (if base > budget then base else budget) + 2
  {
    var head := if systemPrompt != "" then [Message("", "", "system", systemPrompt, "", 0)] else [];
    var window := prior[lo..hi];
    SystemRole();
    TokensConcat(head + window, turn);
    TokensConcat(head, window);
    NoTokens();
    if systemPrompt != "" {
      TokensOfOne(head[0]);
      assert TextTokens("") == 0;
    }
    hide MessageTokens, TextTokens;
    assert lo == hi ==> window == [];
  }

  lemma SystemRole()
    ensures TextTokens("system") == 2
  {
    var s := "system";
    assert s[..5] == "syste" && s[..5][..4] == "syst" && s[..5][..4][..3] == "sys" && s[..5][..4][..3][..2] == "sy" && s[..5][..4][..3][..2][..1] == "s";
    BytesOfAscii(s);
  }

  lemma BytesOfAscii(s: string)
    requires forall i :: 0 <= i < |s| ==> s[i] < '\U{80}'
    ensures Bytes(s) == |s|
  {
  }

  /** The system prompt comes first, if there is one; then one part of the history; and the whole turn last. */
  lemma RequestIsInOrder(systemPrompt: string, active: seq<Message>, turn: seq<Message>, budget: int, out: seq<Message>)
    requires IsRequest(systemPrompt, active, turn, budget, out)
    ensures var n := if systemPrompt == "" then 0 else 1;
            && n + |turn| <= |out| && out[|out| - |turn|..] == turn
            && (systemPrompt != "" ==> out[0].role == "system" && out[0].content == systemPrompt)
            && exists lo: nat, hi: nat :: IsWindow(active, BaseTokens(systemPrompt, turn), budget, lo, hi) && lo <= hi <= |active|
                                          && out[n..|out| - |turn|] == active[lo..hi]
  {
    hide BaseTokens, IsWindow;
    var lo: nat, hi: nat :| IsWindow(active, BaseTokens(systemPrompt, turn), budget, lo, hi) && lo <= hi <= |active|
                            && out == Request(systemPrompt, active[lo..hi], turn);
    var n := if systemPrompt == "" then 0 else 1;
    assert out[n..|out| - |turn|] == active[lo..hi];
  }
}
