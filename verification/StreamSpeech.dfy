/** What a stream says and what its items hold (internal/v2/agent/agent.go). */
module StreamSpeech {
  import opened Basics
  import opened Text
  import opened Transcript
  import opened AgentLoop

  /** A stream said letter by letter, thought by thought, call by call. */
  datatype Token = Letter(c: char) | Thought(text: string, signature: string) | Asked(call: Call)

  function Letters(text: string): (t: seq<Token>)
    ensures |t| == |text| && forall i :: 0 <= i < |t| ==> t[i] == Letter(text[i])
  {
    seq(|text|, i requires 0 <= i < |text| => Letter(text[i]))
  }

  // -------- of the events --------

  /** What has been thought since the last event that was no thought. */
  function Musing(events: seq<StreamEvent>): string {
    if events == [] || !events[|events| - 1].ThinkingDelta? then ""
    else Musing(events[..|events| - 1]) + events[|events| - 1].text
  }

  function Unsigned(musing: string): seq<Token> {
    if musing == "" then [] else [Thought(musing, "")]
  }

  /** What the events said; a thought is over at its signature, which may stand alone, or at the next event that is no thought. */
  function Uttered(events: seq<StreamEvent>): seq<Token> {
    if events == [] then []
    else
      var front, musing := events[..|events| - 1], Musing(events[..|events| - 1]);
      match events[|events| - 1]
      case ThinkingDelta(_) => Uttered(front)
      case ThinkingSignature(signature) =>
        Uttered(front) + if musing == "" && IsBlank(signature) then [] else [Thought(musing, signature)]
      case TextDelta(text) => (Uttered(front) + Unsigned(musing)) + Letters(text)
      case ToolCallEnd(id, name, args, generatedId) =>
        (Uttered(front) + Unsigned(musing)) + [Asked(Call(if IsBlank(id) then generatedId else id, name, args))]
      case _ => Uttered(front) + Unsigned(musing)
  }

  function Said(events: seq<StreamEvent>): seq<Token> {
    Uttered(events) + Unsigned(Musing(events))
  }

  // -------- of the items --------

  function TokensOf(item: Item): seq<Token> {
    match item
    case AssistantText(text) => Letters(text)
    case AssistantThinking(text, signature) => [Thought(text, signature)]
    case ToolCall(id, name, args) => [Asked(Call(id, name, args))]
    case _ => []
  }

  function Tokens(items: seq<Item>): seq<Token> {
    if items == [] then [] else Tokens(items[..|items| - 1]) + TokensOf(items[|items| - 1])
  }

  /** No text is empty, and none follows another. */
  ghost predicate TextsApart(items: seq<Item>) {
    && (forall i :: 0 <= i < |items| && items[i].AssistantText? ==> items[i].text != "")
    && (forall i :: 0 <= i < |items| - 1 ==> !(items[i].AssistantText? && items[i + 1].AssistantText?))
    && (forall i :: 0 <= i < |items| ==> IsSpeech(items[i]))
  }

  lemma TokensAppend(items: seq<Item>, item: Item)
    ensures Tokens(items + [item]) == Tokens(items) + TokensOf(item)
  {
    assert (items + [item])[..|items|] == items;
  }

  lemma TextsStayApart(items: seq<Item>, item: Item)
    requires TextsApart(items) && IsSpeech(item)
    requires item.AssistantText? ==> item.text != "" && (items == [] || !items[|items| - 1].AssistantText?)
    ensures TextsApart(items + [item])
  {
  }

  lemma FrontApart(items: seq<Item>)
    requires items != [] && TextsApart(items)
    ensures TextsApart(items[..|items| - 1])
    ensures items[|items| - 1].AssistantText? && |items| > 1 ==> !items[|items| - 2].AssistantText?
  {
    var front := items[..|items| - 1];
    assert forall i :: 0 <= i < |front| ==> front[i] == items[i];
  }

  lemma TextIsAdded(items: seq<Item>, text: string)
    requires TextsApart(items) && text != ""
    ensures TextsApart(AddText(items, text)) && Tokens(AddText(items, text)) == Tokens(items) + Letters(text)
  {
    if items != [] && items[|items| - 1].AssistantText? {
      FrontApart(items);
      var front, last := items[..|items| - 1], items[|items| - 1].text;
      assert items == front + [AssistantText(last)];
      hide Letters, TextsApart, Tokens;
      TextGrows(front, last, text);
      TextsStayApart(front, AssistantText(last + text));
    } else {
      hide TextsApart, Tokens, Letters;
      TokensAppend(items, AssistantText(text));
      TextsStayApart(items, AssistantText(text));
    }
  }

  lemma LettersOfJoined(a: string, b: string)
    ensures Letters(a + b) == Letters(a) + Letters(b)
  {
  }

  lemma TextGrows(front: seq<Item>, last: string, text: string)
    ensures Tokens(front + [AssistantText(last + text)]) == Tokens(front + [AssistantText(last)]) + Letters(text)
  {
    hide Tokens, Letters;
    TokensAppend(front, AssistantText(last + text));
    TokensAppend(front, AssistantText(last));
    LettersOfJoined(last, text);
    assert Tokens(front) + (Letters(last) + Letters(text)) == (Tokens(front) + Letters(last)) + Letters(text);
  }

  lemma ThoughtIsFlushed(h: Heard)
    requires TextsApart(h.items) && h.signature == ""
    ensures var f := Flush(h);
            && f.thinking == "" && f.signature == "" && TextsApart(f.items) && f.calls == h.calls
            && Tokens(f.items) == Tokens(h.items) + Unsigned(h.thinking)
  {
    TokensAppend(h.items, AssistantThinking(h.thinking, h.signature));
    hide Tokens;
  }

  lemma SignedThought(h: Heard, signature: string)
    requires TextsApart(h.items)
    ensures var f := Flush(h.(signature := signature));
            && f.thinking == "" && f.signature == "" && TextsApart(f.items)
            && Tokens(f.items) == Tokens(h.items) + if h.thinking == "" && IsBlank(signature) then [] else [Thought(h.thinking, signature)]
  {
    TokensAppend(h.items, AssistantThinking(h.thinking, signature));
    hide Tokens, IsBlank;
  }

  // -------- the items say what the events said --------

  lemma {:induction false} HeardIsUttered(events: seq<StreamEvent>)
    requires HearAll(events).Some?
    ensures var h := HearAll(events).value;
            && Tokens(h.items) == Uttered(events) && h.thinking == Musing(events) && h.signature == "" && TextsApart(h.items)
  {
    hide Flush, AddText, Tokens, TextsApart, IsBlank, Unsigned;
    if events == [] {
      NothingSaid();
    } else {
      var front, e := events[..|events| - 1], events[|events| - 1];
      HeardIsUttered(front);
      var h := HearAll(front).value;
      ThoughtIsFlushed(h);
      var f := Flush(h);
      match e
      case TextDelta(text) =>
        if text != "" {
          TextIsAdded(f.items, text);
        } else {
          assert Letters(text) == [];
        }
      case ThinkingSignature(signature) => SignedThought(h, signature);
      case ToolCallEnd(_, name, args, _) =>
        TokensAppend(f.items, ToolCall(CallId(e), name, args));
        TextsStayApart(f.items, ToolCall(CallId(e), name, args));
      case _ =>
    }
  }

  lemma NothingSaid()
    ensures Tokens([]) == [] && TextsApart([])
  {
  }

  /**
   For every stream that ends well: the items hold, in order, each letter of its text deltas, each thought
   with the signature that closed it, and each call; and no text item is empty or follows another.
   */
  lemma ItemsSayWhatTheStreamSaid(events: seq<StreamEvent>)
    requires Spoken(events).Some?
    ensures Tokens(Spoken(events).value.items) == Said(events) && TextsApart(Spoken(events).value.items)
  {
    hide Flush, Tokens, TextsApart, Unsigned, Uttered, Musing, Hear;
    HeardIsUttered(events);
    ThoughtIsFlushed(HearAll(events).value);
  }

  // -------- which leaves one list of items --------

  lemma LastToken(items: seq<Item>)
    requires items != [] && TextsApart(items)
    ensures Tokens(items) != [] && (Tokens(items)[|Tokens(items)| - 1].Letter? <==> items[|items| - 1].AssistantText?)
  {
    hide Letters;
    assert TokensOf(items[|items| - 1]) != [];
  }

  /** Items with texts apart are told by their tokens. */
  lemma {:induction false} ItemsAreTold(a: seq<Item>, b: seq<Item>)
    requires TextsApart(a) && TextsApart(b) && Tokens(a) == Tokens(b)
    ensures a == b
    decreases |a|
  {
    hide TextsApart, Letters;
    if a == [] {
      if b != [] {
        LastToken(b);
      }
    } else {
      LastToken(a);
      if b != [] {
        LastToken(b);
        SameLast(a, b);
        var m, n := |a| - 1, |b| - 1;
        FrontApart(a);
        FrontApart(b);
        ItemsAreTold(a[..m], b[..n]);
        assert a == a[..m] + [a[m]] && b == b[..n] + [b[n]];
      }
    }
  }

  lemma SameLast(a: seq<Item>, b: seq<Item>)
    requires TextsApart(a) && TextsApart(b) && Tokens(a) == Tokens(b) && a != [] && b != []
    ensures a[|a| - 1] == b[|b| - 1] && Tokens(a[..|a| - 1]) == Tokens(b[..|b| - 1])
  {
    LastToken(a);
    LastToken(b);
    BehindNoLetter(a);
    BehindNoLetter(b);
    TokensSplit(a);
    TokensSplit(b);
    hide Tokens, TextsApart, Letters;
    var p, q := a[|a| - 1], b[|b| - 1];
    var s, t := Tokens(a[..|a| - 1]), Tokens(b[..|b| - 1]);
    if p.AssistantText? {
      SameLetters(s, p.text, t, q.text);
    } else {
      SameOne(s, p, t, q);
    }
  }

  lemma TokensSplit(items: seq<Item>)
    requires items != [] && TextsApart(items)
    ensures Tokens(items) == Tokens(items[..|items| - 1]) + TokensOf(items[|items| - 1]) && IsSpeech(items[|items| - 1])
  {
  }

  /** What comes before a text is no letter. */
  lemma BehindNoLetter(items: seq<Item>)
    requires items != [] && TextsApart(items)
    ensures var before := Tokens(items[..|items| - 1]);
            items[|items| - 1].AssistantText? ==> before == [] || !before[|before| - 1].Letter?
  {
    FrontApart(items);
    if |items| > 1 {
      LastToken(items[..|items| - 1]);
    }
    hide Letters, TextsApart;
  }

  lemma SameOne(s: seq<Token>, p: Item, t: seq<Token>, q: Item)
    requires s + TokensOf(p) == t + TokensOf(q)
    requires IsSpeech(p) && IsSpeech(q) && !p.AssistantText? && !q.AssistantText?
    ensures s == t && p == q
  {
    hide Letters;
    var x, y := TokensOf(p), TokensOf(q);
    assert (s + x)[..|s + x| - 1] == s && (t + y)[..|t + y| - 1] == t;
    assert (s + x)[|s + x| - 1] == x[0] && (t + y)[|t + y| - 1] == y[0];
  }

  /** The letters at the end of a list of tokens, behind something that is none, are the same ones. */
  lemma SameLetters(s: seq<Token>, x: string, t: seq<Token>, y: string)
    requires s + Letters(x) == t + Letters(y)
    requires s == [] || !s[|s| - 1].Letter?
    requires t == [] || !t[|t| - 1].Letter?
    ensures s == t && x == y
  {
    var all := s + Letters(x);
    assert |all| == |s| + |x| == |t| + |y|;
    assert all[..|s|] == s && all[|s|..] == Letters(x);
    assert (t + Letters(y))[..|t|] == t && (t + Letters(y))[|t|..] == Letters(y);
    forall i | 0 <= i < |x| ensures x[i] == y[i] {
      assert Letters(x)[i] == Letters(y)[i];
    }
  }

  // -------- text, thoughts and calls by themselves --------

  function JoinedText(items: seq<Item>): string {
    if items == [] then ""
    else JoinedText(items[..|items| - 1]) + if items[|items| - 1].AssistantText? then items[|items| - 1].text else ""
  }

  function JoinedTextDeltas(events: seq<StreamEvent>): string {
    if events == [] then ""
    else JoinedTextDeltas(events[..|events| - 1]) + if events[|events| - 1].TextDelta? then events[|events| - 1].text else ""
  }

  function JoinedThoughts(items: seq<Item>): string {
    if items == [] then ""
    else JoinedThoughts(items[..|items| - 1]) + if items[|items| - 1].AssistantThinking? then items[|items| - 1].text else ""
  }

  function JoinedThinkingDeltas(events: seq<StreamEvent>): string {
    if events == [] then ""
    else JoinedThinkingDeltas(events[..|events| - 1]) + if events[|events| - 1].ThinkingDelta? then events[|events| - 1].text else ""
  }

  function CallsEnded(events: seq<StreamEvent>): seq<Call> {
    if events == [] then []
    else
      var e := events[|events| - 1];
      CallsEnded(events[..|events| - 1])
      + if e.ToolCallEnd? then [Call(if IsBlank(e.id) then e.generatedId else e.id, e.name, e.args)] else []
  }

  function LettersIn(tokens: seq<Token>): string {
    if tokens == [] then ""
    else LettersIn(tokens[..|tokens| - 1]) + if tokens[|tokens| - 1].Letter? then [tokens[|tokens| - 1].c] else ""
  }

  function ThoughtsIn(tokens: seq<Token>): string {
    if tokens == [] then ""
    else ThoughtsIn(tokens[..|tokens| - 1]) + if tokens[|tokens| - 1].Thought? then tokens[|tokens| - 1].text else ""
  }

  function AskedIn(tokens: seq<Token>): seq<Call> {
    if tokens == [] then []
    else AskedIn(tokens[..|tokens| - 1]) + if tokens[|tokens| - 1].Asked? then [tokens[|tokens| - 1].call] else []
  }

  lemma {:induction false} LettersJoin(a: seq<Token>, b: seq<Token>)
    ensures LettersIn(a + b) == LettersIn(a) + LettersIn(b)
  {
    if b == [] {
      assert a + b == a;
    } else {
      LettersJoin(a, b[..|b| - 1]);
      assert (a + b)[..|a + b| - 1] == a + b[..|b| - 1];
    }
  }

  lemma {:induction false} ThoughtsJoin(a: seq<Token>, b: seq<Token>)
    ensures ThoughtsIn(a + b) == ThoughtsIn(a) + ThoughtsIn(b)
  {
    if b == [] {
      assert a + b == a;
    } else {
      ThoughtsJoin(a, b[..|b| - 1]);
      assert (a + b)[..|a + b| - 1] == a + b[..|b| - 1];
    }
  }

  lemma {:induction false} AskedJoin(a: seq<Token>, b: seq<Token>)
    ensures AskedIn(a + b) == AskedIn(a) + AskedIn(b)
  {
    if b == [] {
      assert a + b == a;
    } else {
      AskedJoin(a, b[..|b| - 1]);
      assert (a + b)[..|a + b| - 1] == a + b[..|b| - 1];
    }
  }

  lemma PartsOfJoined(a: seq<Token>, b: seq<Token>)
    ensures LettersIn(a + b) == LettersIn(a) + LettersIn(b)
    ensures ThoughtsIn(a + b) == ThoughtsIn(a) + ThoughtsIn(b)
    ensures AskedIn(a + b) == AskedIn(a) + AskedIn(b)
  {
    LettersJoin(a, b);
    ThoughtsJoin(a, b);
    AskedJoin(a, b);
  }

  lemma {:induction false} PartsOfLetters(text: string)
    ensures LettersIn(Letters(text)) == text && ThoughtsIn(Letters(text)) == "" && AskedIn(Letters(text)) == []
  {
    if text != "" {
      PartsOfLetters(text[..|text| - 1]);
      assert Letters(text)[..|text| - 1] == Letters(text[..|text| - 1]);
    }
  }

  lemma PartsOfOne(t: Token)
    ensures LettersIn([t]) == if t.Letter? then [t.c] else ""
    ensures ThoughtsIn([t]) == if t.Thought? then t.text else ""
    ensures AskedIn([t]) == if t.Asked? then [t.call] else []
  {
    assert [t][..0] == [];
  }

  lemma PartsOfItem(item: Item)
    ensures var t := TokensOf(item);
            && LettersIn(t) == (if item.AssistantText? then item.text else "")
            && ThoughtsIn(t) == (if item.AssistantThinking? then item.text else "")
            && AskedIn(t) == if item.ToolCall? then [Call(item.id, item.name, item.args)] else []
  {
    hide Letters;
    if item.AssistantText? {
      PartsOfLetters(item.text);
    } else if TokensOf(item) != [] {
      PartsOfOne(TokensOf(item)[0]);
    }
  }

  lemma {:induction false} PartsOfItems(items: seq<Item>)
    ensures LettersIn(Tokens(items)) == JoinedText(items) && ThoughtsIn(Tokens(items)) == JoinedThoughts(items)
    ensures AskedIn(Tokens(items)) == CallsIn(items)
  {
    hide LettersIn, ThoughtsIn, AskedIn, TokensOf;
    if items == [] {
      PartsOfNothing();
    } else {
      PartsOfItems(items[..|items| - 1]);
      PartsOfJoined(Tokens(items[..|items| - 1]), TokensOf(items[|items| - 1]));
      PartsOfItem(items[|items| - 1]);
    }
  }

  lemma PartsOfNothing()
    ensures LettersIn([]) == "" && ThoughtsIn([]) == "" && AskedIn([]) == []
  {
  }

  lemma PartsOfUnsigned(musing: string)
    ensures LettersIn(Unsigned(musing)) == "" && ThoughtsIn(Unsigned(musing)) == musing && AskedIn(Unsigned(musing)) == []
  {
    hide LettersIn, ThoughtsIn, AskedIn;
    PartsOfNothing();
    PartsOfOne(Thought(musing, ""));
  }

  lemma {:induction false} PartsOfUttered(events: seq<StreamEvent>)
    ensures LettersIn(Uttered(events)) == JoinedTextDeltas(events)
    ensures ThoughtsIn(Uttered(events)) + Musing(events) == JoinedThinkingDeltas(events)
    ensures AskedIn(Uttered(events)) == CallsEnded(events)
  {
    hide LettersIn, ThoughtsIn, AskedIn, Letters, IsBlank, Unsigned;
    PartsOfNothing();
    if events != [] {
      var front, e, musing := events[..|events| - 1], events[|events| - 1], Musing(events[..|events| - 1]);
      PartsOfUttered(front);
      PartsOfJoined(Uttered(front), Unsigned(musing));
      PartsOfUnsigned(musing);
      match e
      case TextDelta(text) =>
        PartsOfLetters(text);
        PartsOfJoined(Uttered(front) + Unsigned(musing), Letters(text));
      case ThinkingSignature(signature) =>
        PartsOfOne(Thought(musing, signature));
        PartsOfJoined(Uttered(front), [Thought(musing, signature)]);
        assert Uttered(front) + [] == Uttered(front);
      case ToolCallEnd(id, name, args, generatedId) =>
        var asked := Asked(Call(if IsBlank(id) then generatedId else id, name, args));
        PartsOfOne(asked);
        PartsOfJoined(Uttered(front) + Unsigned(musing), [asked]);
      case ThinkingDelta(text) =>
        assert (ThoughtsIn(Uttered(front)) + musing) + text == ThoughtsIn(Uttered(front)) + (musing + text);
      case _ =>
    }
  }

  /** So the texts, the thoughts and the calls of the items are those of the stream, each joined in order. */
  lemma EachPartIsKept(events: seq<StreamEvent>)
    requires Spoken(events).Some?
    ensures var items := Spoken(events).value.items;
            && JoinedText(items) == JoinedTextDeltas(events) && JoinedThoughts(items) == JoinedThinkingDeltas(events)
            && CallsIn(items) == CallsEnded(events)
  {
    hide Tokens, TextsApart, Unsigned, Uttered, Musing, Spoken, LettersIn, ThoughtsIn, AskedIn;
    ItemsSayWhatTheStreamSaid(events);
    PartsOfItems(Spoken(events).value.items);
    PartsOfUttered(events);
    PartsOfUnsigned(Musing(events));
    PartsOfJoined(Uttered(events), Unsigned(Musing(events)));
  }

  /** A stream ends well exactly if it brings no event the loop does not know. */
  lemma {:induction false} HeardExactlyWhen(events: seq<StreamEvent>)
    ensures HearAll(events).Some? <==> forall i :: 0 <= i < |events| ==> !events[i].Unsupported?
  {
    hide Flush, AddText, IsBlank;
    if events != [] {
      var front := events[..|events| - 1];
      HeardExactlyWhen(front);
      assert forall i :: 0 <= i < |front| ==> front[i] == events[i];
    }
  }
}
