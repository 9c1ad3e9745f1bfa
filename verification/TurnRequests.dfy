/** When each request of a turn is valid (internal/v2/agent/agent.go). */
module TurnRequests {
  import opened Basics
  import opened Text
  import opened Transcript
  import opened ModelAdapter
  import opened ContextBudget
  import opened ContextWindow
  import opened MessageStore
  import opened Microcompact
  import opened Compaction
  import opened CompactionTheorems
  import opened AgentLoop
  import AgentTurn
  import opened SessionLife
  import opened AnthropicMessages
  import opened RequestValidity
  import RenderedTurns
  import opened TurnShapes

  // -------- the window, by what its messages cost --------

  /** The end of the window: behind the newest message that fits by itself. */
  function NewestFitting(msgs: seq<Message>, base: nat, budget: int): (hi: nat)
    ensures hi <= |msgs|
  {
    if msgs == [] || base + OneMessage(msgs[|msgs| - 1]) <= budget then |msgs|
    else NewestFitting(msgs[..|msgs| - 1], base, budget)
  }

  /** Its start: the first place from which the messages up to its end fit together. */
  function OldestFitting(msgs: seq<Message>, base: nat, budget: int): (lo: nat)
    ensures lo <= |msgs|
  {
    if msgs == [] || base + MessageTokens(msgs) <= budget then 0 else 1 + OldestFitting(msgs[1..], base, budget)
  }

  lemma {:induction false} NewestFits(msgs: seq<Message>, base: nat, budget: int)
    ensures var hi := NewestFitting(msgs, base, budget);
            && (forall i :: hi <= i < |msgs| ==> base + OneMessage(msgs[i]) > budget)
            && (hi > 0 ==> base + OneMessage(msgs[hi - 1]) <= budget)
  {
    hide OneMessage;
    if msgs != [] && base + OneMessage(msgs[|msgs| - 1]) > budget {
      NewestFits(msgs[..|msgs| - 1], base, budget);
    }
  }

  lemma {:induction false} OldestFits(msgs: seq<Message>, base: nat, budget: int)
    ensures var lo := OldestFitting(msgs, base, budget);
            && (lo < |msgs| ==> base + MessageTokens(msgs[lo..]) <= budget)
            && (0 < lo ==> base + MessageTokens(msgs[lo - 1..]) > budget)
  {
    hide MessageTokens;
    assert msgs[0..] == msgs;
    if msgs != [] && base + MessageTokens(msgs) > budget {
      var rest := msgs[1..];
      OldestFits(rest, base, budget);
      var lo := OldestFitting(rest, base, budget);
      assert msgs[1 + lo..] == rest[lo..];
      if lo > 0 {
        assert msgs[lo..] == rest[lo - 1..];
      }
    }
  }

  lemma {:induction false} OldestIsBeforeLast(msgs: seq<Message>, base: nat, budget: int)
    requires msgs != [] && base + OneMessage(msgs[|msgs| - 1]) <= budget
    ensures OldestFitting(msgs, base, budget) < |msgs|
  {
    hide MessageTokens, OneMessage;
    if base + MessageTokens(msgs) > budget {
      if |msgs| == 1 {
        assert msgs == [msgs[0]];
        TokensOfOne(msgs[0]);
      } else {
        OldestIsBeforeLast(msgs[1..], base, budget);
      }
    }
  }

  /** These are the ends of the window that is sent. */
  lemma WindowByCost(active: seq<Message>, base: nat, budget: int)
    ensures var hi := NewestFitting(active, base, budget);
            IsWindow(active, base, budget, OldestFitting(active[..hi], base, budget), hi)
  {
    hide OneMessage, MessageTokens, NewestFitting, OldestFitting;
    var hi := NewestFitting(active, base, budget);
    var upTo := active[..hi];
    var lo := OldestFitting(upTo, base, budget);
    NewestFits(active, base, budget);
    OldestFits(upTo, base, budget);
    if hi > 0 {
      OldestIsBeforeLast(upTo, base, budget);
      assert upTo[lo..] == active[lo..hi];
      if lo > 0 {
        assert upTo[lo - 1..] == active[lo - 1..hi];
      }
    }
  }

  // -------- the messages of the turn so far --------

  function StepMessages(turn: AgentTurn.Turn, world: AgentTurn.World): seq<Message> {
    var heard := Spoken(world.events).GetOr(Silence);
    MessagesOf(turn.codec, heard.items, turn.turnId) + ResultsOf(heard.calls, world.outputs, turn.turnId)
  }

  /** turnMessages at the head of iteration k: the input, and what was said and answered since. */
  function TurnMessages(turn: AgentTurn.Turn, worlds: nat -> AgentTurn.World, k: nat): seq<Message> {
    if k == 0 then turn.input else TurnMessages(turn, worlds, k - 1) + StepMessages(turn, worlds(k - 1))
  }

  /** A well-shaped step is read back as one exchange behind some content. */
  lemma StepReads(turn: AgentTurn.Turn, world: AgentTurn.World)
    requires turn.codec.Lawful() && AgentTurn.WorldOk(world)
    requires Spoken(world.events).Some? && WellShaped(turn.codec, Spoken(world.events).value.items)
    ensures var items := ItemsOf(turn.codec, StepMessages(turn, world)); Valid(items) && AgentShaped(items)
  {
    hide Spoken, MessagesOf, ResultsOf, ItemsOf, ReadBackAll, ResultItems, CallsIn, Speech, WellShaped, AgentShaped, OpenFrom;
    var heard := Spoken(world.events).value;
    RenderedTurns.SpeechOfWorld(world);
    CallsAreTheCallItems(world.events);
    ItemsConcat(turn.codec, MessagesOf(turn.codec, heard.items, turn.turnId), ResultsOf(heard.calls, world.outputs, turn.turnId));
    ItemsReadBack(turn.codec, heard.items, turn.turnId);
    AgentTurn.ResultsReadBack(turn.codec, heard.calls, world.outputs, turn.turnId);
    StepIsCompleteExchange(turn.codec, heard.items, world.outputs);
    RenderedTurns.StepIsAgentShaped(turn.codec, heard.items, world.outputs);
  }

  /** The input says something first, has the loop's shape, and is a valid transcript. */
  ghost predicate GoodInput(turn: AgentTurn.Turn) {
    && AgentTurn.Usable(turn) && AgentShaped(ItemsOf(turn.codec, turn.input))
    && ItemsOf(turn.codec, turn.input) != [] && ItemsOf(turn.codec, turn.input)[0].IsContent()
  }

  lemma {:induction false} UsersAreRead(codec: Codec, msgs: seq<Message>)
    requires forall i :: 0 <= i < |msgs| ==> msgs[i].role == "user"
    ensures |ItemsOf(codec, msgs)| == |msgs|
    ensures forall i :: 0 <= i < |msgs| ==> ItemsOf(codec, msgs)[i] == UserMessage(msgs[i].content, [])
  {
    if msgs != [] {
      UsersAreRead(codec, msgs[..|msgs| - 1]);
    }
  }

  lemma ContentIsValid(items: seq<Item>)
    requires forall i :: 0 <= i < |items| ==> items[i].IsContent()
    ensures Valid(items)
  {
    ValidMeansEveryExchangeCloses(items);
    hide Valid;
  }

  /** What a user submits, once normalized, is such an input, whatever it says; it is the turn's own and no boundary. */
  lemma UsersInputIsGood(codec: Codec, sessionId: string, turnId: string, input: seq<Message>)
    requires codec.Lawful() && !IsBlank(turnId) && input != []
    requires forall i :: 0 <= i < |input| ==> (IsBlank(input[i].role) || input[i].role == "user") && input[i].position == 0
    ensures var turn := AgentTurn.Turn(codec, sessionId, turnId, AgentTurn.Normalized(input, sessionId, turnId));
            GoodInput(turn) && OwnInput(turn)
  {
    hide ItemsOf, Valid, AgentShaped, IsBlank;
    var turn := AgentTurn.Turn(codec, sessionId, turnId, AgentTurn.Normalized(input, sessionId, turnId));
    UsersAreRead(codec, turn.input);
    ContentIsValid(ItemsOf(codec, turn.input));
    ContentIsShaped(ItemsOf(codec, turn.input));
  }

  /** At the head of every iteration the turn's messages are a valid transcript that begins with what the input said. */
  lemma {:induction false} TurnSoFarIsValid(turn: AgentTurn.Turn, rows: seq<Message>, worlds: nat -> AgentTurn.World, k: nat)
    requires GoodInput(turn) && forall j: nat :: AgentTurn.WorldOk(worlds(j))
    requires AgentTurn.Head(turn, rows, worlds, k).Going? && AgentTurn.ShapedBefore(turn, rows, worlds, k)
    ensures var items := ItemsOf(turn.codec, TurnMessages(turn, worlds, k));
            Valid(items) && AgentShaped(items) && items != [] && items[0].IsContent()
  {
    hide AgentTurn.Iterate, StepMessages, ItemsOf, Valid, AgentShaped, AgentTurn.WorldOk, Spoken, WellShaped;
    if k > 0 {
      TurnSoFarIsValid(turn, rows, worlds, k - 1);
      StepReads(turn, worlds(k - 1));
      var before, step := TurnMessages(turn, worlds, k - 1), StepMessages(turn, worlds(k - 1));
      ItemsConcat(turn.codec, before, step);
      ValidConcat(ItemsOf(turn.codec, before), ItemsOf(turn.codec, step));
      AgentShapedConcat(ItemsOf(turn.codec, before), ItemsOf(turn.codec, step));
    }
  }

  // -------- every request --------

  /** No end of the window that the costs leave cuts an exchange. */
  ghost predicate SafeWindow(codec: Codec, active: seq<Message>, base: nat, budget: int) {
    var hi := NewestFitting(active, base, budget);
    var lo := OldestFitting(active[..hi], base, budget);
    || ItemsOf(codec, active[lo..hi]) == []
    || (Valid(ItemsOf(codec, active[..lo])) && Valid(ItemsOf(codec, active[..hi])))
  }

  lemma RequestIsValidWhenSafe(codec: Codec, systemPrompt: string, active: seq<Message>, turn: seq<Message>, budget: int, out: seq<Message>)
    requires Valid(ItemsOf(codec, active)) && AgentShaped(ItemsOf(codec, active))
    requires Valid(ItemsOf(codec, turn)) && BeginsWithContent(ItemsOf(codec, turn))
    requires IsRequest(systemPrompt, active, turn, budget, out)
    ensures Valid(ItemsOf(codec, out)) <==> SafeWindow(codec, active, BaseTokens(systemPrompt, turn), budget)
  {
    hide ItemsOf, Valid, AgentShaped, IsWindow, IsRequest, BaseTokens, BeginsWithContent, NewestFitting, OldestFitting;
    var base := BaseTokens(systemPrompt, turn);
    var hi := NewestFitting(active, base, budget);
    WindowByCost(active, base, budget);
    RequestIsValidExactlyWhen(codec, systemPrompt, active, turn, budget, OldestFitting(active[..hi], base, budget), hi, out);
  }

  /**
   Whatever the turns of a session did before, as long as none was cut inside an exchange, and whatever
   compaction did at the start of the next one: each request of each of its iterations is a valid transcript
   if and only if neither end of the window that its costs leave cuts an exchange.
   */
  lemma EveryRequestIsValidExactlyWhen(codec: Codec, sessionId: string, spans: seq<Span>, job: Job, k: nat, keep: int,
                                       summary: Result<string, Failure>, before: Tables, after: Tables, prior: seq<Message>,
                                       turn: AgentTurn.Turn, worlds: nat -> AgentTurn.World, n: nat,
                                       systemPrompt: string, budget: int, out: seq<Message>)
    requires AllSound(codec, sessionId, [], spans) && InputsShaped(codec, spans)
    requires before.rows == AfterTurns([], spans) && job.sessionId == sessionId
    requires var active := AfterBoundary(Compacted(List(before.rows, sessionId)));
             && k <= |active| && (k == 0 || IsSplit(active, keep, k))
             && Outcome(job, active, k, summary, before, after, Ok(prior))
    requires turn.codec == codec && GoodInput(turn) && forall j: nat :: AgentTurn.WorldOk(worlds(j))
    requires AgentTurn.Head(turn, after.rows, worlds, n).Going? && AgentTurn.ShapedBefore(turn, after.rows, worlds, n)
    requires IsRequest(systemPrompt, AfterBoundary(prior), TurnMessages(turn, worlds, n), budget, out)
    ensures Valid(ItemsOf(codec, out))
            <==> SafeWindow(codec, AfterBoundary(prior), BaseTokens(systemPrompt, TurnMessages(turn, worlds, n)), budget)
  {
    hide *;
    EveryContextIsShaped(codec, sessionId, spans, job, k, keep, summary, before, after, Ok(prior));
    TurnSoFarIsValid(turn, after.rows, worlds, n);
    BeginsSo(ItemsOf(codec, TurnMessages(turn, worlds, n)));
    RequestIsValidWhenSafe(codec, systemPrompt, AfterBoundary(prior), TurnMessages(turn, worlds, n), budget, out);
  }

  lemma BeginsSo(items: seq<Item>)
    requires items != [] && items[0].IsContent()
    ensures BeginsWithContent(items)
  {
  }
}
