/** How iterations end, and what a turn stores (internal/v2/agent/agent.go). */
module TurnOutcomes {
  import opened Basics
  import opened Text
  import opened Transcript
  import opened ModelAdapter
  import opened MessageStore
  import opened AgentLoop
  import opened AgentTurn
  import opened RenderedTurns
  import opened StreamSpeech

  /** The stream brings no event that the loop does not know, and no error. */
  ghost predicate EndsWell(world: World) {
    world.streamOk && forall i :: 0 <= i < |world.events| ==> !world.events[i].Unsupported?
  }

  ghost predicate AsksForTools(world: World) {
    exists i :: 0 <= i < |world.events| && world.events[i].ToolCallEnd?
  }

  function ItemsOfWorld(world: World): seq<Item> {
    Spoken(world.events).GetOr(Silence).items
  }

  lemma {:induction false} CallsEndedExactlyWhen(events: seq<StreamEvent>)
    ensures CallsEnded(events) != [] <==> exists i :: 0 <= i < |events| && events[i].ToolCallEnd?
  {
    hide IsBlank;
    if events != [] {
      var front, last := events[..|events| - 1], events[|events| - 1];
      CallsEndedExactlyWhen(front);
      assert events[|events| - 1] == last;
      if exists i :: 0 <= i < |events| && events[i].ToolCallEnd? {
        var i :| 0 <= i < |events| && events[i].ToolCallEnd?;
        assert i < |front| ==> front[i].ToolCallEnd?;
      }
      if CallsEnded(front) != [] {
        var i :| 0 <= i < |front| && front[i].ToolCallEnd?;
        assert events[i].ToolCallEnd?;
      }
    }
  }

  /** The stream is heard exactly if it ends well, and asks for tools exactly if a call ends in it. */
  lemma WorldHeard(world: World)
    ensures EndsWell(world) <==> world.streamOk && Spoken(world.events).Some?
    ensures EndsWell(world) ==>
              var heard := Spoken(world.events).value;
              heard.calls == CallsIn(heard.items) && (heard.calls != [] <==> AsksForTools(world))
  {
    HeardExactlyWhen(world.events);
    if Spoken(world.events).Some? {
      EachPartIsKept(world.events);
      CallsAreTheCallItems(world.events);
      CallsEndedExactlyWhen(world.events);
    }
    hide Flush, HearAll, CallsIn, CallsEnded, JoinedText, JoinedThoughts, JoinedTextDeltas, JoinedThinkingDeltas;
  }

  lemma {:induction false} CallsAreStored(codec: Codec, items: seq<Item>, turnId: string)
    requires CallsIn(items) != []
    ensures MessagesOf(codec, items, turnId) != []
  {
    hide IsBlank;
    if !items[|items| - 1].ToolCall? {
      CallsAreStored(codec, items[..|items| - 1], turnId);
    }
  }

  /** How an iteration ends, said by its stream and its writes; told is what the store holds once the speech is stored. */
  ghost predicate EndsAs(world: World, rows: seq<Message>, p: Progress, stored: seq<Item>, told: seq<Item>, results: seq<Item>) {
    if !EndsWell(world) then p == Over(rows, StreamFailed)
    else if AsksForTools(world) then
      if !world.speechStored then p == Over(rows, StoreFailed)
      else if !world.resultsStored then p.Over? && p.outcome == CutExchange && stored == told
      else p.Going? && stored == told + results
    else
      || (p.Over? && p.outcome == Completed && stored == told)
      || (p == Over(rows, StoreFailed) && !world.speechStored)
  }

  /**
   An iteration that asks for tools goes on exactly if its stream ends well and both writes succeed;
   one that does not is the turn's last. What was said is stored behind what was there, with the
   turn's input in front of the first speech and the results behind the calls, or nothing at all is.
   */
  lemma IterationEndsAs(turn: Turn, rows: seq<Message>, first: bool, world: World)
    requires Usable(turn) && Rising(OfSession(rows, turn.sessionId))
    ensures var p, items := Iterate(turn, rows, first, world), ItemsOfWorld(world);
            EndsAs(world, rows, p, Stored(turn, p.rows),
                   (Stored(turn, rows) + ItemsOf(turn.codec, if first then turn.input else [])) + ReadBackAll(turn.codec, items),
                   ResultItems(CallsIn(items), world.outputs))
  {
    hide OfSession, List, ItemsOf, AppendTo, Stored, MessagesOf, ResultsOf, ReadBackAll, ResultItems, CallsIn,
         Usable, Rising, Spoken, EndsWell, AsksForTools;
    WorldHeard(world);
    if EndsWell(world) {
      var heard := Spoken(world.events).value;
      SpeechStored(turn, rows, first, heard.items);
      var spoken := AppendTo(turn, rows, (if first then turn.input else []) + MessagesOf(turn.codec, heard.items, turn.turnId));
      NothingSaid(turn, rows);
      if AsksForTools(world) {
        CallsAreStored(turn.codec, heard.items, turn.turnId);
        if world.speechStored && world.resultsStored {
          StoredAfterAppend(turn, spoken, ResultsOf(heard.calls, world.outputs, turn.turnId));
          ResultsReadBack(turn.codec, heard.calls, world.outputs, turn.turnId);
        }
      }
    }
  }

  lemma NothingSaid(turn: Turn, rows: seq<Message>)
    ensures AppendTo(turn, rows, []) == rows
  {
    AppendNothing(turn, rows);
  }

  /** With nothing to store, no write can fail. */
  lemma SilenceCannotFail(turn: Turn, rows: seq<Message>, world: World)
    requires MessagesOf(turn.codec, ItemsOfWorld(world), turn.turnId) == []
    ensures Iterate(turn, rows, false, world) != Over(rows, StoreFailed)
  {
    hide AppendTo, MessagesOf, Spoken;
  }

  // -------- whole turns --------

  /** The exchanges of the first k iterations, one behind the other. */
  function Exchanged(codec: Codec, worlds: nat -> World, k: nat): seq<Item> {
    if k == 0 then [] else Exchanged(codec, worlds, k - 1) + ExchangeItems(codec, ItemsOfWorld(worlds(k - 1)), worlds(k - 1).outputs)
  }

  lemma IterationRises(turn: Turn, rows: seq<Message>, first: bool, world: World)
    requires Usable(turn) && Rising(OfSession(rows, turn.sessionId))
    requires Iterate(turn, rows, first, world).Going?
    ensures Rising(OfSession(Iterate(turn, rows, first, world).rows, turn.sessionId))
  {
    hide OfSession, List, ItemsOf, AppendTo, Stored, MessagesOf, ResultsOf, ReadBackAll, Usable, Rising, Spoken;
    GoingMeansSpoken(turn, rows, first, world);
    var heard := Spoken(world.events).value;
    SpeechStored(turn, rows, first, heard.items);
    var spoken := AppendTo(turn, rows, (if first then turn.input else []) + MessagesOf(turn.codec, heard.items, turn.turnId));
    StoredAfterAppend(turn, spoken, ResultsOf(heard.calls, world.outputs, turn.turnId));
  }

  lemma NoItems(codec: Codec)
    ensures ItemsOf(codec, []) == []
  {
  }

  /** Behind an empty list an opening can only come first. */
  lemma JoinedBehind(base: seq<Item>, opening: seq<Item>, exchanges: seq<Item>, added: seq<Item>, exchange: seq<Item>)
    requires opening == exchanges == [] || added == []
    ensures ((base + (opening + exchanges)) + added) + exchange == base + ((opening + added) + (exchanges + exchange))
  {
    assert base + (opening + exchanges) == (base + opening) + exchanges;
    assert (base + opening) + (exchanges + exchange) == ((base + opening) + exchanges) + exchange;
    if added == [] {
      assert opening + added == opening;
    } else {
      assert opening + added == added;
    }
  }

  /** At the head of every iteration but the first, the turn has stored its input once and everything said and answered since, in order. */
  lemma {:induction false} AllIsStored(turn: Turn, rows: seq<Message>, worlds: nat -> World, k: nat)
    requires Usable(turn) && Rising(OfSession(rows, turn.sessionId)) && forall j: nat :: WorldOk(worlds(j))
    requires Head(turn, rows, worlds, k).Going?
    ensures var head := Head(turn, rows, worlds, k).rows;
            && Rising(OfSession(head, turn.sessionId))
            && Stored(turn, head) == Stored(turn, rows)
               + ((if k > 0 then ItemsOf(turn.codec, turn.input) else []) + Exchanged(turn.codec, worlds, k))
  {
    hide Iterate, Stored, ItemsOf, Usable, Rising, OfSession, ExchangeItems, Spoken, WorldOk;
    if k > 0 {
      AllIsStored(turn, rows, worlds, k - 1);
      var before := Head(turn, rows, worlds, k - 1).rows;
      IterationAppendsExchange(turn, before, k == 1, worlds(k - 1));
      IterationRises(turn, before, k == 1, worlds(k - 1));
      NoItems(turn.codec);
      JoinedBehind(Stored(turn, rows), if k > 1 then ItemsOf(turn.codec, turn.input) else [], Exchanged(turn.codec, worlds, k - 1),
                   ItemsOf(turn.codec, if k == 1 then turn.input else []),
                   ExchangeItems(turn.codec, ItemsOfWorld(worlds(k - 1)), worlds(k - 1).outputs));
    }
  }
}
