/** What a turn leaves stored at every iteration (internal/v2/agent/agent.go). */
module AgentTurn {
  import opened Basics
  import opened Text
  import opened Transcript
  import opened ModelAdapter
  import opened MessageStore
  import opened AgentLoop

  /** What the outside world does in one iteration: the stream, the tools' outputs, and which writes fail. */
  datatype World = World(
    events: seq<StreamEvent>,
    streamOk: bool,
    speechStored: bool,
    outputs: nat -> string,
    resultsStored: bool)

  datatype Outcome = Completed | StreamFailed | StoreFailed | CutExchange

  datatype Progress = Going(rows: seq<Message>) | Over(rows: seq<Message>, outcome: Outcome)

  datatype Turn = Turn(codec: Codec, sessionId: string, turnId: string, input: seq<Message>)

  function AppendTo(turn: Turn, rows: seq<Message>, msgs: seq<Message>): seq<Message> {
    rows + PlaceAll(msgs, turn.sessionId, turn.turnId, MaxPosition(OfSession(rows, turn.sessionId)) + 1)
  }

  /** One iteration; the turn's own input is stored together with the first speech. */
  function Iterate(turn: Turn, rows: seq<Message>, first: bool, world: World): Progress {
    if !world.streamOk || Spoken(world.events).None? then Over(rows, StreamFailed)
    else
      var heard := Spoken(world.events).value;
      var persist := (if first then turn.input else []) + MessagesOf(turn.codec, heard.items, turn.turnId);
      if persist != [] && !world.speechStored then Over(rows, StoreFailed)
      else
        var spoken := AppendTo(turn, rows, persist);
        if heard.calls == [] then Over(spoken, Completed)
        else if !world.resultsStored then Over(spoken, CutExchange)
        else Going(AppendTo(turn, spoken, ResultsOf(heard.calls, world.outputs, turn.turnId)))
  }

  /** The store at the head of iteration k, or where the turn ended before that. */
  function Head(turn: Turn, rows: seq<Message>, worlds: nat -> World, k: nat): Progress {
    if k == 0 then Going(rows)
    else
      var before := Head(turn, rows, worlds, k - 1);
      if before.Over? then before else Iterate(turn, before.rows, k == 1, worlds(k - 1))
  }

  /** normalizeTurnMessages: a blank role is the user's. */
  function Normalized(input: seq<Message>, sessionId: string, turnId: string): (out: seq<Message>)
    ensures |out| == |input|
    ensures forall i :: 0 <= i < |input| ==>
              out[i] == input[i].(sessionId := sessionId, turnId := turnId,
                                  role := if IsBlank(input[i].role) then "user" else input[i].role)
  {
    seq(|input|, i requires 0 <= i < |input| =>
      input[i].(sessionId := sessionId, turnId := turnId, role := if IsBlank(input[i].role) then "user" else input[i].role))
  }

  /** One iteration of the loop; None when it goes on. */
  method RunStep(turn: Turn, table: MessageTable, first: bool, world: World) returns (outcome: Option<Outcome>)
    modifies table`rows
    ensures var p := Iterate(turn, old(table.rows), first, world);
            table.rows == p.rows && outcome == if p.Over? then Some(p.outcome) else None
  {
    hide Spoken, MessagesOf, ResultsOf, PlaceAll, OfSession, MaxPosition;
    var heard := StreamOnce(world.events, world.streamOk);
    if heard.None? {
      return Some(StreamFailed);
    }
    var (items, calls) := heard.value;
    var speech := FromModelItems(turn.codec, items, turn.turnId);
    var persist := (if first then turn.input else []) + speech;
    AppendNothing(turn, table.rows);
    if |persist| > 0 {
      if !world.speechStored {
        return Some(StoreFailed);
      }
      var _ := table.AppendMessages(turn.sessionId, turn.turnId, persist);
    }
    if |calls| == 0 {
      return Some(Completed);
    }
    var results := ExecuteToolCalls(calls, world.outputs, turn.turnId);
    if !world.resultsStored {
      return Some(CutExchange);
    }
    var _ := table.AppendMessages(turn.sessionId, turn.turnId, results);
    return None;
  }

  /** The loop of RunTurn; None when the step limit is reached. */
  method RunSteps(turn: Turn, table: MessageTable, worlds: nat -> World, maxSteps: nat) returns (outcome: Option<Outcome>)
    modifies table`rows
    ensures var end := Head(turn, old(table.rows), worlds, maxSteps);
            && table.rows == end.rows
            && outcome == if end.Over? then Some(end.outcome) else None
  {
    hide Iterate;
    for step := 0 to maxSteps
      invariant Head(turn, old(table.rows), worlds, step) == Going(table.rows)
    {
      outcome := RunStep(turn, table, step == 0, worlds(step));
      if outcome.Some? {
        OverStaysOver(turn, old(table.rows), worlds, step + 1, maxSteps);
        return;
      }
    }
    return None;
  }

  lemma AppendNothing(turn: Turn, rows: seq<Message>)
    ensures AppendTo(turn, rows, []) == rows
  {
    hide OfSession, MaxPosition;
  }

  lemma OverStaysOver(turn: Turn, rows: seq<Message>, worlds: nat -> World, k: nat, n: nat)
    requires k <= n && Head(turn, rows, worlds, k).Over?
    ensures Head(turn, rows, worlds, n) == Head(turn, rows, worlds, k)
    decreases n
  {
    hide Iterate;
    if k < n {
      OverStaysOver(turn, rows, worlds, k, n - 1);
    }
  }

  // -------- what is stored --------

  /** The session's conversation, read back from the store. */
  function Stored(turn: Turn, rows: seq<Message>): seq<Item> {
    ItemsOf(turn.codec, List(rows, turn.sessionId))
  }

  ghost predicate Usable(turn: Turn) {
    && turn.codec.Lawful()
    && (forall i :: 0 <= i < |turn.input| ==> turn.input[i].position == 0)
    && Valid(ItemsOf(turn.codec, turn.input))
  }

  ghost predicate WorldOk(world: World) {
    GeneratedIdsOk(world.events)
  }

  /** Appending messages appends the items they read back as. */
  lemma StoredAfterAppend(turn: Turn, rows: seq<Message>, msgs: seq<Message>)
    requires Rising(OfSession(rows, turn.sessionId))
    requires forall i :: 0 <= i < |msgs| ==> msgs[i].position == 0
    ensures Rising(OfSession(AppendTo(turn, rows, msgs), turn.sessionId))
    ensures Stored(turn, AppendTo(turn, rows, msgs)) == Stored(turn, rows) + ItemsOf(turn.codec, msgs)
  {
    hide OfSession, List, ItemsOf, PlaceAll, MaxPosition, Rising;
    var placed := PlaceAll(msgs, turn.sessionId, turn.turnId, MaxPosition(OfSession(rows, turn.sessionId)) + 1);
    AppendExtendsList(rows, turn.sessionId, turn.turnId, msgs);
    ItemsConcat(turn.codec, List(rows, turn.sessionId), placed);
    ItemsIgnorePlacing(turn.codec, placed, msgs);
  }

  lemma SpeechPositions(codec: Codec, items: seq<Item>, turnId: string)
    ensures forall m :: m in MessagesOf(codec, items, turnId) ==> m.position == 0
  {
    hide IsBlank;
    if items != [] {
      SpeechPositions(codec, items[..|items| - 1], turnId);
    }
  }

  lemma ResultsReadBack(codec: Codec, calls: seq<Call>, outputs: nat -> string, turnId: string)
    ensures ItemsOf(codec, ResultsOf(calls, outputs, turnId)) == ResultItems(calls, outputs)
  {
    var results := ResultsOf(calls, outputs, turnId);
    if calls == [] {
      assert results == [];
    } else {
      var front := calls[..|calls| - 1];
      ResultsReadBack(codec, front, outputs, turnId);
      assert results[..|results| - 1] == ResultsOf(front, outputs, turnId);
      assert ToItem(codec, results[|results| - 1]) == Some(ResultItems(calls, outputs)[|calls| - 1]);
      assert ResultItems(calls, outputs)[..|calls| - 1] == ResultItems(front, outputs);
    }
  }

  /** The speech of an iteration is stored behind what is there. */
  lemma SpeechStored(turn: Turn, rows: seq<Message>, first: bool, items: seq<Item>)
    requires Usable(turn) && Rising(OfSession(rows, turn.sessionId))
    ensures var opening := if first then turn.input else [];
            var spoken := AppendTo(turn, rows, opening + MessagesOf(turn.codec, items, turn.turnId));
            && Rising(OfSession(spoken, turn.sessionId))
            && Stored(turn, spoken) == (Stored(turn, rows) + ItemsOf(turn.codec, opening)) + ReadBackAll(turn.codec, items)
  {
    hide OfSession, List, ItemsOf, AppendTo, Stored, MessagesOf, ReadBackAll, Valid, Rising;
    var opening := if first then turn.input else [];
    var speech := MessagesOf(turn.codec, items, turn.turnId);
    SpeechPositions(turn.codec, items, turn.turnId);
    forall i | 0 <= i < |speech| ensures speech[i].position == 0 {
      assert speech[i] in speech;
    }
    StoredAfterAppend(turn, rows, opening + speech);
    ItemsConcat(turn.codec, opening, speech);
    ItemsReadBack(turn.codec, items, turn.turnId);
  }

  lemma OpeningIsValid(turn: Turn, first: bool)
    requires Usable(turn)
    ensures Valid(ItemsOf(turn.codec, if first then turn.input else []))
  {
  }

  /**
   One iteration from a valid store: it leaves a valid store unless it stops
   between storing named calls and storing their results, or goes on with calls
   that are not well shaped.
   */
  lemma IterationValidity(turn: Turn, rows: seq<Message>, first: bool, world: World)
    requires Usable(turn) && WorldOk(world)
    requires Rising(OfSession(rows, turn.sessionId)) && Valid(Stored(turn, rows))
    ensures var p := Iterate(turn, rows, first, world);
            && Rising(OfSession(p.rows, turn.sessionId))
            && (p.Over? ==> (Valid(Stored(turn, p.rows)) <==>
                               p.outcome != CutExchange || Named(Spoken(world.events).value.calls) == []))
            && (p.Going? ==> OpenFrom({}, Stored(turn, p.rows)) ==
                               if WellShaped(turn.codec, Spoken(world.events).value.items) then Some({}) else None)
  {
    hide OpenFrom, WellShaped, Stored, MessagesOf, ResultsOf, AppendTo, Rising, CallsIn, Named, Speech, Spoken, Usable;
    ValidIsClosed(Stored(turn, rows));
    if world.streamOk && Spoken(world.events).Some? {
      var heard := Spoken(world.events).value;
      SpokenIsSpeech(world.events);
      CallsAreTheCallItems(world.events);
      ExchangeStored(turn, rows, first, heard.items, world.outputs);
    }
  }

  lemma ValidIsClosed(items: seq<Item>)
    ensures Valid(items) <==> OpenFrom({}, items) == Some({})
  {
  }

  /** The two stores an iteration can reach with its speech. */
  lemma ExchangeStored(turn: Turn, rows: seq<Message>, first: bool, items: seq<Item>, outputs: nat -> string)
    requires Usable(turn) && Speech(items)
    requires Rising(OfSession(rows, turn.sessionId)) && Valid(Stored(turn, rows))
    ensures var opening := if first then turn.input else [];
            var spoken := AppendTo(turn, rows, opening + MessagesOf(turn.codec, items, turn.turnId));
            var done := AppendTo(turn, spoken, ResultsOf(CallsIn(items), outputs, turn.turnId));
            && Rising(OfSession(spoken, turn.sessionId)) && Rising(OfSession(done, turn.sessionId))
            && (Valid(Stored(turn, spoken)) <==> Named(CallsIn(items)) == [])
            && (CallsIn(items) != [] ==>
                  OpenFrom({}, Stored(turn, done)) == if WellShaped(turn.codec, items) then Some({}) else None)
  {
    hide OfSession, List, ItemsOf, AppendTo, Stored, MessagesOf, ResultsOf, ReadBackAll, ResultItems, OpenFrom,
         WellShaped, CallsIn, Speech, Usable, Rising;
    var opening := if first then turn.input else [];
    var speech := MessagesOf(turn.codec, items, turn.turnId);
    var spoken := AppendTo(turn, rows, opening + speech);
    var calls := CallsIn(items);
    var results := ResultsOf(calls, outputs, turn.turnId);
    var base := Stored(turn, rows) + ItemsOf(turn.codec, opening);
    SpeechStored(turn, rows, first, items);
    OpeningIsValid(turn, first);
    ValidConcat(Stored(turn, rows), ItemsOf(turn.codec, opening));
    ValidConcat(base, ReadBackAll(turn.codec, items));
    SpeechAloneIsOpen(turn.codec, items);
    StoredAfterAppend(turn, spoken, results);
    ResultsReadBack(turn.codec, calls, outputs, turn.turnId);
    assert Stored(turn, AppendTo(turn, spoken, results)) == base + ExchangeItems(turn.codec, items, outputs);
    OpenConcat({}, base, ExchangeItems(turn.codec, items, outputs));
    StepIsCompleteExchange(turn.codec, items, outputs);
  }

  /** Speech by itself is complete exactly when none of its calls is read back as a call. */
  lemma SpeechAloneIsOpen(codec: Codec, items: seq<Item>)
    requires Speech(items)
    ensures Valid(ReadBackAll(codec, items)) <==> Named(CallsIn(items)) == []
  {
    hide IsBlank, TrimSpace, ReadBackAll, CallsIn, Named, Keys, OpenFrom;
    KeptOpens(codec, items);
    KeysNonempty(Named(CallsIn(items)));
    ReadBackCalls(codec, items);
    CallsExist(ReadBackAll(codec, items));
  }

  // -------- every iteration --------

  /** No iteration so far has gone on with calls that are not well shaped. */
  ghost predicate ShapedBefore(turn: Turn, rows: seq<Message>, worlds: nat -> World, k: nat) {
    forall j :: 0 <= j < k && Head(turn, rows, worlds, j + 1).Going? ==>
      Spoken(worlds(j).events).Some? && WellShaped(turn.codec, Spoken(worlds(j).events).value.items)
  }

  /**
   At the head of every iteration the stored messages read back as a valid
   transcript if and only if the speech of all earlier iterations was well
   shaped; a fault, once stored, is never repaired.
   */
  lemma {:induction false} EveryHeadIsValid(turn: Turn, rows: seq<Message>, worlds: nat -> World, k: nat)
    requires Usable(turn) && forall j: nat :: WorldOk(worlds(j))
    requires Rising(OfSession(rows, turn.sessionId)) && Valid(Stored(turn, rows))
    requires Head(turn, rows, worlds, k).Going?
    ensures var head := Head(turn, rows, worlds, k).rows;
            && Rising(OfSession(head, turn.sessionId))
            && OpenFrom({}, Stored(turn, head)) == if ShapedBefore(turn, rows, worlds, k) then Some({}) else None
  {
    hide Iterate, WellShaped, WorldOk, Usable, OpenFrom, Stored, Spoken;
    if k > 0 {
      EveryHeadIsValid(turn, rows, worlds, k - 1);
      var before := Head(turn, rows, worlds, k - 1).rows;
      GoingMeansSpoken(turn, before, k == 1, worlds(k - 1));
      assert ShapedBefore(turn, rows, worlds, k) <==>
             ShapedBefore(turn, rows, worlds, k - 1) && WellShaped(turn.codec, Spoken(worlds(k - 1).events).value.items);
      if ShapedBefore(turn, rows, worlds, k - 1) {
        IterationValidity(turn, before, k == 1, worlds(k - 1));
      } else {
        FaultStays(turn, before, k == 1, worlds(k - 1));
      }
    } else {
      assert ShapedBefore(turn, rows, worlds, 0);
    }
  }

  lemma GoingMeansSpoken(turn: Turn, rows: seq<Message>, first: bool, world: World)
    requires Iterate(turn, rows, first, world).Going?
    ensures Spoken(world.events).Some?
  {
    hide Spoken, AppendTo;
  }

  lemma FaultStays(turn: Turn, rows: seq<Message>, first: bool, world: World)
    requires Usable(turn) && Rising(OfSession(rows, turn.sessionId))
    requires OpenFrom({}, Stored(turn, rows)).None?
    ensures var p := Iterate(turn, rows, first, world);
            Rising(OfSession(p.rows, turn.sessionId)) && OpenFrom({}, Stored(turn, p.rows)).None?
  {
    hide OfSession, AppendTo, Stored, MessagesOf, ResultsOf, Spoken, ItemsOf, ReadBackAll, OpenFrom, Rising, Usable;
    if world.streamOk && Spoken(world.events).Some? {
      var heard := Spoken(world.events).value;
      FaultStaysStored(turn, rows, first, heard.items, ResultsOf(heard.calls, world.outputs, turn.turnId));
    }
  }

  lemma FaultStaysStored(turn: Turn, rows: seq<Message>, first: bool, items: seq<Item>, results: seq<Message>)
    requires Usable(turn) && Rising(OfSession(rows, turn.sessionId))
    requires OpenFrom({}, Stored(turn, rows)).None?
    requires forall i :: 0 <= i < |results| ==> results[i].position == 0
    ensures var spoken := AppendTo(turn, rows, (if first then turn.input else []) + MessagesOf(turn.codec, items, turn.turnId));
            var p := AppendTo(turn, spoken, results);
            && Rising(OfSession(spoken, turn.sessionId)) && OpenFrom({}, Stored(turn, spoken)).None?
            && Rising(OfSession(p, turn.sessionId)) && OpenFrom({}, Stored(turn, p)).None?
  {
    hide OfSession, AppendTo, Stored, MessagesOf, ItemsOf, ReadBackAll, OpenFrom, Rising, Usable;
    var opening := if first then turn.input else [];
    var spoken := AppendTo(turn, rows, opening + MessagesOf(turn.codec, items, turn.turnId));
    SpeechStored(turn, rows, first, items);
    FaultIsFinal({}, Stored(turn, rows), ItemsOf(turn.codec, opening));
    FaultIsFinal({}, Stored(turn, rows) + ItemsOf(turn.codec, opening), ReadBackAll(turn.codec, items));
    StoredAfterAppend(turn, spoken, results);
    FaultIsFinal({}, Stored(turn, spoken), ItemsOf(turn.codec, results));
  }

  /** However the turn ends, what it leaves is valid exactly if it went on with well-shaped speech only and was not cut inside an exchange. */
  lemma EndIsValid(turn: Turn, rows: seq<Message>, worlds: nat -> World, k: nat)
    requires Usable(turn) && forall j: nat :: WorldOk(worlds(j))
    requires Rising(OfSession(rows, turn.sessionId)) && Valid(Stored(turn, rows))
    requires Head(turn, rows, worlds, k).Going? && Head(turn, rows, worlds, k + 1).Over?
    ensures var end := Head(turn, rows, worlds, k + 1);
            Valid(Stored(turn, end.rows))
            <==> && ShapedBefore(turn, rows, worlds, k)
                 && (end.outcome == CutExchange ==> Named(Spoken(worlds(k).events).GetOr(Silence).calls) == [])
  {
    hide Iterate, WellShaped, Usable, Stored, Spoken, WorldOk, OpenFrom, ShapedBefore, OfSession, Rising, Valid;
    var head := Head(turn, rows, worlds, k).rows;
    EveryHeadIsValid(turn, rows, worlds, k);
    ValidIsClosed(Stored(turn, head));
    ValidIsClosed(Stored(turn, Head(turn, rows, worlds, k + 1).rows));
    if ShapedBefore(turn, rows, worlds, k) {
      IterationValidity(turn, head, k == 0, worlds(k));
      CutMeansSpoken(turn, head, k == 0, worlds(k));
    } else {
      FaultStays(turn, head, k == 0, worlds(k));
    }
  }

  lemma CutMeansSpoken(turn: Turn, rows: seq<Message>, first: bool, world: World)
    ensures var p := Iterate(turn, rows, first, world);
            p.Over? && p.outcome == CutExchange ==> Spoken(world.events).Some?
  {
    hide Spoken, AppendTo;
  }
}
