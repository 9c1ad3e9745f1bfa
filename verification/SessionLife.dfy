/** One session over all its turns and compactions (internal/v2/agent/agent.go). */
module SessionLife {
  import opened Basics
  import opened Text
  import opened Transcript
  import opened ModelAdapter
  import opened MessageStore
  import opened ContextWindow
  import opened Microcompact
  import opened Compaction
  import opened CompactionTheorems
  import opened AgentLoop
  import AgentTurn

  /** A turn: the summary and snapshot id its start stored, if it compacted, and then so many iterations. */
  datatype Span = Span(turn: AgentTurn.Turn, compacted: Option<(string, string)>, worlds: nat -> AgentTurn.World, steps: nat)

  /** The table once the turn has read its context. */
  function Opened(rows: seq<Message>, span: Span): seq<Message> {
    if span.compacted.None? then rows
    else AfterWrite(rows, Write(span.turn.sessionId, span.turn.turnId,
                                CompactMessages(span.turn.turnId, span.compacted.value.0, span.compacted.value.1)))
  }

  function AfterTurn(rows: seq<Message>, span: Span): seq<Message> {
    AgentTurn.Head(span.turn, Opened(rows, span), span.worlds, span.steps).rows
  }

  function AfterTurns(rows: seq<Message>, spans: seq<Span>): seq<Message>
    decreases |spans|
  {
    if spans == [] then rows else AfterTurns(AfterTurn(rows, spans[0]), spans[1..])
  }

  /** The turn's messages carry its id, and none of its input is a compaction boundary. */
  ghost predicate OwnInput(turn: AgentTurn.Turn) {
    !IsBlank(turn.turnId)
    && forall i :: 0 <= i < |turn.input| ==> turn.input[i].turnId == turn.turnId && !IsCompactBoundary(turn.input[i])
  }

  /** Iteration j stored its named calls, but not their results. */
  ghost predicate CutAt(rows: seq<Message>, span: Span, j: nat) {
    && AgentTurn.Head(span.turn, rows, span.worlds, j).Going?
    && AgentTurn.Head(span.turn, rows, span.worlds, j + 1).Over?
    && AgentTurn.Head(span.turn, rows, span.worlds, j + 1).outcome == AgentTurn.CutExchange
    && Named(Spoken(span.worlds(j).events).GetOr(Silence).calls) != []
  }

  /** The turn went on with well-shaped speech only, and did not end between named calls and their results. */
  ghost predicate Uncut(rows: seq<Message>, span: Span) {
    && AgentTurn.ShapedBefore(span.turn, rows, span.worlds, span.steps)
    && forall j: nat :: j < span.steps ==> !CutAt(rows, span, j)
  }

  ghost predicate Sound(codec: Codec, sessionId: string, rows: seq<Message>, span: Span) {
    && span.turn.codec == codec && span.turn.sessionId == sessionId
    && AgentTurn.Usable(span.turn) && OwnInput(span.turn) && (forall j: nat :: AgentTurn.WorldOk(span.worlds(j)))
    && Uncut(Opened(rows, span), span)
  }

  ghost predicate AllSound(codec: Codec, sessionId: string, rows: seq<Message>, spans: seq<Span>)
    decreases |spans|
  {
    spans == [] || (Sound(codec, sessionId, rows, spans[0]) && AllSound(codec, sessionId, AfterTurn(rows, spans[0]), spans[1..]))
  }

  /** What every turn keeps: the stored conversation is valid, and so is each turn behind the last boundary. */
  ghost predicate Kept(codec: Codec, sessionId: string, rows: seq<Message>) {
    && AllRising(rows)
    && Valid(ItemsOf(codec, List(rows, sessionId)))
    && TurnsValid(codec, AfterBoundary(List(rows, sessionId)))
  }

  // -------- what is added belongs to the turn --------

  ghost predicate OfTurn(msgs: seq<Message>, turnId: string) {
    forall i :: 0 <= i < |msgs| ==> msgs[i].turnId == turnId && !IsCompactBoundary(msgs[i])
  }

  ghost predicate FreshOfTurn(msgs: seq<Message>, turnId: string) {
    OfTurn(msgs, turnId) && forall i :: 0 <= i < |msgs| ==> msgs[i].position == 0
  }

  lemma {:induction false} PlacedOfTurn(msgs: seq<Message>, sessionId: string, turnId: string, next: int)
    requires OfTurn(msgs, turnId)
    ensures OfTurn(PlaceAll(msgs, sessionId, turnId, next), turnId)
  {
    hide IsBlank, HasPrefix;
    if msgs != [] {
      var rest := PlaceAll(msgs[1..], sessionId, turnId, if msgs[0].position == 0 then next + 1 else next);
      assert forall i :: 0 <= i < |msgs| - 1 ==> msgs[1..][i] == msgs[i + 1];
      PlacedOfTurn(msgs[1..], sessionId, turnId, if msgs[0].position == 0 then next + 1 else next);
      var all := [Place(msgs[0], sessionId, turnId, next)] + rest;
      assert forall i :: 0 < i < |all| ==> all[i] == rest[i - 1];
    }
  }

  lemma {:induction false} SpeechOfTurn(codec: Codec, items: seq<Item>, turnId: string)
    ensures FreshOfTurn(MessagesOf(codec, items, turnId), turnId)
  {
    hide IsBlank, HasPrefix;
    if items != [] {
      SpeechOfTurn(codec, items[..|items| - 1], turnId);
    }
  }

  lemma ResultsOfTurn(calls: seq<AgentLoop.Call>, outputs: nat -> string, turnId: string)
    ensures FreshOfTurn(ResultsOf(calls, outputs, turnId), turnId)
  {
    hide HasPrefix;
  }

  /** Appending messages of the turn extends the session's list by messages of the turn. */
  lemma AppendOfTurn(turn: AgentTurn.Turn, rows: seq<Message>, msgs: seq<Message>) returns (added: seq<Message>)
    requires AllRising(rows) && FreshOfTurn(msgs, turn.turnId)
    ensures var rows' := AgentTurn.AppendTo(turn, rows, msgs);
            AllRising(rows') && List(rows', turn.sessionId) == List(rows, turn.sessionId) + added && OfTurn(added, turn.turnId)
  {
    hide AllRising, List, OfTurn, PlaceAll, OfSession, MaxPosition;
    var w := Write(turn.sessionId, turn.turnId, msgs);
    WriteKeepsRising(rows, w);
    added := PlaceAll(msgs, turn.sessionId, turn.turnId, MaxPosition(OfSession(rows, turn.sessionId)) + 1);
    PlacedOfTurn(msgs, turn.sessionId, turn.turnId, MaxPosition(OfSession(rows, turn.sessionId)) + 1);
  }

  lemma JoinOfTurn(a: seq<Message>, b: seq<Message>, turnId: string)
    requires OfTurn(a, turnId) && OfTurn(b, turnId)
    ensures OfTurn(a + b, turnId)
  {
    hide IsCompactBoundary;
  }

  lemma JoinFresh(a: seq<Message>, b: seq<Message>, turnId: string)
    requires FreshOfTurn(a, turnId) && FreshOfTurn(b, turnId)
    ensures FreshOfTurn(a + b, turnId)
  {
    hide IsCompactBoundary;
  }

  lemma InputOfTurn(turn: AgentTurn.Turn, first: bool)
    requires AgentTurn.Usable(turn) && OwnInput(turn)
    ensures FreshOfTurn(if first then turn.input else [], turn.turnId)
  {
    hide IsCompactBoundary, Valid, ItemsOf, IsBlank;
  }

  lemma IterationOfTurn(turn: AgentTurn.Turn, rows: seq<Message>, first: bool, world: AgentTurn.World) returns (added: seq<Message>)
    requires AllRising(rows) && AgentTurn.Usable(turn) && OwnInput(turn)
    ensures var rows' := AgentTurn.Iterate(turn, rows, first, world).rows;
            AllRising(rows') && List(rows', turn.sessionId) == List(rows, turn.sessionId) + added && OfTurn(added, turn.turnId)
  {
    hide AllRising, List, OfTurn, FreshOfTurn, AgentTurn.AppendTo, Spoken, MessagesOf, ResultsOf, AgentTurn.Usable, OwnInput;
    NoneOfTurn(turn.turnId);
    added := [];
    assert List(rows, turn.sessionId) + [] == List(rows, turn.sessionId);
    if world.streamOk && Spoken(world.events).Some? {
      var heard := Spoken(world.events).value;
      var opening, speech := if first then turn.input else [], MessagesOf(turn.codec, heard.items, turn.turnId);
      if opening + speech == [] || world.speechStored {
        InputOfTurn(turn, first);
        SpeechOfTurn(turn.codec, heard.items, turn.turnId);
        JoinFresh(opening, speech, turn.turnId);
        var spoken := AgentTurn.AppendTo(turn, rows, opening + speech);
        added := AppendOfTurn(turn, rows, opening + speech);
        if heard.calls != [] && world.resultsStored {
          ResultsOfTurn(heard.calls, world.outputs, turn.turnId);
          var more := AppendOfTurn(turn, spoken, ResultsOf(heard.calls, world.outputs, turn.turnId));
          JoinOfTurn(added, more, turn.turnId);
          assert List(rows, turn.sessionId) + (added + more) == (List(rows, turn.sessionId) + added) + more;
          added := added + more;
        }
      }
    }
  }

  lemma NoneOfTurn(turnId: string)
    ensures OfTurn([], turnId)
  {
  }

  /** Whatever a turn's iterations do, they extend the session's list by messages of the turn. */
  lemma {:induction false} HeadOfTurn(turn: AgentTurn.Turn, rows: seq<Message>, worlds: nat -> AgentTurn.World, k: nat)
    returns (added: seq<Message>)
    requires AllRising(rows) && AgentTurn.Usable(turn) && OwnInput(turn)
    ensures var rows' := AgentTurn.Head(turn, rows, worlds, k).rows;
            AllRising(rows') && List(rows', turn.sessionId) == List(rows, turn.sessionId) + added && OfTurn(added, turn.turnId)
  {
    hide AllRising, List, OfTurn, AgentTurn.Usable, OwnInput, AgentTurn.Iterate;
    if k == 0 {
      NoneOfTurn(turn.turnId);
      added := [];
      assert List(rows, turn.sessionId) + [] == List(rows, turn.sessionId);
    } else {
      var front := HeadOfTurn(turn, rows, worlds, k - 1);
      var before := AgentTurn.Head(turn, rows, worlds, k - 1);
      added := front;
      if before.Going? {
        var more := IterationOfTurn(turn, before.rows, k == 1, worlds(k - 1));
        JoinOfTurn(front, more, turn.turnId);
        assert List(rows, turn.sessionId) + (front + more) == (List(rows, turn.sessionId) + front) + more;
        added := front + more;
      }
    }
  }

  // -------- what a turn leaves is valid --------

  lemma {:induction false} WhereItEnded(turn: AgentTurn.Turn, rows: seq<Message>, worlds: nat -> AgentTurn.World, k: nat) returns (j: nat)
    requires AgentTurn.Head(turn, rows, worlds, k).Over?
    ensures j < k && AgentTurn.Head(turn, rows, worlds, j).Going?
    ensures AgentTurn.Head(turn, rows, worlds, j + 1) == AgentTurn.Head(turn, rows, worlds, k)
  {
    hide AgentTurn.Iterate;
    if AgentTurn.Head(turn, rows, worlds, k - 1).Over? {
      j := WhereItEnded(turn, rows, worlds, k - 1);
    } else {
      j := k - 1;
    }
  }

  lemma EndIsStoredValid(rows: seq<Message>, span: Span)
    requires AllRising(rows) && Valid(AgentTurn.Stored(span.turn, rows))
    requires AgentTurn.Usable(span.turn) && (forall j: nat :: AgentTurn.WorldOk(span.worlds(j))) && Uncut(rows, span)
    ensures Valid(AgentTurn.Stored(span.turn, AgentTurn.Head(span.turn, rows, span.worlds, span.steps).rows))
  {
    hide Valid, AgentTurn.Stored, AgentTurn.Usable, AgentTurn.WorldOk, AgentTurn.Iterate, Rising, OfSession, Spoken, Named, WellShaped, OpenFrom;
    var turn, worlds, n := span.turn, span.worlds, span.steps;
    assert Rising(OfSession(rows, turn.sessionId));
    if AgentTurn.Head(turn, rows, worlds, n).Going? {
      AgentTurn.EveryHeadIsValid(turn, rows, worlds, n);
      AgentTurn.ValidIsClosed(AgentTurn.Stored(turn, AgentTurn.Head(turn, rows, worlds, n).rows));
    } else {
      var j := WhereItEnded(turn, rows, worlds, n);
      assert AgentTurn.ShapedBefore(turn, rows, worlds, j);
      AgentTurn.EndIsValid(turn, rows, worlds, j);
      assert !CutAt(rows, span, j);
    }
  }

  // -------- turns behind the last boundary --------

  lemma BoundaryBefore(msgs: seq<Message>, added: seq<Message>)
    requires NoBoundary(added)
    ensures AfterBoundary(msgs + added) == AfterBoundary(msgs) + added
    decreases |added|
  {
    hide IsCompactBoundary;
    if added == [] {
      assert msgs + added == msgs && AfterBoundary(msgs) + added == AfterBoundary(msgs);
    } else {
      var front, last := added[..|added| - 1], added[|added| - 1];
      assert added == front + [last] && msgs + added == (msgs + front) + [last];
      BoundaryBefore(msgs, front);
      assert (AfterBoundary(msgs) + front) + [last] == AfterBoundary(msgs) + added;
    }
  }

  lemma SameStarts(a: seq<Message>, added: seq<Message>, turnId: string)
    requires OfTurn(added, turnId) && !IsBlank(turnId)
    ensures forall i: nat :: i < |a| ==> (TurnStart(a + added, i) <==> TurnStart(a, i))
    ensures forall i: nat :: |a| < i < |a + added| ==> !TurnStart(a + added, i)
  {
    hide IsBlank, TrimSpace, Decimal, IsCompactBoundary;
    var all := a + added;
    forall i: nat | i < |a| ensures TurnKey(all, i) == TurnKey(a, i) {
      assert all[i] == a[i];
    }
    forall i: nat | |a| <= i < |all| ensures TurnKey(all, i) == TrimSpace(turnId) {
      assert all[i] == added[i - |a|];
    }
  }

  /** A valid run of messages of one turn, behind valid turns, continues the last of them or is a turn of its own. */
  lemma TurnsGrow(codec: Codec, a: seq<Message>, added: seq<Message>, turnId: string)
    requires TurnsValid(codec, a) && OfTurn(added, turnId) && !IsBlank(turnId) && Valid(ItemsOf(codec, added))
    ensures TurnsValid(codec, a + added)
  {
    hide OfTurn, TurnStart, ItemsOf, Valid, IsBlank;
    SameStarts(a, added, turnId);
    var all := a + added;
    forall s: nat, e: nat | IsTurn(all, s, e) ensures Valid(ItemsOf(codec, all[s..e])) {
      if e < |a| {
        assert IsTurn(a, s, e) && all[s..e] == a[s..e];
      } else if s < |a| {
        assert IsTurn(a, s, |a|) && all[s..e] == a[s..] + added[..e - |a|];
        assert e == |a| || e == |all|;
        TurnThenMore(codec, a[s..|a|], added[..e - |a|], added);
        assert a[s..|a|] == a[s..];
      } else {
        assert s == |a| && e == |all| && all[s..e] == added;
      }
    }
  }

  lemma TurnThenMore(codec: Codec, a: seq<Message>, b: seq<Message>, added: seq<Message>)
    requires Valid(ItemsOf(codec, a)) && Valid(ItemsOf(codec, added)) && (b == [] || b == added)
    ensures Valid(ItemsOf(codec, a + b))
  {
    hide Valid, ItemsOf;
    NoItems(codec);
    ItemsConcat(codec, a, b);
    ValidConcat(ItemsOf(codec, a), ItemsOf(codec, b));
  }

  // -------- the start of a turn --------

  lemma OneSystemMessage(codec: Codec, m: Message)
    requires m.role == "system"
    ensures TurnsValid(codec, [m])
  {
    hide IsBlank, TrimSpace, HasPrefix;
    assert [m][..0] == [];
    var text := CompactSummaryContent(m);
    OneUserMessage(text);
    assert ItemsOf(codec, [m]) == [] + Listed(ToItem(codec, m));
    NoItems(codec);
    assert [] + [UserMessage(text, [])] == [UserMessage(text, [])];
    forall s: nat, e: nat | IsTurn([m], s, e) ensures Valid(ItemsOf(codec, [m][s..e])) {
      assert s == 0 && e == 1 && [m][0..1] == [m];
    }
  }

  /** A compaction leaves, behind the new boundary, the summary alone. */
  lemma OpenedIsKept(codec: Codec, sessionId: string, rows: seq<Message>, span: Span)
    requires Kept(codec, sessionId, rows) && span.turn.sessionId == sessionId
    ensures Kept(codec, sessionId, Opened(rows, span))
  {
    hide AllRising, List, ItemsOf, Valid, TurnsValid, AfterBoundary, CompactMessages, IsCompactBoundary, OfSession, MaxPosition, PlaceAll;
    if span.compacted.Some? {
      var turnId, summary, id := span.turn.turnId, span.compacted.value.0, span.compacted.value.1;
      var c := CompactMessages(turnId, summary, id);
      var w := Write(sessionId, turnId, c);
      assert FreshMessages(w) by { CompactMessagesAreFresh(turnId, summary, id); }
      WriteKeepsRising(rows, w);
      WriteStaysValid(codec, rows, w, summary, id);
      var placed := PlaceAll(c, sessionId, turnId, MaxPosition(OfSession(rows, sessionId)) + 1);
      PlacedAreBoundaryAndSummary(c, placed, turnId, summary, id);
      SummaryOnly(List(rows, sessionId), placed, []);
      SummaryIsSystem(turnId, summary, id);
      OneSystemMessage(codec, placed[1]);
    }
  }

  lemma SummaryIsSystem(turnId: string, summary: string, id: string)
    ensures var c := CompactMessages(turnId, summary, id); |c| == 2 && c[1].role == "system"
  {
    hide TrimSpace, SummaryText;
  }

  // -------- over all turns --------

  lemma TurnKeeps(codec: Codec, sessionId: string, rows: seq<Message>, span: Span)
    requires Kept(codec, sessionId, rows) && Sound(codec, sessionId, rows, span)
    ensures Kept(codec, sessionId, AfterTurn(rows, span))
  {
    hide AllRising, List, ItemsOf, Valid, TurnsValid, AfterBoundary, OfTurn, Opened, AgentTurn.Head, AgentTurn.Usable, IsBlank, Uncut, AgentTurn.WorldOk;
    OpenedIsKept(codec, sessionId, rows, span);
    var mid := Opened(rows, span);
    var added := HeadOfTurn(span.turn, mid, span.worlds, span.steps);
    EndIsStoredValid(mid, span);
    var end := AfterTurn(rows, span);
    ItemsConcat(codec, List(mid, sessionId), added);
    ValidConcat(ItemsOf(codec, List(mid, sessionId)), ItemsOf(codec, added));
    OfTurnHasNoBoundary(added, span.turn.turnId);
    BoundaryBefore(List(mid, sessionId), added);
    TurnsGrow(codec, AfterBoundary(List(mid, sessionId)), added, span.turn.turnId);
  }

  lemma OfTurnHasNoBoundary(msgs: seq<Message>, turnId: string)
    requires OfTurn(msgs, turnId)
    ensures NoBoundary(msgs)
  {
    hide IsCompactBoundary;
  }

  /** Over any number of turns and compactions, none of them cut, the stored conversation and each active turn stay valid transcripts. */
  lemma {:induction false} TurnsKeep(codec: Codec, sessionId: string, rows: seq<Message>, spans: seq<Span>)
    requires Kept(codec, sessionId, rows) && AllSound(codec, sessionId, rows, spans)
    ensures Kept(codec, sessionId, AfterTurns(rows, spans))
    decreases |spans|
  {
    hide Kept, Sound, AfterTurn;
    if spans != [] {
      TurnKeeps(codec, sessionId, rows, spans[0]);
      TurnsKeep(codec, sessionId, AfterTurn(rows, spans[0]), spans[1..]);
    }
  }

  lemma EmptyIsKept(codec: Codec, sessionId: string)
    ensures Kept(codec, sessionId, [])
  {
    NoItems(codec);
    assert forall s :: OfSession([], s) == [];
  }

  /** Whatever a compaction does to the table, some opening of the turn says it. */
  lemma OutcomeOpensTheTurn(span: Span, job: Job, active: seq<Message>, k: nat, summary: Result<string, Failure>,
                            before: Tables, after: Tables, r: Result<seq<Message>, Failure>) returns (compacted: Option<(string, string)>)
    requires span.turn.sessionId == job.sessionId && span.turn.turnId == job.turnId
    requires k <= |active| && Outcome(job, active, k, summary, before, after, r)
    ensures after.rows == Opened(before.rows, span.(compacted := compacted))
  {
    hide IsRange, CompactMessages, PlaceAll, OfSession, MaxPosition, IsBlank;
    compacted := None;
    if k > 0 && summary.Ok? && !IsBlank(summary.value) {
      var start, end, placed :| Summarised(job, active[..k], summary.value, start, end, before, after, placed)
                                && r == Continued(placed, active[k..]);
      var saves := 0 < start <= end;
      if (saves ==> job.writes.snapshotOk) && job.writes.appendOk {
        compacted := Some((summary.value, if saves then job.snapshotId else ""));
      }
    }
  }

  /**
   Whatever the turns of a session did before, as long as none was cut inside an exchange, the next
   turn starts from a valid context, whether or not it compacts and however that ends.
   */
  lemma EveryTurnStartsValid(codec: Codec, sessionId: string, spans: seq<Span>, job: Job, k: nat, budget: int,
                             summary: Result<string, Failure>, before: Tables, after: Tables, r: Result<seq<Message>, Failure>)
    requires AllSound(codec, sessionId, [], spans) && before.rows == AfterTurns([], spans) && job.sessionId == sessionId
    requires var active := AfterBoundary(Compacted(List(before.rows, sessionId)));
             && k <= |active| && (k == 0 || IsSplit(active, budget, k))
             && Outcome(job, active, k, summary, before, after, r)
    ensures r.Ok? ==> Valid(ItemsOf(codec, r.value))
  {
    hide AllSound, AllRising, List, ItemsOf, Valid, TurnsValid, AfterBoundary, Compacted, IsSplit, Outcome, AfterTurns;
    EmptyIsKept(codec, sessionId);
    TurnsKeep(codec, sessionId, [], spans);
    ActiveTurnsStayValid(codec, List(before.rows, sessionId));
    TurnStartsValid(codec, job, AfterBoundary(Compacted(List(before.rows, sessionId))), k, budget, summary, before, after, r);
  }
}
