// Every step of the session queue - a submission, a cancel, the return of an agent - keeps each part
// of the invariant of SessionRuns, so every run does (internal/v2/session/manager.go).
module SessionInvariant {
  import opened Basics
  import opened SessionQueue
  import opened SessionRuns

  function Fresh(id: string): AgentRun {
    AgentRun(id, false, false)
  }

  // -------- ids --------

  lemma IdsSubmit(submitted: seq<string>, queue: seq<Turn>, runs: seq<AgentRun>, turn: Turn)
    requires IdsOk(submitted, queue, runs) && turn.id !in submitted && turn.id != ""
    ensures IdsOk(submitted + [turn.id], queue, runs)
    ensures IdsOk(submitted + [turn.id], queue + [turn], runs)
    ensures IdsOk(submitted + [turn.id], queue, runs + [Fresh(turn.id)])
  {
  }

  lemma IdsSameTurns(submitted: seq<string>, queue: seq<Turn>, runs: seq<AgentRun>, runs': seq<AgentRun>)
    requires IdsOk(submitted, queue, runs) && SameTurns(runs, runs')
    ensures IdsOk(submitted, queue, runs')
  {
  }

  lemma IdsAdvance(submitted: seq<string>, queue: seq<Turn>, runs: seq<AgentRun>)
    requires IdsOk(submitted, queue, runs) && queue != []
    ensures IdsOk(submitted, queue[1..], runs + [Fresh(queue[0].id)])
  {
  }

  lemma IdsRemove(submitted: seq<string>, queue: seq<Turn>, runs: seq<AgentRun>, i: nat)
    requires IdsOk(submitted, queue, runs) && i < |queue|
    ensures IdsOk(submitted, queue[..i] + queue[i + 1..], runs)
  {
  }

  // -------- order --------

  lemma OrderSubmit(submitted: seq<string>, waited: set<string>, queue: seq<Turn>, runs: seq<AgentRun>, turn: Turn)
    requires IdsOk(submitted, queue, runs) && OrderOk(submitted, waited, queue, runs) && turn.id !in submitted
    ensures OrderOk(submitted + [turn.id], waited, queue, runs)
    ensures OrderOk(submitted + [turn.id], waited + {turn.id}, queue + [turn], runs)
    ensures OrderOk(submitted + [turn.id], waited, queue, runs + [Fresh(turn.id)])
  {
    hide Before;
    forall a, b | a in submitted && b in submitted
      ensures Before(submitted + [turn.id], a, b) == Before(submitted, a, b)
      ensures Before(submitted + [turn.id], a, turn.id)
    {
      BeforeNewSubmission(submitted, turn.id, a, b);
    }
  }

  lemma OrderSameTurns(submitted: seq<string>, waited: set<string>, queue: seq<Turn>, runs: seq<AgentRun>, runs': seq<AgentRun>)
    requires OrderOk(submitted, waited, queue, runs) && SameTurns(runs, runs')
    ensures OrderOk(submitted, waited, queue, runs')
  {
  }

  lemma OrderAdvance(submitted: seq<string>, waited: set<string>, queue: seq<Turn>, runs: seq<AgentRun>)
    requires OrderOk(submitted, waited, queue, runs) && queue != []
    ensures OrderOk(submitted, waited, queue[1..], runs + [Fresh(queue[0].id)])
  {
  }

  lemma OrderRemove(submitted: seq<string>, waited: set<string>, queue: seq<Turn>, runs: seq<AgentRun>, i: nat)
    requires OrderOk(submitted, waited, queue, runs) && i < |queue|
    ensures OrderOk(submitted, waited, queue[..i] + queue[i + 1..], runs)
  {
  }

  // -------- overtaking --------

  /** A submission that only joins or is merged leaves every delay as it was. */
  lemma DelaySubmit(w: World, turn: Turn)
    requires Inv(w) && Enabled(w, Submit(turn)) && w.state.active.Some?
    requires w.state.active.value.kind == UserMessage || turn.kind == ReportBatch
    ensures OvertakingOk(Step(w, Submit(turn)))
  {
    var s, w' := w.state, Step(w, Submit(turn));
    forall i | 0 <= i < |w'.state.queue| ensures Delay(w', i) <= 1 {
      OvertakesNewSubmission(s.runs, w.submitted, turn.id, w'.state.queue[i].id);
      assert w'.state.queue[..i] == s.queue[..i];
      if i < |s.queue| {
        assert Delay(w, i) <= 1;
      } else {
        assert s.queue[..i] == s.queue;
      }
    }
  }

  /** A user turn that preempts a batch overtakes each queued turn, and the batch is gone. */
  lemma DelayPreempt(w: World, turn: Turn)
    requires Inv(w) && Enabled(w, Submit(turn)) && w.state.active.Some?
    requires w.state.active.value.kind == ReportBatch && turn.kind == UserMessage
    ensures OvertakingOk(Step(w, Submit(turn)))
  {
    var s, w' := w.state, Step(w, Submit(turn));
    var runs := CancelActiveRun(s).runs;
    assert w'.state.runs == runs + [Fresh(turn.id)] && w'.state.queue == s.queue;
    forall i | 0 <= i < |s.queue| ensures Delay(w', i) <= 1 {
      assert Delay(w, i) <= 1;
      OvertakesSameTurns(s.runs, runs, w.submitted, s.queue[i].id);
      OvertakesNewSubmission(runs, w.submitted, turn.id, s.queue[i].id);
      assert w'.state.runs[..|runs|] == runs;
    }
  }

  /** When the head of the queue becomes active, the others' delays do not grow. */
  lemma DelayAdvance(w: World, w': World, runs: seq<AgentRun>)
    requires Inv(w) && w.state.queue != [] && SameTurns(w.state.runs, runs)
    requires w'.submitted == w.submitted && w'.state.queue == w.state.queue[1..]
    requires w'.state.active == Some(w.state.queue[0]) && w'.state.runs == runs + [Fresh(w.state.queue[0].id)]
    ensures OvertakingOk(w')
  {
    hide IdsOk, ActiveOk, Conserved, OutcomesOk;
    var s, s' := w.state, w'.state;
    forall i | 0 <= i < |s'.queue| ensures Delay(w', i) <= 1 {
      var id := s'.queue[i].id;
      assert Delay(w, i + 1) <= 1;
      OvertakesSameTurns(s.runs, runs, w.submitted, id);
      assert s'.runs[..|runs|] == runs;
      assert Before(w.submitted, s.queue[0].id, s.queue[i + 1].id);
      CountTail(s.queue[..i + 1], ReportBatch);
      assert s.queue[..i + 1][1..] == s'.queue[..i];
    }
  }

  lemma DelayRemove(w: World, w': World, k: nat)
    requires Inv(w) && k < |w.state.queue|
    requires w'.submitted == w.submitted && w'.state.queue == w.state.queue[..k] + w.state.queue[k + 1..]
    requires w'.state.active == w.state.active && w'.state.runs == w.state.runs
    ensures OvertakingOk(w')
  {
    forall i | 0 <= i < |w'.state.queue| ensures Delay(w', i) <= 1 {
      CountRemove(w.state.queue, k, i, ReportBatch);
      assert Delay(w, if i < k then i else i + 1) <= 1;
    }
  }

  // -------- what each kind of step does to the whole invariant --------

  lemma StartKeepsInv(w: World, turn: Turn)
    requires Inv(w) && Enabled(w, Submit(turn))
    requires w.state.active.Some? ==> w.state.active.value.kind == ReportBatch && turn.kind == UserMessage
    ensures Inv(Step(w, Submit(turn)))
  {
    hide IdsOk, ActiveOk, QueueOk, Conserved, OutcomesOk, OrderOk, OvertakingOk;
    StartKeepsActive(w, turn);
    var s, w' := w.state, Step(w, Submit(turn));
    var runs := CancelActiveRun(s).runs;
    IdsSameTurns(w.submitted, s.queue, s.runs, runs);
    IdsSubmit(w.submitted, s.queue, runs, turn);
    OrderSameTurns(w.submitted, w.waited, s.queue, s.runs, runs);
    OrderSubmit(w.submitted, w.waited, s.queue, runs, turn);
    if s.active.Some? { DelayPreempt(w, turn); }
    StartKeepsOutcomes(w, turn);
  }

  lemma StartKeepsActive(w: World, turn: Turn)
    requires Inv(w) && Enabled(w, Submit(turn))
    requires w.state.active.Some? ==> w.state.active.value.kind == ReportBatch && turn.kind == UserMessage
    ensures var s, w' := w.state, Step(w, Submit(turn));
            var runs := CancelActiveRun(s).runs;
            && SameTurns(s.runs, runs) && w'.state.runs == runs + [Fresh(turn.id)] && w'.state.queue == s.queue
            && w'.submitted == w.submitted + [turn.id] && w'.waited == w.waited
            && ActiveOk(w'.state.active, w'.state.cancel, w'.state.runs) && QueueOk(w'.state)
            && (s.active.None? ==> OvertakingOk(w'))
  {
    hide IdsOk, Conserved, OutcomesOk, OrderOk;
  }

  lemma StartKeepsOutcomes(w: World, turn: Turn)
    requires Inv(w) && Enabled(w, Submit(turn))
    requires w.state.active.Some? ==> w.state.active.value.kind == ReportBatch && turn.kind == UserMessage
    ensures var w' := Step(w, Submit(turn)); Conserved(w'.submitted, w'.outcome, w'.state.active, w'.state.queue)
    ensures OutcomesOk(Step(w, Submit(turn)).submitted, Step(w, Submit(turn)).outcome, Step(w, Submit(turn)).state.runs)
  {
    hide OrderOk, OvertakingOk, Conserved, OutcomesOk, Started;
    StartIsConserved(w, turn);
    NotYetStarted(w, turn.id);
    var s, submitted := w.state, w.submitted + [turn.id];
    OutcomesSubmit(w.submitted, w.outcome, s.runs, turn.id);
    if s.active.Some? {
      ActiveNotEnded(w);
      OutcomesEnd(submitted, w.outcome, s.runs, s.cancel.value, Preempted);
      OutcomesStart(submitted, w.outcome[s.active.value.id := Preempted], CancelActiveRun(s).runs, turn.id);
    } else {
      OutcomesStart(submitted, w.outcome, s.runs, turn.id);
    }
  }

  lemma ActiveNotEnded(w: World)
    requires Inv(w) && w.state.active.Some?
    ensures w.state.active.value.id in w.submitted && w.state.active.value.id !in w.outcome
    ensures w.state.cancel.Some? && w.state.cancel.value < |w.state.runs|
    ensures w.state.runs[w.state.cancel.value].turnId == w.state.active.value.id && w.state.runs[w.state.cancel.value].Running()
    ensures forall r, t :: 0 <= r < t < |w.state.runs| ==> w.state.runs[r].turnId != w.state.runs[t].turnId
  {
    hide OrderOk, OvertakingOk, OutcomesOk, QueueOk, InQueue;
  }

  /** The run as its turn ends: a finished one has returned, the others are cancelled. */
  function Flagged(run: AgentRun, how: Outcome): AgentRun {
    if how.Finished? then run.(returned := true) else run.(cancelled := true)
  }

  lemma OutcomesEnd(submitted: seq<string>, outcome: map<string, Outcome>, runs: seq<AgentRun>, r: nat, how: Outcome)
    requires OutcomesOk(submitted, outcome, runs) && r < |runs| && runs[r].turnId !in outcome && !runs[r].cancelled && !how.Coalesced?
    requires forall q, t :: 0 <= q < t < |runs| ==> runs[q].turnId != runs[t].turnId
    ensures OutcomesOk(submitted, outcome[runs[r].turnId := how], runs[r := Flagged(runs[r], how)])
  {
    StartedAgree(runs, runs[r := Flagged(runs[r], how)]);
    assert Started(runs, runs[r].turnId);
    hide Started;
  }

  lemma StartedAgree(runs: seq<AgentRun>, runs': seq<AgentRun>)
    requires SameTurns(runs, runs')
    ensures forall id :: Started(runs', id) <==> Started(runs, id)
  {
    forall id ensures Started(runs', id) <==> Started(runs, id) {
      if Started(runs, id) {
        var r :| 0 <= r < |runs| && runs[r].turnId == id;
        assert runs'[r].turnId == id;
      }
    }
  }

  lemma OutcomesStart(submitted: seq<string>, outcome: map<string, Outcome>, runs: seq<AgentRun>, id: string)
    requires OutcomesOk(submitted, outcome, runs) && id !in outcome
    ensures OutcomesOk(submitted, outcome, runs + [Fresh(id)])
  {
    StartedSame(runs, runs + [Fresh(id)], id);
    hide Started;
  }

  lemma StartIsConserved(w: World, turn: Turn)
    requires Inv(w) && Enabled(w, Submit(turn))
    requires w.state.active.Some? ==> w.state.active.value.kind == ReportBatch && turn.kind == UserMessage
    ensures var w' := Step(w, Submit(turn)); Conserved(w'.submitted, w'.outcome, w'.state.active, w'.state.queue)
  {
    hide OutcomesOk, OrderOk, OvertakingOk;
    assert Step(w, Submit(turn)).state.queue == w.state.queue;
  }

  lemma StartedSame(runs: seq<AgentRun>, runs': seq<AgentRun>, id: string)
    requires |runs'| == |runs| + 1 && runs'[|runs|].turnId == id
    requires forall r :: 0 <= r < |runs| ==> runs'[r].turnId == runs[r].turnId
    ensures forall x :: Started(runs', x) <==> Started(runs, x) || x == id
  {
    forall x | Started(runs, x) || x == id ensures Started(runs', x) {
      if x == id {
        assert runs'[|runs|].turnId == x;
      } else {
        var r :| 0 <= r < |runs| && runs[r].turnId == x;
        assert runs'[r].turnId == x;
      }
    }
  }

  lemma WaitKeepsInv(w: World, turn: Turn)
    requires Inv(w) && Enabled(w, Submit(turn)) && w.state.active.Some?
    requires w.state.active.value.kind == UserMessage || turn.kind == ReportBatch
    ensures Inv(Step(w, Submit(turn)))
  {
    var s, w' := w.state, Step(w, Submit(turn));
    IdsSubmit(w.submitted, s.queue, s.runs, turn);
    OrderSubmit(w.submitted, w.waited, s.queue, s.runs, turn);
    DelaySubmit(w, turn);
    WaitKeepsOutcomes(w, turn);
    assert (s.queue + [turn])[..|s.queue|] == s.queue;
  }

  lemma WaitKeepsOutcomes(w: World, turn: Turn)
    requires Inv(w) && Enabled(w, Submit(turn)) && w.state.active.Some?
    requires w.state.active.value.kind == UserMessage || turn.kind == ReportBatch
    ensures var w' := Step(w, Submit(turn)); Conserved(w'.submitted, w'.outcome, w'.state.active, w'.state.queue)
    ensures OutcomesOk(Step(w, Submit(turn)).submitted, Step(w, Submit(turn)).outcome, Step(w, Submit(turn)).state.runs)
  {
    hide OrderOk, OvertakingOk, ActiveOk, Conserved, OutcomesOk, Started, QueueOk;
    WaitIsConserved(w, turn);
    var s, id := w.state, SubmitTurn(w.state, turn).1;
    NotYetStarted(w, turn.id);
    if id != turn.id {
      CoalescedIsQueued(s.queue, turn);
      OutcomesCoalesce(w.submitted, w.outcome, s.runs, turn.id, id);
    } else {
      OutcomesSubmit(w.submitted, w.outcome, s.runs, turn.id);
    }
  }

  lemma NotYetStarted(w: World, id: string)
    requires Inv(w) && id !in w.submitted
    ensures !Started(w.state.runs, id) && !IsActive(w.state.active, id) && id !in w.outcome
  {
    hide OrderOk, OvertakingOk, ActiveOk, OutcomesOk, QueueOk;
  }

  lemma CoalescedIsQueued(queue: seq<Turn>, turn: Turn)
    ensures Enqueue(queue, turn).1 != turn.id ==> exists i :: 0 <= i < |queue| && queue[i].id == Enqueue(queue, turn).1
  {
  }

  lemma OutcomesSubmit(submitted: seq<string>, outcome: map<string, Outcome>, runs: seq<AgentRun>, id: string)
    requires OutcomesOk(submitted, outcome, runs)
    ensures OutcomesOk(submitted + [id], outcome, runs)
  {
    hide Started;
  }

  lemma OutcomesCoalesce(submitted: seq<string>, outcome: map<string, Outcome>, runs: seq<AgentRun>, id: string, into: string)
    requires OutcomesOk(submitted, outcome, runs) && !Started(runs, id) && into in submitted && into != id
    ensures OutcomesOk(submitted + [id], outcome[id := Coalesced(into)], runs)
  {
    NoRunOf(runs, id);
    hide Started;
  }

  lemma NoRunOf(runs: seq<AgentRun>, id: string)
    requires !Started(runs, id)
    ensures forall r :: 0 <= r < |runs| ==> runs[r].turnId != id
  {
  }

  lemma WaitIsConserved(w: World, turn: Turn)
    requires Inv(w) && Enabled(w, Submit(turn)) && w.state.active.Some?
    requires w.state.active.value.kind == UserMessage || turn.kind == ReportBatch
    ensures var w' := Step(w, Submit(turn)); Conserved(w'.submitted, w'.outcome, w'.state.active, w'.state.queue)
    ensures turn.id !in w.outcome && forall id :: id in w.outcome ==> id in w.submitted
  {
    hide IdsOk, OrderOk, OvertakingOk, ActiveOk, OutcomesOk, QueueOk, Conserved, Recount;
    var s, w' := w.state, Step(w, Submit(turn));
    EndedWasSubmitted(w.submitted, w.outcome, s.active, s.queue);
    if SubmitTurn(s, turn).1 == turn.id {
      BatchHasAnId(w, turn);
      assert w'.state.queue == s.queue + [turn];
      ConservedJoin(w.submitted, w.outcome, s.active, s.queue, turn);
    } else {
      assert w'.state.queue == s.queue;
      ConservedMerge(w.submitted, w.outcome, s.active, s.queue, turn.id, Coalesced(SubmitTurn(s, turn).1));
    }
  }

  lemma EndedWasSubmitted(submitted: seq<string>, outcome: map<string, Outcome>, active: Option<Turn>, queue: seq<Turn>)
    requires Conserved(submitted, outcome, active, queue)
    ensures forall id :: id in outcome ==> id in submitted
    ensures active.Some? ==> active.value.id in submitted
  {
    hide InQueue;
  }

  /** A batch that is merged gets the waiting one's id, which is not its own. */
  lemma BatchHasAnId(w: World, turn: Turn)
    requires IdsOk(w.submitted, w.state.queue, w.state.runs) && turn.id !in w.submitted
    ensures QueuedBatch(w.state.queue).Some? ==> QueuedBatch(w.state.queue).value != turn.id
  {
  }

  lemma ConservedJoin(submitted: seq<string>, outcome: map<string, Outcome>, active: Option<Turn>, queue: seq<Turn>, turn: Turn)
    requires Conserved(submitted, outcome, active, queue) && turn.id !in submitted
    ensures Conserved(submitted + [turn.id], outcome, active, queue + [turn])
  {
    hide InQueue;
    QueuedAfterAppend(queue, turn);
  }

  lemma ConservedMerge(submitted: seq<string>, outcome: map<string, Outcome>, active: Option<Turn>, queue: seq<Turn>, id: string, how: Outcome)
    requires Conserved(submitted, outcome, active, queue) && id !in submitted
    ensures Conserved(submitted + [id], outcome[id := how], active, queue)
  {
    hide InQueue;
  }

  lemma QueuedAfterAppend(queue: seq<Turn>, turn: Turn)
    ensures forall id :: InQueue(queue + [turn], id) <==> InQueue(queue, id) || id == turn.id
  {
    forall id | InQueue(queue, id) || id == turn.id ensures InQueue(queue + [turn], id) {
      if id == turn.id {
        assert (queue + [turn])[|queue|].id == id;
      } else {
        var i :| 0 <= i < |queue| && queue[i].id == id;
        assert (queue + [turn])[i].id == id;
      }
    }
  }

  lemma QueuedAfterRemove(queue: seq<Turn>, k: nat)
    requires k < |queue|
    requires forall i, j :: 0 <= i < j < |queue| ==> queue[i].id != queue[j].id
    ensures forall id :: InQueue(queue[..k] + queue[k + 1..], id) <==> InQueue(queue, id) && id != queue[k].id
  {
    var rest := queue[..k] + queue[k + 1..];
    forall id | InQueue(queue, id) && id != queue[k].id ensures InQueue(rest, id) {
      var i :| 0 <= i < |queue| && queue[i].id == id;
      assert rest[if i < k then i else i - 1].id == id;
    }
  }

  /** The active turn ends, as how says, with its run's flags turned; the head of the queue follows. */
  ghost predicate Advances(w: World, w': World, runs: seq<AgentRun>, how: Outcome) {
    && w.state.active.Some? && w.state.cancel.Some? && w.state.cancel.value < |w.state.runs|
    && w'.submitted == w.submitted && w'.waited == w.waited
    && w'.outcome == w.outcome[w.state.active.value.id := how]
    && w'.state == DequeueAndActivate(ClearActive(w.state.(runs := runs)))
    && var r := w.state.cancel.value;
       ((how == Finished && runs == w.state.runs[r := w.state.runs[r].(returned := true)])
        || (how == Cancelled && runs == w.state.runs[r := w.state.runs[r].(cancelled := true)]))
  }

  lemma AdvanceKeepsInv(w: World, w': World, runs: seq<AgentRun>, how: Outcome)
    requires Inv(w) && Advances(w, w', runs, how)
    ensures Inv(w')
  {
    var s := w.state;
    IdsSameTurns(w.submitted, s.queue, s.runs, runs);
    OrderSameTurns(w.submitted, w.waited, s.queue, s.runs, runs);
    AdvanceKeepsActive(w, w', runs, how);
    AdvanceKeepsOutcomes(w, w', runs, how);
    ConservedAdvance(w.submitted, w.outcome, s.active.value, s.queue, how);
    if s.queue != [] {
      IdsAdvance(w.submitted, s.queue, runs);
      OrderAdvance(w.submitted, w.waited, s.queue, runs);
      DelayAdvance(w, w', runs);
      CountTail(s.queue, ReportBatch);
    }
  }

  lemma AdvanceKeepsActive(w: World, w': World, runs: seq<AgentRun>, how: Outcome)
    requires Inv(w) && Advances(w, w', runs, how)
    ensures ActiveOk(w'.state.active, w'.state.cancel, w'.state.runs)
  {
  }

  lemma AdvanceKeepsOutcomes(w: World, w': World, runs: seq<AgentRun>, how: Outcome)
    requires Inv(w) && Advances(w, w', runs, how)
    ensures OutcomesOk(w'.submitted, w'.outcome, w'.state.runs)
  {
    hide OrderOk, OvertakingOk, OutcomesOk, Started;
    var s, id := w.state, w.state.active.value.id;
    ActiveNotEnded(w);
    OutcomesEnd(w.submitted, w.outcome, s.runs, s.cancel.value, how);
    if s.queue != [] {
      assert InQueue(s.queue, s.queue[0].id);
      OutcomesStart(w.submitted, w.outcome[id := how], runs, s.queue[0].id);
    }
  }

  lemma ConservedAdvance(submitted: seq<string>, outcome: map<string, Outcome>, turn: Turn, queue: seq<Turn>, how: Outcome)
    requires Conserved(submitted, outcome, Some(turn), queue)
    requires forall i, j :: 0 <= i < j < |queue| ==> queue[i].id != queue[j].id
    ensures queue == [] ==> Conserved(submitted, outcome[turn.id := how], None, [])
    ensures queue != [] ==> Conserved(submitted, outcome[turn.id := how], Some(queue[0]), queue[1..])
  {
    if queue != [] {
      QueuedAfterRemove(queue, 0);
      var rest := queue[1..];
      assert queue[..0] + queue[0 + 1..] == rest;
      assert InQueue(queue, queue[0].id);
      forall id ensures InQueue(queue, id) <==> InQueue(rest, id) || id == queue[0].id {
      }
    }
  }

  lemma ConservedRemove(submitted: seq<string>, outcome: map<string, Outcome>, active: Option<Turn>, queue: seq<Turn>, k: nat)
    requires Conserved(submitted, outcome, active, queue) && k < |queue|
    requires forall i, j :: 0 <= i < j < |queue| ==> queue[i].id != queue[j].id
    ensures Conserved(submitted, outcome[queue[k].id := Cancelled], active, queue[..k] + queue[k + 1..])
  {
    QueuedAfterRemove(queue, k);
    assert InQueue(queue, queue[k].id);
  }

  lemma OutcomesRemove(submitted: seq<string>, outcome: map<string, Outcome>, runs: seq<AgentRun>, id: string)
    requires OutcomesOk(submitted, outcome, runs) && !Started(runs, id)
    ensures OutcomesOk(submitted, outcome[id := Cancelled], runs)
  {
  }

  lemma RemoveKeepsInv(w: World, id: string)
    requires Inv(w) && InQueue(w.state.queue, id)
    ensures Inv(Step(w, Cancel(id)))
  {
    var s := w.state;
    var k := IndexOf(s.queue, id);
    var w' := w.(state := s.(queue := s.queue[..k] + s.queue[k + 1..], counters := Recount(s.queue[..k] + s.queue[k + 1..])),
                 outcome := w.outcome[id := Cancelled]);
    assert !IsActive(s.active, id);
    assert Step(w, Cancel(id)) == w';
    IdsRemove(w.submitted, s.queue, s.runs, k);
    OrderRemove(w.submitted, w.waited, s.queue, s.runs, k);
    DelayRemove(w, w', k);
    ConservedRemove(w.submitted, w.outcome, s.active, s.queue, k);
    OutcomesRemove(w.submitted, w.outcome, s.runs, id);
    RemoveKeepsQueue(s, k);
  }

  lemma RemoveKeepsQueue(s: State, k: nat)
    requires QueueOk(s) && k < |s.queue|
    ensures CountKind(s.queue[..k] + s.queue[k + 1..], ReportBatch) <= 1
  {
    CountRemove(s.queue, k, |s.queue| - 1, ReportBatch);
    var rest := s.queue[..k] + s.queue[k + 1..];
    assert rest[..|s.queue| - 1] == rest;
    assert CountKind(s.queue[..|s.queue| - 1], ReportBatch) <= CountKind(s.queue, ReportBatch);
    assert s.queue[..|s.queue|] == s.queue;
  }

  /** The goroutine of an already cancelled run ends: only its own flag changes. */
  lemma StaleReturn(w: World, r: nat)
    requires Inv(w) && Enabled(w, Return(r)) && w.state.cancel != Some(r)
    ensures Step(w, Return(r)) == w.(state := w.state.(runs := w.state.runs[r := w.state.runs[r].(returned := true)]))
    ensures Inv(Step(w, Return(r)))
  {
    var runs := w.state.runs[r := w.state.runs[r].(returned := true)];
    var w' := w.(state := w.state.(runs := runs));
    IdsSameTurns(w.submitted, w.state.queue, w.state.runs, runs);
    OrderSameTurns(w.submitted, w.waited, w.state.queue, w.state.runs, runs);
    assert !IsActive(w.state.active, w.state.runs[r].turnId);
    forall id ensures Started(runs, id) <==> Started(w.state.runs, id) {
      if Started(w.state.runs, id) {
        var t :| 0 <= t < |w.state.runs| && w.state.runs[t].turnId == id;
        assert runs[t].turnId == id;
      }
    }
    forall i | 0 <= i < |w.state.queue| ensures Delay(w', i) <= 1 {
      assert Delay(w, i) <= 1;
      OvertakesSameTurns(w.state.runs, runs, w.submitted, w.state.queue[i].id);
    }
  }

  lemma StepKeepsInv(w: World, a: Action)
    requires Inv(w) && Enabled(w, a)
    ensures Inv(Step(w, a))
  {
    var s, w' := w.state, Step(w, a);
    match a
    case Submit(turn) =>
      if s.active.Some? && (s.active.value.kind == UserMessage || turn.kind == ReportBatch) {
        WaitKeepsInv(w, turn);
      } else {
        StartKeepsInv(w, turn);
      }
    case Cancel(id) =>
      if IsActive(s.active, id) {
        assert id in w.submitted;
        AdvanceKeepsInv(w, w', CancelActiveRun(s).runs, Cancelled);
      } else if InQueue(s.queue, id) {
        RemoveKeepsInv(w, id);
      }
    case Return(r) =>
      if s.cancel == Some(r) {
        AdvanceKeepsInv(w, w', s.runs[r := s.runs[r].(returned := true)], Finished);
      } else {
        StaleReturn(w, r);
      }
  }

  /** The invariant holds after every run of operations from an idle, unused session. */
  lemma {:induction false} RunKeepsInv(w: World, actions: seq<Action>)
    requires Inv(w) && Legal(w, actions)
    ensures Inv(Run(w, actions))
    decreases |actions|
  {
    if actions != [] {
      StepKeepsInv(w, actions[0]);
      RunKeepsInv(Step(w, actions[0]), actions[1..]);
    }
  }
}
