/** What every run of a session's turn queue guarantees. */
module SessionTheorems {
  import opened Basics
  import opened SessionQueue
  import opened SessionRuns
  import opened SessionInvariant

  /**
   In every reachable state the uncancelled live agent runs are exactly the
   active turn's one run, an idle session has an empty queue, at most one report
   batch waits, and the published counters are a recount of the queue.
   */
  lemma OneAgentPerSession(actions: seq<Action>)
    requires Legal(Start, actions)
    ensures var s := Run(Start, actions).state;
            && (forall r :: 0 <= r < |s.runs| && s.runs[r].Running() ==> IsActive(s.active, s.runs[r].turnId))
            && (forall r, t :: 0 <= r < |s.runs| && 0 <= t < |s.runs| && s.runs[r].Running() && s.runs[t].Running() ==> r == t)
            && (s.active.Some? ==> exists r :: 0 <= r < |s.runs| && s.runs[r].Running())
            && (s.active.None? ==> s.queue == [])
            && CountKind(s.queue, ReportBatch) <= 1
            && s.counters == Recount(s.queue)
  {
    RunKeepsInv(Start, actions);
  }

  lemma {:induction false} KindsOfQueue(queue: seq<Turn>)
    ensures CountKind(queue, UserMessage) + CountKind(queue, ReportBatch) == |queue|
    ensures CountKind(queue, ReportBatch) > 0 <==> exists i :: 0 <= i < |queue| && queue[i].kind == ReportBatch
  {
    if queue != [] {
      var front := queue[..|queue| - 1];
      KindsOfQueue(front);
      assert forall i :: 0 <= i < |front| ==> front[i] == queue[i];
    }
  }

  /** The counters tell how many turns wait, whether a batch is among them, and that the others are users'. */
  lemma CountersTell(actions: seq<Action>)
    requires Legal(Start, actions)
    ensures var s := Run(Start, actions).state;
            && s.counters.depth == |s.queue| == s.counters.userTurns + s.counters.reportBatches
            && s.counters.reportBatches == if exists i :: 0 <= i < |s.queue| && s.queue[i].kind == ReportBatch then 1 else 0
  {
    OneAgentPerSession(actions);
    KindsOfQueue(Run(Start, actions).state.queue);
    hide CountKind;
  }

  /** finishTurn by a run that was cancelled leaves the session as it is. */
  lemma StaleFinishChangesNothing(actions: seq<Action>, r: nat)
    requires Legal(Start, actions)
    requires var s := Run(Start, actions).state; r < |s.runs| && s.runs[r].cancelled && !s.runs[r].returned
    ensures var s := Run(Start, actions).state;
            && FinishTurn(s, s.runs[r].turnId) == s
            && AgentReturns(s, r) == s.(runs := s.runs[r := s.runs[r].(returned := true)])
  {
    RunKeepsInv(Start, actions);
    StaleReturn(Run(Start, actions), r);
    var s := Run(Start, actions).state;
    assert !IsActive(s.active, s.runs[r].turnId);
  }

  /**
   With a reused turn id the previous lemma fails: the first run's late finish
   ends the second run's turn while that second agent is still running.
   */
  lemma ReusedIdLosesTheActiveRun(turn: Turn)
    requires turn.id != ""
    ensures var s1 := CancelTurn(SubmitTurn(Idle, turn).0, turn.id).0;
            var s2 := SubmitTurn(s1, turn).0;
            && s2.runs == [AgentRun(turn.id, true, false), AgentRun(turn.id, false, false)]
            && AgentReturns(s2, 0).active == None
            && AgentReturns(s2, 0).runs[1].Running()
  {
    var s0 := SubmitTurn(Idle, turn).0;
    assert s0.queue == [];
  }

  /**
   Every submitted id is in exactly one place: active, queued, or ended in one
   way; nothing else is in any of them.
   */
  lemma TurnsAreConserved(actions: seq<Action>, id: string)
    requires Legal(Start, actions)
    ensures var w := Run(Start, actions);
            var places := (if IsActive(w.state.active, id) then 1 else 0)
                        + (if InQueue(w.state.queue, id) then 1 else 0)
                        + (if id in w.outcome then 1 else 0);
            places == if id in w.submitted then 1 else 0
    ensures var w := Run(Start, actions);
            id in w.outcome && w.outcome[id].Coalesced? ==> w.outcome[id].into in w.submitted && !Started(w.state.runs, id)
  {
    RunKeepsInv(Start, actions);
  }

  /** A submission is merged only into the report batch that was already waiting, whose id is returned. */
  lemma CoalescedIntoQueuedBatch(w: World, turn: Turn)
    requires Enabled(w, Submit(turn)) && Inv(w)
    ensures var (s', id) := SubmitTurn(w.state, turn);
            id != turn.id <==> w.state.active.Some? && turn.kind == ReportBatch && CountKind(w.state.queue, ReportBatch) == 1
    ensures var (s', id) := SubmitTurn(w.state, turn);
            id != turn.id ==> s' == w.state
                              && exists i :: 0 <= i < |w.state.queue| && w.state.queue[i] == Turn(id, ReportBatch)
  {
    var (s', id) := SubmitTurn(w.state, turn);
    if QueuedBatch(w.state.queue).Some? {
      BatchIsCounted(w.state.queue);
      var i :| 0 <= i < |w.state.queue| && w.state.queue[i].kind == ReportBatch && w.state.queue[i].id == QueuedBatch(w.state.queue).value;
      assert w.state.queue[i].id in w.submitted;
      assert w.state.queue[i] == Turn(w.state.queue[i].id, ReportBatch);
    }
  }

  lemma BatchIsCounted(queue: seq<Turn>)
    requires QueuedBatch(queue).Some?
    ensures CountKind(queue, ReportBatch) >= 1
  {
  }

  /** No turn is started twice, and turns that waited are started in the order they were submitted. */
  lemma StartedOnceAndInOrder(actions: seq<Action>, r: nat, t: nat)
    requires Legal(Start, actions)
    requires r < t < |Run(Start, actions).state.runs|
    ensures var w := Run(Start, actions);
            w.state.runs[r].turnId != w.state.runs[t].turnId
    ensures var w := Run(Start, actions);
            w.state.runs[r].turnId in w.waited && w.state.runs[t].turnId in w.waited ==>
              Before(w.submitted, w.state.runs[r].turnId, w.state.runs[t].turnId)
  {
    RunKeepsInv(Start, actions);
  }

  /** Once a waiting turn has been started, nothing that was queued before it is still queued. */
  lemma NothingQueuedBeforeAStartedTurn(actions: seq<Action>, r: nat, i: nat)
    requires Legal(Start, actions)
    requires var w := Run(Start, actions);
             r < |w.state.runs| && w.state.runs[r].turnId in w.waited && i < |w.state.queue|
    ensures var w := Run(Start, actions); Before(w.submitted, w.state.runs[r].turnId, w.state.queue[i].id)
  {
    RunKeepsInv(Start, actions);
  }

  /**
   A waiting turn is overtaken by at most one later submission, however long it
   waits; one overtake is left for each batch active or ahead of it.
   */
  lemma AtMostOneOvertake(actions: seq<Action>, i: nat)
    requires Legal(Start, actions) && i < |Run(Start, actions).state.queue|
    ensures var w := Run(Start, actions);
            && Delay(w, i) <= 1
            && Overtakes(w.state.runs, w.submitted, w.state.queue[i].id) <= 1
  {
    RunKeepsInv(Start, actions);
    assert Delay(Run(Start, actions), i) <= 1;
  }

  /** A submission overtakes a waiting turn exactly when it is a user turn and a batch is active. */
  lemma OvertakesExactlyWhenPreempting(w: World, turn: Turn, i: nat)
    requires Inv(w) && Enabled(w, Submit(turn)) && i < |w.state.queue|
    ensures var w' := Step(w, Submit(turn));
            var id := w.state.queue[i].id;
            && i < |w'.state.queue| && w'.state.queue[i] == w.state.queue[i]
            && Overtakes(w'.state.runs, w'.submitted, id) ==
                 Overtakes(w.state.runs, w.submitted, id)
                 + if ActiveBatches(w.state.active) == 1 && turn.kind == UserMessage then 1 else 0
  {
    hide Inv, Step, SubmitTurn, Overtakes, CancelActiveRun, ActiveBatches, Enabled;
    var s, id := w.state, w.state.queue[i].id;
    SubmitChanges(w, turn);
    OvertakesSameTurns(s.runs, CancelActiveRun(s).runs, w.submitted, id);
    OvertakesBehind(s.runs, w.submitted, turn.id, id);
    OvertakesBehind(CancelActiveRun(s).runs, w.submitted, turn.id, id);
  }

  /** A run started for a new submission is one more overtake; the submission by itself is none. */
  lemma OvertakesBehind(runs: seq<AgentRun>, submitted: seq<string>, next: string, id: string)
    requires id in submitted && next !in submitted && forall r :: 0 <= r < |runs| ==> runs[r].turnId in submitted
    ensures Overtakes(runs, submitted + [next], id) == Overtakes(runs, submitted, id)
    ensures Overtakes(runs + [AgentRun(next, false, false)], submitted + [next], id) == Overtakes(runs, submitted, id) + 1
  {
    hide Before;
    OvertakesNewSubmission(runs, submitted, next, id);
    BeforeNewSubmission(submitted, next, id, id);
    assert (runs + [AgentRun(next, false, false)])[..|runs|] == runs;
  }

  /** A submission is queued behind the others or merged, or starts a run; it cancels the active one exactly if that is a batch's. */
  lemma SubmitChanges(w: World, turn: Turn)
    requires Inv(w) && Enabled(w, Submit(turn))
    ensures var s, w' := w.state, Step(w, Submit(turn));
            && w'.submitted == w.submitted + [turn.id]
            && (w'.state.queue == s.queue || w'.state.queue == s.queue + [turn])
            && (s.active.None? ==> s.queue == [])
            && turn.id !in w.submitted && (forall i :: 0 <= i < |s.queue| ==> s.queue[i].id in w.submitted)
            && (forall r :: 0 <= r < |s.runs| ==> s.runs[r].turnId in w.submitted)
            && SameTurns(s.runs, CancelActiveRun(s).runs)
            && (s.active.Some? ==>
                  w'.state.runs == if ActiveBatches(s.active) == 1 && turn.kind == UserMessage
                                   then CancelActiveRun(s).runs + [AgentRun(turn.id, false, false)] else s.runs)
  {
    hide CountKind, QueuedBatch, Conserved, OutcomesOk, OrderOk, OvertakingOk;
  }


  /** Ending the active turn, by its agent or by a cancel, moves every waiting turn one place forward. */
  lemma EndingMovesTheQueue(w: World, a: Action)
    requires Inv(w) && Enabled(w, a) && w.state.active.Some?
    requires a == Return(w.state.cancel.value) || a == Cancel(w.state.active.value.id)
    ensures var s, s' := w.state, Step(w, a).state;
            && (s.queue == [] ==> s'.active == None && s'.queue == [])
            && (s.queue != [] ==> s'.active == Some(s.queue[0]) && s'.queue == s.queue[1..])
            && w.state.active.value.id in Step(w, a).outcome
  {
  }

  /**
   In every reachable state: cancelling a turn that is active or waits ends it as cancelled, wherever it
   was, and ends no other; cancelling any other id changes nothing.
   */
  lemma CancelEndsExactlyThatTurn(actions: seq<Action>, id: string)
    requires Legal(Start, actions)
    ensures var w := Run(Start, actions);
            var w' := Step(w, Cancel(id));
            if IsActive(w.state.active, id) || InQueue(w.state.queue, id) then
              && w'.outcome == w.outcome[id := Cancelled]
              && !IsActive(w'.state.active, id) && !InQueue(w'.state.queue, id)
              && forall other :: other != id ==>
                   (IsActive(w.state.active, other) || InQueue(w.state.queue, other)
                    <==> IsActive(w'.state.active, other) || InQueue(w'.state.queue, other))
            else w' == w
  {
    RunKeepsInv(Start, actions);
    hide Run, Legal;
    var w := Run(Start, actions);
    StepKeepsInv(w, Cancel(id));
    CancelSays(w, id);
    OneOfThree(w, id);
    OneOfThree(Step(w, Cancel(id)), id);
    forall other | other != id
      ensures IsActive(w.state.active, other) || InQueue(w.state.queue, other)
              <==> IsActive(Step(w, Cancel(id)).state.active, other) || InQueue(Step(w, Cancel(id)).state.queue, other)
    {
      OneOfThree(w, other);
      OneOfThree(Step(w, Cancel(id)), other);
    }
  }

  lemma CancelSays(w: World, id: string)
    requires Inv(w)
    ensures var w' := Step(w, Cancel(id));
            && w'.submitted == w.submitted
            && if IsActive(w.state.active, id) || InQueue(w.state.queue, id) then w'.outcome == w.outcome[id := Cancelled] else w' == w
  {
    hide Inv, InQueue;
  }

  lemma OneOfThree(w: World, id: string)
    requires Inv(w)
    ensures IsActive(w.state.active, id) || InQueue(w.state.queue, id) <==> id in w.submitted && id !in w.outcome
  {
    hide IdsOk, ActiveOk, QueueOk, OutcomesOk, OrderOk, OvertakingOk, InQueue;
  }

  /** Every other operation keeps the waiting turns' places, but for a waiting turn that is cancelled. */
  lemma OthersKeepPlaces(w: World, a: Action)
    requires Inv(w) && Enabled(w, a)
    requires w.state.active.Some? ==> a != Return(w.state.cancel.value) && a != Cancel(w.state.active.value.id)
    ensures var s, s' := w.state, Step(w, a).state;
            || s.queue <= s'.queue
            || (a.Cancel? && exists k :: 0 <= k < |s.queue| && s.queue[k].id == a.id && s'.queue == s.queue[..k] + s.queue[k + 1..])
  {
    if a.Return? {
      StaleReturn(w, a.run);
    }
  }

  ghost predicate EndsActive(w: World, a: Action) {
    w.state.active.Some? && (a == Return(w.state.cancel.GetOr(0)) || a == Cancel(w.state.active.value.id))
  }

  /** How many of the operations end the turn that is active when they happen. */
  ghost function Endings(w: World, actions: seq<Action>): nat
    requires Legal(w, actions)
    decreases |actions|
  {
    if actions == [] then 0
    else (if EndsActive(w, actions[0]) then 1 else 0) + Endings(Step(w, actions[0]), actions[1..])
  }

  /** Whatever else happens, k + 1 endings get the turn at place k out of the queue. */
  lemma {:induction false} StartsAfterEnoughEndings(w: World, actions: seq<Action>, id: string)
    requires Inv(w) && Legal(w, actions) && InQueue(w.state.queue, id)
    requires Endings(w, actions) > IndexOf(w.state.queue, id)
    ensures !InQueue(Run(w, actions).state.queue, id)
    decreases |actions|
  {
    var w', rest, k := Step(w, actions[0]), actions[1..], IndexOf(w.state.queue, id);
    StepKeepsInv(w, actions[0]);
    OneStepForward(w, actions[0], id);
    if InQueue(w'.state.queue, id) {
      StartsAfterEnoughEndings(w', rest, id);
    } else {
      GoneForGood(w', rest, id);
    }
  }

  /** An ending moves a waiting turn forward, and no other step moves it back. */
  lemma OneStepForward(w: World, a: Action, id: string)
    requires Inv(w) && Enabled(w, a) && InQueue(w.state.queue, id)
    ensures var q, q' := w.state.queue, Step(w, a).state.queue;
            InQueue(q', id) ==> IndexOf(q', id) <= IndexOf(q, id) - if EndsActive(w, a) then 1 else 0
  {
    var q, q' := w.state.queue, Step(w, a).state.queue;
    if EndsActive(w, a) {
      EndingMovesTheQueue(w, a);
      PlaceInTail(q, id);
    } else {
      OthersKeepPlaces(w, a);
      if q <= q' {
        PlaceIsUnique(q', id, IndexOf(q, id));
      } else {
        var c :| 0 <= c < |q| && q[c].id == a.id && q' == q[..c] + q[c + 1..];
        PlaceAfterRemove(q, c, id);
      }
    }
  }

  lemma PlaceIsUnique(queue: seq<Turn>, id: string, k: nat)
    requires k < |queue| && queue[k].id == id
    ensures IndexOf(queue, id) <= k
  {
  }

  lemma PlaceInTail(queue: seq<Turn>, id: string)
    requires InQueue(queue, id)
    requires forall i, j :: 0 <= i < j < |queue| ==> queue[i].id != queue[j].id
    ensures InQueue(queue[1..], id) ==> IndexOf(queue[1..], id) < IndexOf(queue, id)
  {
    var k := IndexOf(queue, id);
    if InQueue(queue[1..], id) {
      var i := IndexOf(queue[1..], id);
      assert queue[i + 1].id == id;
      assert i + 1 == k;
    }
  }

  lemma PlaceAfterRemove(queue: seq<Turn>, c: nat, id: string)
    requires InQueue(queue, id) && c < |queue|
    requires forall i, j :: 0 <= i < j < |queue| ==> queue[i].id != queue[j].id
    ensures var rest := queue[..c] + queue[c + 1..];
            InQueue(rest, id) ==> IndexOf(rest, id) <= IndexOf(queue, id)
  {
    var rest, k := queue[..c] + queue[c + 1..], IndexOf(queue, id);
    if c != k {
      PlaceIsUnique(rest, id, if c < k then k - 1 else k);
    } else {
      forall i | 0 <= i < |rest| ensures rest[i].id != id {
        assert rest[i] == queue[if i < c then i else i + 1];
      }
    }
  }

  /** An id that has left the queue never comes back. */
  lemma {:induction false} GoneForGood(w: World, actions: seq<Action>, id: string)
    requires Inv(w) && Legal(w, actions) && id in w.submitted && !InQueue(w.state.queue, id)
    ensures !InQueue(Run(w, actions).state.queue, id)
    decreases |actions|
  {
    if actions != [] {
      StepKeepsInv(w, actions[0]);
      StaysOut(w, actions[0], id);
      GoneForGood(Step(w, actions[0]), actions[1..], id);
    }
  }

  lemma StaysOut(w: World, a: Action, id: string)
    requires Inv(w) && Enabled(w, a) && id in w.submitted && !InQueue(w.state.queue, id)
    ensures !InQueue(Step(w, a).state.queue, id)
  {
    OnlySubmissionsJoin(w.state, a);
    var q, q' := w.state.queue, NextState(w.state, a).queue;
    forall i | 0 <= i < |q'| ensures q'[i].id != id {
      assert q'[i] in q ==> exists j :: 0 <= j < |q| && q[j] == q'[i];
    }
  }

  lemma OnlySubmissionsJoin(s: State, a: Action)
    ensures forall t :: t in NextState(s, a).queue ==> t in s.queue || a == Submit(t)
  {
  }
}
