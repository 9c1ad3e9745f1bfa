/** Reused turn ids: exactly what is harmless (internal/v2/session/manager.go). */
module SessionIds {
  import opened Basics
  import opened SessionQueue
  import opened SessionRuns

  /** Only the run's own flag changes. */
  function OnlyFlagged(s: State, r: nat): State
    requires r < |s.runs|
  {
    s.(runs := s.runs[r := s.runs[r].(returned := true)])
  }

  /** In any state at all, the end of a goroutine leaves the session as it is exactly if the active turn does not carry its id. */
  lemma ReturnIsHarmlessExactlyWhen(s: State, r: nat)
    requires r < |s.runs|
    ensures AgentReturns(s, r) == OnlyFlagged(s, r) <==> !IsActive(s.active, s.runs[r].turnId)
  {
    var t := ClearActive(OnlyFlagged(s, r));
    assert s.queue != [] ==> |DequeueAndActivate(t).runs| == |s.runs| + 1;
    assert s.queue == [] ==> DequeueAndActivate(t).active == None;
  }

  // -------- runs in which ids may repeat --------

  /** A goroutine that has not returned yet carries the id. */
  ghost predicate Carried(s: State, id: string) {
    exists r :: 0 <= r < |s.runs| && !s.runs[r].returned && s.runs[r].turnId == id
  }

  /** The active turn, a waiting turn or a live goroutine has the id. */
  ghost predicate Busy(s: State, id: string) {
    IsActive(s.active, id) || InQueue(s.queue, id) || Carried(s, id)
  }

  /** Ids are not blank, and a goroutine returns once. */
  predicate Possible(s: State, a: Action) {
    match a
    case Submit(turn) => turn.id != ""
    case Cancel(_) => true
    case Return(r) => r < |s.runs| && !s.runs[r].returned
  }

  function After(s: State, actions: seq<Action>): State
    decreases |actions|
  {
    if actions == [] then s else After(NextState(s, actions[0]), actions[1..])
  }

  /** Runs in which an id may be used again, but only once nothing carries it any more. */
  ghost predicate Careful(s: State, actions: seq<Action>)
    decreases |actions|
  {
    actions == []
    || (&& Possible(s, actions[0]) && (actions[0].Submit? ==> !Busy(s, actions[0].turn.id))
        && Careful(NextState(s, actions[0]), actions[1..]))
  }

  /** The end of any goroutine but the active turn's would change nothing but its own flag. */
  ghost predicate Harmless(s: State) {
    forall r :: 0 <= r < |s.runs| && !s.runs[r].returned && s.cancel != Some(r) ==> AgentReturns(s, r) == OnlyFlagged(s, r)
  }

  /** The stored cancel function is that of the active turn's live run. */
  ghost predicate ActiveRunOk(s: State) {
    && (s.active.Some? <==> s.cancel.Some?)
    && (s.active.Some? ==>
          && s.cancel.value < |s.runs| && s.runs[s.cancel.value].turnId == s.active.value.id
          && !s.runs[s.cancel.value].returned)
  }

  /** Nothing that waits or is active shares its id with another waiting turn or with a stale live run. */
  ghost predicate IdsApart(s: State) {
    && (forall i, j :: 0 <= i < j < |s.queue| ==> s.queue[i].id != s.queue[j].id)
    && (forall i :: 0 <= i < |s.queue| ==> !IsActive(s.active, s.queue[i].id))
    && (forall r :: 0 <= r < |s.runs| && !s.runs[r].returned && s.cancel != Some(r) ==> !IsActive(s.active, s.runs[r].turnId))
    && (forall r, i :: 0 <= r < |s.runs| && !s.runs[r].returned && 0 <= i < |s.queue| ==> s.runs[r].turnId != s.queue[i].id)
  }

  ghost predicate CarefulOk(s: State) {
    ActiveRunOk(s) && IdsApart(s) && (s.active.None? ==> s.queue == []) && s.counters == Recount(s.queue)
  }

  lemma SubmitKeeps(s: State, turn: Turn)
    requires CarefulOk(s) && !Busy(s, turn.id)
    ensures CarefulOk(SubmitTurn(s, turn).0)
  {
    hide Recount, QueuedBatch;
    assert forall r :: 0 <= r < |s.runs| && !s.runs[r].returned ==> s.runs[r].turnId != turn.id;
    assert forall i :: 0 <= i < |s.queue| ==> s.queue[i].id != turn.id;
  }

  lemma CancelKeeps(s: State, id: string)
    requires CarefulOk(s)
    ensures CarefulOk(CancelTurn(s, id).0)
  {
    hide Recount;
  }

  lemma ReturnKeeps(s: State, r: nat)
    requires CarefulOk(s) && r < |s.runs| && !s.runs[r].returned
    ensures CarefulOk(AgentReturns(s, r))
  {
    hide Recount;
  }

  lemma StepKeeps(s: State, a: Action)
    requires CarefulOk(s) && Possible(s, a) && (a.Submit? ==> !Busy(s, a.turn.id))
    ensures CarefulOk(NextState(s, a))
  {
    hide CarefulOk, Busy, SubmitTurn, CancelTurn, AgentReturns;
    match a
    case Submit(turn) => SubmitKeeps(s, turn);
    case Cancel(id) => CancelKeeps(s, id);
    case Return(r) => ReturnKeeps(s, r);
  }

  lemma {:induction false} RunKeeps(s: State, actions: seq<Action>)
    requires CarefulOk(s) && Careful(s, actions)
    ensures CarefulOk(After(s, actions))
    decreases |actions|
  {
    hide CarefulOk, Busy, NextState, Possible;
    if actions != [] {
      StepKeeps(s, actions[0]);
      RunKeeps(NextState(s, actions[0]), actions[1..]);
    }
  }

  lemma KeptIsHarmless(s: State)
    requires CarefulOk(s)
    ensures Harmless(s)
  {
    hide AgentReturns, OnlyFlagged, Recount;
    forall r | 0 <= r < |s.runs| && !s.runs[r].returned && s.cancel != Some(r)
      ensures AgentReturns(s, r) == OnlyFlagged(s, r)
    {
      ReturnIsHarmlessExactlyWhen(s, r);
    }
  }

  // -------- what goes wrong otherwise --------

  /** A live goroutine that is not the active turn's, but has its id. */
  ghost predicate Clash(s: State, r: nat) {
    r < |s.runs| && !s.runs[r].returned && s.cancel != Some(r) && IsActive(s.active, s.runs[r].turnId)
  }

  lemma ClashIsHarmful(s: State, r: nat)
    requires Clash(s, r)
    ensures !Harmless(s)
  {
    hide AgentReturns, OnlyFlagged;
    ReturnIsHarmlessExactlyWhen(s, r);
  }

  /** Cancelling the active turn makes the first waiting turn the active one; no live goroutine returns. */
  lemma CancelActiveStep(s: State)
    requires ActiveRunOk(s) && s.active.Some? && s.queue != []
    ensures var t := NextState(s, Cancel(s.active.value.id));
            && ActiveRunOk(t) && t.active == Some(s.queue[0]) && t.queue == s.queue[1..]
            && t.cancel == Some(|s.runs|) && |t.runs| == |s.runs| + 1
            && forall r :: 0 <= r < |s.runs| ==> t.runs[r].turnId == s.runs[r].turnId && t.runs[r].returned == s.runs[r].returned
  {
    hide Recount;
  }

  lemma AfterOne(s: State, a: Action, more: seq<Action>)
    requires a.Cancel? && Careful(NextState(s, a), more)
    ensures Careful(s, [a] + more) && After(s, [a] + more) == After(NextState(s, a), more)
  {
    hide NextState, Busy;
    assert ([a] + more)[1..] == more;
  }

  /** Cancelling each active turn in its turn brings up the waiting turn at place i, while no goroutine returns. */
  lemma {:induction false} BringUp(s: State, i: nat) returns (more: seq<Action>)
    requires ActiveRunOk(s) && s.active.Some? && i < |s.queue|
    ensures Careful(s, more)
    ensures var t := After(s, more);
            && ActiveRunOk(t) && t.active == Some(s.queue[i]) && t.queue == s.queue[i + 1..]
            && |s.runs| <= t.cancel.GetOr(0) && |s.runs| <= |t.runs|
            && forall r :: 0 <= r < |s.runs| ==> t.runs[r].turnId == s.runs[r].turnId && t.runs[r].returned == s.runs[r].returned
    decreases i
  {
    hide ActiveRunOk, NextState, Busy;
    CancelActiveStep(s);
    var a := Cancel(s.active.value.id);
    var t := NextState(s, a);
    if i == 0 {
      more := [a];
      AfterOne(s, a, []);
      assert [a] + [] == [a] && After(t, []) == t;
    } else {
      var rest := BringUp(t, i - 1);
      AfterOne(s, a, rest);
      more := [a] + rest;
      assert s.queue[1..][i - 1] == s.queue[i] && s.queue[1..][i..] == s.queue[i + 1..];
    }
  }

  lemma {:induction false} AfterConcat(s: State, a: seq<Action>, b: seq<Action>)
    requires Careful(s, a) && Careful(After(s, a), b)
    ensures Careful(s, a + b) && After(s, a + b) == After(After(s, a), b)
    decreases |a|
  {
    hide NextState, Busy, Possible;
    if a == [] {
      assert a + b == b;
    } else {
      assert (a + b)[0] == a[0] && (a + b)[1..] == a[1..] + b;
      AfterConcat(NextState(s, a[0]), a[1..], b);
    }
  }

  /** A live goroutine has the id of a waiting turn: once that turn is brought up, the two clash. */
  lemma WaitingClashes(s: State, r: nat, i: nat) returns (more: seq<Action>)
    requires ActiveRunOk(s) && s.active.Some? && i < |s.queue|
    requires r < |s.runs| && !s.runs[r].returned && s.runs[r].turnId == s.queue[i].id
    ensures Careful(s, more) && !Harmless(After(s, more))
  {
    hide Careful, After, Harmless;
    more := BringUp(s, i);
    ClashIsHarmful(After(s, more), r);
  }

  /** Two waiting turns have the same id: the goroutine of the first clashes with the second. */
  lemma TwinsClash(s: State, i: nat, j: nat) returns (more: seq<Action>)
    requires ActiveRunOk(s) && s.active.Some? && i < j < |s.queue| && s.queue[i].id == s.queue[j].id
    ensures Careful(s, more) && !Harmless(After(s, more))
  {
    hide Careful, After, Harmless;
    var first := BringUp(s, i);
    var t := After(s, first);
    assert t.queue[j - i - 1] == s.queue[j];
    var second := WaitingClashes(t, t.cancel.value, j - i - 1);
    AfterConcat(s, first, second);
    more := first + second;
  }

  lemma CarrierOf(s: State, id: string) returns (r: nat)
    requires ActiveRunOk(s) && (IsActive(s.active, id) || Carried(s, id))
    ensures r < |s.runs| && !s.runs[r].returned && s.runs[r].turnId == id
  {
    if IsActive(s.active, id) {
      r := s.cancel.value;
    } else {
      r :| 0 <= r < |s.runs| && !s.runs[r].returned && s.runs[r].turnId == id;
    }
  }

  /** A turn that becomes active at once: cancelling what it replaces lets no goroutine return. */
  lemma Started0(s: State, turn: Turn)
    requires ActiveRunOk(s)
    requires s.active.Some? ==> s.active.value.kind == ReportBatch && turn.kind == UserMessage
    ensures var t := SubmitTurn(s, turn).0;
            && ActiveRunOk(t) && t.active == Some(turn) && t.cancel == Some(|s.runs|) && t.queue == s.queue && |t.runs| == |s.runs| + 1
            && (forall r :: 0 <= r < |s.runs| ==> t.runs[r].turnId == s.runs[r].turnId && t.runs[r].returned == s.runs[r].returned)
  {
    hide Recount;
  }

  lemma BusyStartClashes(s: State, turn: Turn) returns (more: seq<Action>)
    requires CarefulOk(s) && Busy(s, turn.id)
    requires s.active.Some? ==> s.active.value.kind == ReportBatch && turn.kind == UserMessage
    ensures Careful(SubmitTurn(s, turn).0, more) && !Harmless(After(SubmitTurn(s, turn).0, more))
  {
    hide SubmitTurn, Harmless, Recount;
    Started0(s, turn);
    var t := SubmitTurn(s, turn).0;
    if IsActive(s.active, turn.id) || Carried(s, turn.id) {
      var r := CarrierOf(s, turn.id);
      ClashIsHarmful(t, r);
      more := [];
    } else {
      var k :| 0 <= k < |s.queue| && s.queue[k].id == turn.id;
      more := WaitingClashes(t, |s.runs|, k);
    }
  }

  lemma BusyWaitClashes(s: State, turn: Turn) returns (more: seq<Action>)
    requires CarefulOk(s) && Busy(s, turn.id) && s.active.Some? && SubmitTurn(s, turn).0 != s
    requires s.active.value.kind == UserMessage || turn.kind == ReportBatch
    ensures Careful(SubmitTurn(s, turn).0, more) && !Harmless(After(SubmitTurn(s, turn).0, more))
  {
    hide Harmless, Recount, Careful, After, QueuedBatch;
    var t, n := SubmitTurn(s, turn).0, |s.queue|;
    assert t.queue == s.queue + [turn] && t.queue[n] == turn && t.runs == s.runs && ActiveRunOk(t);
    if IsActive(s.active, turn.id) || Carried(s, turn.id) {
      var r := CarrierOf(s, turn.id);
      more := WaitingClashes(t, r, n);
    } else {
      var k :| 0 <= k < n && s.queue[k].id == turn.id;
      assert t.queue[k] == s.queue[k];
      more := TwinsClash(t, k, n);
    }
  }

  ghost predicate HarmlessForGood(s: State) {
    forall more :: Careful(s, more) ==> Harmless(After(s, more))
  }

  /**
   As long as an id is used again only once nothing carries it, the late end of a run never
   disturbs another turn. And this is exact: whenever a submission changes the session, its id
   being busy is precisely what lets some such continuation end in a state where it does.
   */
  lemma ReuseIsHarmlessExactlyWhenNotBusy(actions: seq<Action>, turn: Turn)
    requires Careful(Idle, actions) && SubmitTurn(After(Idle, actions), turn).0 != After(Idle, actions)
    ensures var s := After(Idle, actions);
            Harmless(s) && (HarmlessForGood(SubmitTurn(s, turn).0) <==> !Busy(s, turn.id))
  {
    hide SubmitTurn, Busy, Harmless, ActiveRunOk, IdsApart, Recount;
    IdleIsOk();
    RunKeeps(Idle, actions);
    var s := After(Idle, actions);
    KeptIsHarmless(s);
    var t := SubmitTurn(s, turn).0;
    if Busy(s, turn.id) {
      var more;
      if s.active.Some? && (s.active.value.kind == UserMessage || turn.kind == ReportBatch) {
        more := BusyWaitClashes(s, turn);
      } else {
        more := BusyStartClashes(s, turn);
      }
    } else {
      SubmitKeeps(s, turn);
      forall more | Careful(t, more) ensures Harmless(After(t, more)) {
        RunKeeps(t, more);
        KeptIsHarmless(After(t, more));
      }
    }
  }

  lemma IdleIsOk()
    ensures CarefulOk(Idle)
  {
  }
}
