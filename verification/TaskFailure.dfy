/** What becomes of a task that Fail has ended (internal/v2/tasks/manager.go). */
module TaskFailure {
  import opened Basics
  import opened Text
  import opened TaskManager
  import opened TaskTheorems
  import opened TaskReports

  function ExitState(exit: Exit): string {
    if exit.cancelled then "cancelled" else if exit.error.Some? then "failed" else "completed"
  }

  /** How a task ends once the run that Fail found is finished: cancelled, unless its runner had already returned. */
  function EndState(run: Run): string {
    if run.exit.None? then "cancelled" else ExitState(run.exit.value)
  }

  /** The one live run of a task. */
  ghost function RunOf(runs: seq<Run>, id: string): (i: nat)
    requires HasLiveRun(runs, id)
    ensures i < |runs| && runs[i].live && runs[i].taskId == id
  {
    var i :| 0 <= i < |runs| && runs[i].live && runs[i].taskId == id;
    i
  }

  /** Nothing is left that could change the task. */
  ghost predicate Settled(w: World, id: string) {
    Terminal(w, id) && !HasLiveRun(w.runs, id)
  }

  /** The task is failed, and its live run i will end it as s. */
  ghost predicate Doomed(w: World, i: nat, id: string, s: string) {
    && i < |w.runs| && w.runs[i].taskId == id && w.runs[i].live
    && id in w.tasks && w.tasks[id].state == "failed"
    && EndState(w.runs[i]) == s && (w.runs[i].exit.None? ==> w.runs[i].cancelled)
  }

  /** The live run has returned, and neither the task nor its row asks for a report. */
  ghost predicate Silent(w: World, i: nat, id: string) {
    && i < |w.runs| && w.runs[i].exit.Some?
    && id in w.tasks && !w.tasks[id].reported && id in w.rows && !w.rows[id].reported
  }

  // -------- one step --------

  lemma NoLive(w: World, i: nat, id: string)
    requires !HasLiveRun(w.runs, id) && i < |w.runs| && w.runs[i].live
    ensures w.runs[i].taskId != id
  {
  }

  ghost predicate SameTask(w: World, w': World, id: string) {
    && id in w.tasks && id in w'.tasks && w'.tasks[id] == w.tasks[id]
    && CountReports(w'.reports, id) == CountReports(w.reports, id)
    && CountDeliveries(w'.deliveries, id) == CountDeliveries(w.deliveries, id)
  }

  /** An ended task is changed by nothing but the return of its own live run. */
  lemma EndedIsKept(w: World, a: Action, id: string)
    requires Terminal(w, id) && id in w.rows
    requires !(a.Finishes? && a.run < |w.runs| && w.runs[a.run].live && w.runs[a.run].taskId == id)
    ensures SameTask(w, Step(w, a), id)
  {
    match a
    case Fails(other, text, readOk, writeOk, report) => FailKeepsEnded(w, id, other, text, readOk, writeOk, report);
    case Cancels(other, readOk, writeOk, report) => CancelKeepsEnded(w, id, other, readOk, writeOk, report);
    case Finishes(i, readOk, writeOk, delivery) => FinishKeepsEnded(w, id, i, readOk, writeOk, delivery);
    case _ =>
      hide CountReports, CountDeliveries, IsBlank, Cancelled, Outcome;
  }

  lemma FailKeepsEnded(w: World, id: string, other: string, text: string, readOk: bool, writeOk: bool, report: Attempt)
    requires Terminal(w, id) && id in w.rows
    ensures SameTask(w, Fail(w, other, text, readOk, writeOk, report), id)
  {
    hide CountReports, CountDeliveries, StoredFor, HasLiveRun, IsBlank, TrimSpace, Cancelled, Reported;
    var said := TrimSpace(text);
    var found := Loaded(w, other, readOk);
    if found.Some? {
      var task := if other in w.tasks then found.value else Normalized(found.value);
      ToldCounts(w, other, task.(state := "failed", finalText := if said == "" then "Task failed." else said), [report], id);
    }
  }

  lemma CancelKeepsEnded(w: World, id: string, other: string, readOk: bool, writeOk: bool, report: Attempt)
    requires Terminal(w, id) && id in w.rows
    ensures SameTask(w, Cancel(w, other, readOk, writeOk, report), id)
  {
    hide CountReports, CountDeliveries, StoredFor, Cancelled, Reported;
    var found := Loaded(w, other, readOk);
    if found.Some? {
      ToldCounts(w, other, found.value.(state := "cancelled", finalText := "Task cancelled."), [report], id);
    }
  }

  lemma FinishKeepsEnded(w: World, id: string, i: nat, readOk: bool, writeOk: bool, delivery: nat -> Attempt)
    requires Terminal(w, id) && !(i < |w.runs| && w.runs[i].live && w.runs[i].taskId == id)
    ensures SameTask(w, FinishRun(w, i, readOk, writeOk, delivery), id)
  {
    hide CountReports, CountDeliveries, StoredFor, Outcome, Reported, Made;
    if i < |w.runs| && w.runs[i].live && w.runs[i].exit.Some? && w.runs[i].taskId in w.tasks {
      var other := w.runs[i].taskId;
      var before := if readOk && other in w.rows then w.rows[other] else w.tasks[other];
      ToldCounts(w, other, Outcome(before, w.runs[i].exit.value.cancelled, w.runs[i].exit.value.error), Made(delivery, 0), id);
    }
  }

  /** Runs are only added and flagged: a run stays what it is until it returns or is finished. */
  lemma RunsStay(w: World, a: Action, i: nat)
    requires i < |w.runs|
    ensures var r, later := w.runs[i], Step(w, a).runs;
            && |w.runs| <= |later| && later[i].taskId == r.taskId
            && (r.cancelled ==> later[i].cancelled)
            && (r.exit.Some? ==> later[i].exit == r.exit)
            && (r.exit.None? && later[i].exit.Some? ==> later[i].exit.value.cancelled == r.cancelled)
            && (later[i].live ==> r.live)
            && (!(a.Finishes? && a.run == i) ==> later[i].live == r.live)
  {
    match a
    case Fails(id, text, readOk, writeOk, report) =>
      FailCancelsOnly(w, id, text, readOk, writeOk, report);
      hide Fail;
    case _ =>
      hide Fail, IsBlank, Outcome, Normalized, IsTerminal, Made, Reported, Tried;
  }

  lemma FailCancelsOnly(w: World, id: string, text: string, readOk: bool, writeOk: bool, report: Attempt)
    ensures var later := Fail(w, id, text, readOk, writeOk, report).runs;
            && |later| == |w.runs|
            && forall i :: 0 <= i < |w.runs| ==> later[i] == w.runs[i] || later[i] == w.runs[i].(cancelled := true)
  {
    hide IsBlank, TrimSpace, Normalized, HasLiveRun, IsTerminal, Reported, Tried;
  }

  lemma NewRunsArePending(w: World, a: Action, id: string)
    requires Terminal(w, id)
    ensures forall k :: |w.runs| <= k < |Step(w, a).runs| ==> Step(w, a).runs[k].taskId != id
  {
    hide IsBlank, TrimSpace, Outcome, HasLiveRun;
  }

  lemma SettledStays(w: World, a: Action, id: string)
    requires Inv(w) && Settled(w, id)
    ensures Settled(Step(w, a), id) && SameTask(w, Step(w, a), id)
  {
    hide Step, HasLiveRun, IsTerminal;
    InvAt(w, id);
    KnownRow(w, id);
    if a.Finishes? && a.run < |w.runs| && w.runs[a.run].live {
      NoLive(w, a.run, id);
    }
    EndedIsKept(w, a, id);
    NewRunsArePending(w, a, id);
    StillNoLive(w, a, id);
  }

  lemma KnownRow(w: World, id: string)
    requires TaskOk(w, id) && id in w.tasks
    ensures id in w.rows
  {
  }

  lemma StillNoLive(w: World, a: Action, id: string)
    requires !HasLiveRun(w.runs, id)
    requires forall k :: |w.runs| <= k < |Step(w, a).runs| ==> Step(w, a).runs[k].taskId != id
    ensures !HasLiveRun(Step(w, a).runs, id)
  {
    hide Step;
    var later := Step(w, a).runs;
    forall k | 0 <= k < |later| ensures !(later[k].live && later[k].taskId == id) {
      if k < |w.runs| {
        RunsStay(w, a, k);
      }
    }
  }

  lemma OnlyRunOf(w: World, i: nat)
    requires Inv(w) && i < |w.runs|
    ensures forall k :: 0 <= k < |w.runs| && w.runs[k].taskId == w.runs[i].taskId ==> k == i
  {
    InvAt(w, w.runs[i].taskId);
    RunOnce(w, w.runs[i].taskId);
    OnlyRun(w.runs, i);
  }

  lemma RunOnce(w: World, id: string)
    requires TaskOk(w, id)
    ensures CountRuns(w.runs, id) <= 1
  {
  }

  lemma TerminalIfFailed(w: World, id: string)
    requires id in w.tasks && w.tasks[id].state == "failed"
    ensures Terminal(w, id)
  {
  }

  /** A doomed task stays doomed, or its run is finished and it ends as announced. */
  lemma DoomedStays(w: World, a: Action, i: nat, id: string, s: string)
    requires Inv(w) && Doomed(w, i, id, s)
    ensures var w' := Step(w, a);
            || (Doomed(w', i, id, s) && SameTask(w, w', id))
            || (Settled(w', id) && w'.tasks[id].state == s
                && CountDeliveries(w'.deliveries, id) == CountDeliveries(w.deliveries, id) + 1)
    ensures var w' := Step(w, a);
            Silent(w, i, id) ==> CountReports(w'.reports, id) == CountReports(w.reports, id) && (Doomed(w', i, id, s) ==> Silent(w', i, id))
  {
    InvAt(w, id);
    KnownRow(w, id);
    TerminalIfFailed(w, id);
    OnlyRunOf(w, i);
    if a.Finishes? && a.run == i && w.runs[i].exit.Some? {
      hide Inv, TaskOk, HasLiveRun, Step;
      OwnRunFinishes(w, i, id, s, a.readOk, a.writeOk, a.delivery);
      StepFinishes(w, a);
    } else {
      hide Inv, TaskOk, HasLiveRun;
      NotFinished(w, a, i, id, s);
    }
  }

  lemma StepFinishes(w: World, a: Action)
    requires a.Finishes?
    ensures Step(w, a) == FinishRun(w, a.run, a.readOk, a.writeOk, a.delivery)
  {
    hide FinishRun;
  }

  lemma OwnRunFinishes(w: World, i: nat, id: string, s: string, readOk: bool, writeOk: bool, delivery: nat -> Attempt)
    requires Doomed(w, i, id, s) && w.runs[i].exit.Some? && id in w.rows
    requires forall k :: 0 <= k < |w.runs| && w.runs[k].taskId == id ==> k == i
    ensures var w' := FinishRun(w, i, readOk, writeOk, delivery);
            && Settled(w', id) && w'.tasks[id].state == s && !Doomed(w', i, id, s)
            && CountDeliveries(w'.deliveries, id) == CountDeliveries(w.deliveries, id) + 1
            && (Silent(w, i, id) ==> CountReports(w'.reports, id) == CountReports(w.reports, id))
  {
    hide IsBlank, CountReports, CountDeliveries, StoredFor, Reported, Made, Stored;
    NoneStored();
    var before := if readOk then w.rows[id] else w.tasks[id];
    ToldCounts(w, id, Outcome(before, w.runs[i].exit.value.cancelled, w.runs[i].exit.value.error), Made(delivery, 0), id);
  }

  lemma NotFinished(w: World, a: Action, i: nat, id: string, s: string)
    requires Doomed(w, i, id, s) && Terminal(w, id) && id in w.rows
    requires forall k :: 0 <= k < |w.runs| && w.runs[k].taskId == id ==> k == i
    requires !(a.Finishes? && a.run == i && w.runs[i].exit.Some?)
    ensures var w' := Step(w, a); Doomed(w', i, id, s) && SameTask(w, w', id) && (Silent(w, i, id) ==> Silent(w', i, id))
  {
    if a.Finishes? && a.run == i {
      assert Step(w, a) == w;
    } else {
      hide Step, IsTerminal, CountReports, CountDeliveries;
      EndedIsKept(w, a, id);
      RunsStay(w, a, i);
      RowKept(w, a, i, id);
    }
  }

  /** While a task has ended, its row is written only by its own run. */
  lemma RowKept(w: World, a: Action, i: nat, id: string)
    requires Terminal(w, id) && id in w.rows && i < |w.runs| && w.runs[i].taskId == id
    requires (forall k :: 0 <= k < |w.runs| && w.runs[k].taskId == id ==> k == i) && !(a.Finishes? && a.run == i)
    ensures w.runs[i].exit.Some? ==> id in Step(w, a).rows && Step(w, a).rows[id] == w.rows[id]
  {
    hide IsBlank, TrimSpace, Outcome, HasLiveRun, Cancelled;
  }

  // -------- after Fail --------

  /** What Fail leaves of a known task that has not ended: failed, and settled or doomed to the end its live run will give it. */
  lemma FailDooms(w: World, id: string, text: string, readOk: bool, report: Attempt)
    requires Inv(w) && id in w.tasks && !Terminal(w, id)
    ensures var w1 := Fail(w, id, text, readOk, true, report);
            && Inv(w1) && id in w1.tasks && w1.tasks[id].state == "failed"
            && (if HasLiveRun(w.runs, id) then
                  var i := RunOf(w.runs, id);
                  && Doomed(w1, i, id, EndState(w.runs[i]))
                  && (w.runs[i].exit.Some? && !w.tasks[id].reported ==> Silent(w1, i, id))
                  && id in w1.rows && w1.rows[id] == w1.tasks[id]
                  && w1.runs[i].exit == w.runs[i].exit && w1.tasks[id].reported == w.tasks[id].reported
                else Settled(w1, id))
  {
    StepKeepsInv(w, Fails(id, text, readOk, true, report));
    FailIsStep(w, id, text, readOk, report);
    hide Inv, Step;
    if HasLiveRun(w.runs, id) {
      var i := RunOf(w.runs, id);
      FailCancels(w, id, i);
      FailedWithRun(w, id, i, text, readOk, report);
    } else {
      FailedAlone(w, id, text, readOk, report);
    }
  }

  lemma FailIsStep(w: World, id: string, text: string, readOk: bool, report: Attempt)
    ensures Step(w, Fails(id, text, readOk, true, report)) == Fail(w, id, text, readOk, true, report)
  {
    hide Fail;
  }

  /** Fail finds the live run in its map, or has cancelled it before. */
  lemma FailCancels(w: World, id: string, i: nat)
    requires Inv(w) && id in w.tasks && !Terminal(w, id) && i < |w.runs| && w.runs[i].live && w.runs[i].taskId == id
    ensures if id in w.running then w.running[id] == i else w.runs[i].cancelled
    ensures id in w.rows
  {
    InvAt(w, id);
    LiveIsRun(w.runs, id);
    assert HasLiveRun(w.runs, id);
    OnlyRunOf(w, i);
    hide CountRuns, CountReports, CountLive, IsTerminal, Inv;
  }

  lemma FailedWithRun(w: World, id: string, i: nat, text: string, readOk: bool, report: Attempt)
    requires id in w.tasks && !Terminal(w, id) && i < |w.runs| && w.runs[i].live && w.runs[i].taskId == id
    requires if id in w.running then w.running[id] == i else w.runs[i].cancelled
    ensures var w1 := Fail(w, id, text, readOk, true, report);
            && Doomed(w1, i, id, EndState(w.runs[i]))
            && (w.runs[i].exit.Some? && !w.tasks[id].reported ==> Silent(w1, i, id))
            && id in w1.rows && w1.rows[id] == w1.tasks[id]
            && w1.runs[i].exit == w.runs[i].exit && w1.tasks[id].reported == w.tasks[id].reported
  {
    hide TrimSpace, IsBlank, HasLiveRun;
  }

  lemma FailedAlone(w: World, id: string, text: string, readOk: bool, report: Attempt)
    requires id in w.tasks && !Terminal(w, id) && !HasLiveRun(w.runs, id)
    ensures var w1 := Fail(w, id, text, readOk, true, report);
            id in w1.tasks && w1.tasks[id].state == "failed" && Settled(w1, id)
  {
    hide TrimSpace, IsBlank;
    var later := Fail(w, id, text, readOk, true, report).runs;
    forall k | 0 <= k < |later| ensures !(later[k].live && later[k].taskId == id) {
      assert later[k].taskId == w.runs[k].taskId && later[k].live == w.runs[k].live;
    }
  }

  /** A settled task never changes. */
  lemma {:induction false} SettledForGood(w: World, id: string, more: seq<Action>)
    requires Inv(w) && Settled(w, id)
    ensures var w' := After(w, more); Inv(w') && Settled(w', id) && SameTask(w, w', id)
  {
    hide Step, Inv, Settled, SameTask;
    if more == [] {
      SameAsBefore(w, id);
    } else {
      var front := more[..|more| - 1];
      SettledForGood(w, id, front);
      SettledStays(After(w, front), more[|more| - 1], id);
      StepKeepsInv(After(w, front), more[|more| - 1]);
      SameTaskAgain(w, After(w, front), After(w, more), id);
    }
  }

  lemma SameAsBefore(w: World, id: string)
    requires Settled(w, id)
    ensures SameTask(w, w, id)
  {
  }

  lemma SameTaskAgain(a: World, b: World, c: World, id: string)
    requires SameTask(a, b, id) && SameTask(b, c, id)
    ensures SameTask(a, c, id)
  {
    hide CountReports, CountDeliveries;
  }

  // -------- what is reported after a moment --------

  lemma {:induction false} CountsOfConcat(a: seq<Delivery>, b: seq<Delivery>, id: string)
    ensures CountDeliveries(a + b, id) == CountDeliveries(a, id) + CountDeliveries(b, id)
    ensures StoredFor(a + b, id) == StoredFor(a, id) + StoredFor(b, id)
  {
    hide Stored;
    if b == [] {
      assert a + b == a;
    } else {
      assert (a + b)[..|a + b| - 1] == a + b[..|b| - 1];
      CountsOfConcat(a, b[..|b| - 1], id);
    }
  }

  lemma {:induction false} DeliveriesOnlyGrow(w: World, more: seq<Action>)
    ensures w.deliveries <= After(w, more).deliveries
  {
    hide Step;
    if more != [] {
      DeliveriesOnlyGrow(w, more[..|more| - 1]);
      StepDelivers(After(w, more[..|more| - 1]), more[|more| - 1]);
    }
  }

  lemma {:induction false} LaterInv(w: World, more: seq<Action>)
    requires Inv(w)
    ensures Inv(After(w, more))
  {
    hide Step, Inv;
    if more != [] {
      LaterInv(w, more[..|more| - 1]);
      StepKeepsInv(After(w, more[..|more| - 1]), more[|more| - 1]);
    }
  }

  /** From any moment on a task gets a report for each attempt that stores one, in the deliveries made since. */
  lemma ReportsSince(w: World, id: string, more: seq<Action>)
    requires Inv(w)
    ensures var w' := After(w, more);
            && w.deliveries <= w'.deliveries
            && var since := w'.deliveries[|w.deliveries|..];
               && CountReports(w'.reports, id) == CountReports(w.reports, id) + StoredFor(since, id)
               && CountDeliveries(w'.deliveries, id) == CountDeliveries(w.deliveries, id) + CountDeliveries(since, id)
  {
    hide Inv, After, CountReports, CountDeliveries, StoredFor;
    DeliveriesOnlyGrow(w, more);
    LaterInv(w, more);
    var w' := After(w, more);
    CountsOfConcat(w.deliveries, w'.deliveries[|w.deliveries|..], id);
    assert w.deliveries + w'.deliveries[|w.deliveries|..] == w'.deliveries;
    ReportsAreStored(w, id);
    ReportsAreStored(w', id);
  }

  lemma ReportsAreStored(w: World, id: string)
    requires Inv(w)
    ensures CountReports(w.reports, id) == StoredFor(w.deliveries, id)
  {
    InvAt(w, id);
    hide CountReports, StoredFor, CountDeliveries, CountRuns, CountLive, IsTerminal;
  }

  // -------- until the run is finished --------

  /** A doomed task stays failed until its run is finished, ends as announced, and is then delivered once more. */
  lemma {:induction false} DoomedUntilFinished(w: World, i: nat, id: string, s: string, more: seq<Action>)
    requires Inv(w) && Doomed(w, i, id, s)
    ensures var w' := After(w, more);
            && Inv(w')
            && (if HasLiveRun(w'.runs, id) then Doomed(w', i, id, s) && SameTask(w, w', id)
                else && Settled(w', id) && w'.tasks[id].state == s
                     && CountDeliveries(w'.deliveries, id) == CountDeliveries(w.deliveries, id) + 1)
            && (Silent(w, i, id) ==> CountReports(w'.reports, id) == CountReports(w.reports, id)
                                     && (Doomed(w', i, id, s) ==> Silent(w', i, id)))
  {
    hide Step, Inv, Silent, CountReports, CountDeliveries;
    if more == [] {
      assert w.runs[i].live && w.runs[i].taskId == id;
    } else {
      var front := more[..|more| - 1];
      var v, a := After(w, front), more[|more| - 1];
      DoomedUntilFinished(w, i, id, s, front);
      StepKeepsInv(v, a);
      if HasLiveRun(v.runs, id) {
        DoomedStays(v, a, i, id, s);
        DoomedIsLive(Step(v, a), i, id, s);
      } else {
        SettledStays(v, a, id);
        SettledIsNotDoomed(Step(v, a), i, id, s);
        SettledIsNotDoomed(v, i, id, s);
      }
    }
  }

  lemma DoomedIsLive(w: World, i: nat, id: string, s: string)
    ensures Doomed(w, i, id, s) ==> HasLiveRun(w.runs, id)
    ensures Settled(w, id) ==> !HasLiveRun(w.runs, id)
  {
    hide IsTerminal;
  }

  lemma SettledIsNotDoomed(w: World, i: nat, id: string, s: string)
    requires Settled(w, id)
    ensures !Doomed(w, i, id, s)
  {
    hide IsTerminal;
  }

  /**
   After Fail has ended a known task, at any later moment: the task is failed as long as no run
   of it was live, or that run is not finished; once it is, the task is cancelled if the run was
   still going when Fail came, and as its runner returned it otherwise. Only that delivers it
   again, adding a report for each attempt that stores one.
   */
  lemma FailThen(w: World, id: string, text: string, readOk: bool, report: Attempt, more: seq<Action>)
    requires Inv(w) && id in w.tasks && !Terminal(w, id)
    ensures var w1 := Fail(w, id, text, readOk, true, report);
            var w2 := After(w1, more);
            var undone := HasLiveRun(w.runs, id) && !HasLiveRun(w2.runs, id);
            && id in w1.tasks && w1.tasks[id].state == "failed" && id in w2.tasks
            && (if undone then w2.tasks[id].state == EndState(w.runs[RunOf(w.runs, id)]) else w2.tasks[id] == w1.tasks[id])
            && w1.deliveries <= w2.deliveries
            && var since := w2.deliveries[|w1.deliveries|..];
               && CountDeliveries(since, id) == One(undone)
               && CountReports(w2.reports, id) == CountReports(w1.reports, id) + StoredFor(since, id)
               && (NoneAfterStoredFor(since, id) ==> StoredFor(since, id) <= One(undone))
  {
    hide Inv, Fail, Doomed, Silent, CountReports, CountDeliveries, StoredFor, NoneAfterStoredFor, EachRetried, IsTerminal;
    FailDooms(w, id, text, readOk, report);
    var w1 := Fail(w, id, text, readOk, true, report);
    ReportsSince(w1, id, more);
    StoredForAtMost(After(w1, more).deliveries[|w1.deliveries|..], id);
    if HasLiveRun(w.runs, id) {
      var i := RunOf(w.runs, id);
      DoomedUntilFinished(w1, i, id, EndState(w.runs[i]), more);
    } else {
      SettledForGood(w1, id, more);
    }
  }

  // -------- exactly when Fail's outcome lasts --------

  /** The task stays failed, with no report but Fail's own, whatever happens next. */
  ghost predicate Lasts(w1: World, id: string) {
    forall more :: var w2 := After(w1, more);
      id in w2.tasks && w2.tasks[id].state == "failed" && CountReports(w2.reports, id) == CountReports(w1.reports, id)
  }

  /** Fail's outcome lasts exactly if no run of the task was live, or its runner had returned an error, uncancelled, and no one is to be told. */
  lemma FailLastsExactlyWhen(w: World, id: string, text: string, readOk: bool, report: Attempt)
    requires Inv(w) && id in w.tasks && !Terminal(w, id)
    ensures Lasts(Fail(w, id, text, readOk, true, report), id)
            <==> (HasLiveRun(w.runs, id) ==> EndState(w.runs[RunOf(w.runs, id)]) == "failed" && !w.tasks[id].reported)
  {
    hide Inv, Fail, CountReports, Terminal, After;
    FailDooms(w, id, text, readOk, report);
    var w1 := Fail(w, id, text, readOk, true, report);
    if HasLiveRun(w.runs, id) {
      var i := RunOf(w.runs, id);
      var s := EndState(w.runs[i]);
      if s == "failed" && !w.tasks[id].reported {
        ExitedIfFailed(w.runs[i]);
        forall more ensures var w2 := After(w1, more);
            id in w2.tasks && w2.tasks[id].state == "failed" && CountReports(w2.reports, id) == CountReports(w1.reports, id)
        {
          FailThen(w, id, text, readOk, report, more);
          DoomedUntilFinished(w1, i, id, s, more);
        }
      } else {
        Undone(w1, i, id, s);
      }
    } else {
      forall more ensures var w2 := After(w1, more);
          id in w2.tasks && w2.tasks[id].state == "failed" && CountReports(w2.reports, id) == CountReports(w1.reports, id)
      {
        SettledForGood(w1, id, more);
      }
    }
  }

  lemma ExitedIfFailed(run: Run)
    requires EndState(run) == "failed"
    ensures run.exit.Some?
  {
  }

  /** The run returns and is finished: another state, or a second report. */
  lemma Undone(w1: World, i: nat, id: string, s: string)
    requires Inv(w1) && Doomed(w1, i, id, s) && id in w1.rows && w1.rows[id] == w1.tasks[id]
    requires s != "failed" || w1.tasks[id].reported
    ensures !Lasts(w1, id)
  {
    var returned := ReturnRun(w1, i, None);
    var finished := FinishRun(returned, i, true, true, STORES_AT_ONCE);
    TwoSteps(w1, Returned(i, None), Finishes(i, true, true, STORES_AT_ONCE));
    var more := [Returned(i, None), Finishes(i, true, true, STORES_AT_ONCE)];
    assert After(w1, more) == finished;
    hide Inv, Lasts, After, Step;
    ReturnedThenFinished(w1, i, id, s);
    UndoneBy(w1, id, more);
  }

  /** A delivery whose first attempt stores the report and returns no error. */
  const STORES_AT_ONCE: nat -> Attempt := n => Attempt(true, None)

  lemma StoredAtOnce()
    ensures Stored(Made(STORES_AT_ONCE, 0)) == 1
  {
    assert Made(STORES_AT_ONCE, 0) == [Attempt(true, None)];
    assert [Attempt(true, None)][..0] == [];
  }

  lemma TwoSteps(w: World, a: Action, b: Action)
    ensures After(w, [a, b]) == Step(Step(w, a), b)
  {
    hide Step;
    assert [a, b][..1] == [a] && [a][..0] == [];
    assert After(w, [a]) == Step(After(w, []), a);
  }

  lemma ReturnedThenFinished(w1: World, i: nat, id: string, s: string)
    requires Doomed(w1, i, id, s) && id in w1.rows && w1.rows[id] == w1.tasks[id]
    ensures var w2 := FinishRun(ReturnRun(w1, i, None), i, true, true, STORES_AT_ONCE);
            && id in w2.tasks && w2.tasks[id].state == s
            && (w1.tasks[id].reported ==> CountReports(w2.reports, id) == CountReports(w1.reports, id) + 1)
  {
    hide IsBlank, CountReports, CountDeliveries, StoredFor, Reported, Made, Stored;
    StoredAtOnce();
    var r := ReturnRun(w1, i, None);
    assert r.rows == w1.rows && r.tasks == w1.tasks && r.reports == w1.reports;
    var exit := r.runs[i].exit.value;
    assert ExitState(exit) == s;
    ToldCounts(r, id, Outcome(w1.rows[id], exit.cancelled, exit.error), Made(STORES_AT_ONCE, 0), id);
  }

  lemma UndoneBy(w1: World, id: string, more: seq<Action>)
    requires var w2 := After(w1, more);
             !(id in w2.tasks && w2.tasks[id].state == "failed" && CountReports(w2.reports, id) == CountReports(w1.reports, id))
    ensures !Lasts(w1, id)
  {
    hide After, CountReports;
  }
}
