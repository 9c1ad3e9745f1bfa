/** What becomes of a task that Cancel reaches (internal/v2/tasks/manager.go). */
module TaskCancellation {
  import opened Basics
  import opened Text
  import opened TaskManager
  import opened TaskTheorems
  import opened TaskReports
  import opened TaskFailure

  /** The task's live run i has been cancelled or has returned, and will end it as s. */
  ghost predicate Fated(w: World, i: nat, id: string, s: string) {
    && i < |w.runs| && w.runs[i].taskId == id && w.runs[i].live && id in w.tasks
    && EndState(w.runs[i]) == s && (w.runs[i].exit.None? ==> w.runs[i].cancelled)
  }

  lemma TasksStay(w: World, a: Action, id: string)
    requires id in w.tasks
    ensures id in Step(w, a).tasks
  {
    hide IsBlank, TrimSpace, Outcome, HasLiveRun, IsTerminal, Made, Reported;
  }

  /** A finished run ends its task as it returned: cancelled, failed with its error, or completed. */
  lemma RunEndsItsTask(w: World, i: nat, readOk: bool, writeOk: bool, delivery: nat -> Attempt)
    requires Inv(w) && i < |w.runs| && w.runs[i].live && w.runs[i].exit.Some?
    ensures var id, exit, w' := w.runs[i].taskId, w.runs[i].exit.value, FinishRun(w, i, readOk, writeOk, delivery);
            && Settled(w', id) && id in w.tasks && id in w.rows
            && (w'.tasks[id].state == "cancelled" <==> exit.cancelled)
            && (w'.tasks[id].state == "failed" <==> !exit.cancelled && exit.error.Some?)
            && (w'.tasks[id].state == "completed" <==> !exit.cancelled && exit.error.None?)
            && w'.rows[id] == (if writeOk then w'.tasks[id] else w.rows[id])
            && var before := if readOk then w.rows[id] else w.tasks[id];
               w'.tasks[id].reported == before.reported && (!IsBlank(before.finalText) ==> w'.tasks[id].finalText == before.finalText)
  {
    var id := w.runs[i].taskId;
    RunIsKnown(w, i);
    OnlyRunOf(w, i);
    InvAt(w, id);
    KnownRow(w, id);
    hide IsBlank, Reported, Made, Inv, TaskOk, CountRuns, CountLive, CountDeliveries, CountReports, StoredFor;
    var later := FinishRun(w, i, readOk, writeOk, delivery).runs;
    forall k | 0 <= k < |later| ensures !(later[k].live && later[k].taskId == id) {
      assert later[k].taskId == w.runs[k].taskId;
    }
  }

  /** Until its run is finished a fated task's end does not change. */
  lemma FatedStays(w: World, a: Action, i: nat, id: string, s: string)
    requires Inv(w) && Fated(w, i, id, s)
    ensures var w' := Step(w, a); Fated(w', i, id, s) || (Settled(w', id) && w'.tasks[id].state == s)
  {
    if a.Finishes? && a.run == i && w.runs[i].exit.Some? {
      RunEndsItsTask(w, i, a.readOk, a.writeOk, a.delivery);
      hide Inv, Settled, FinishRun;
    } else if a.Finishes? && a.run == i {
      assert Step(w, a) == w;
    } else {
      hide Inv, Step;
      TasksStay(w, a, id);
      RunsStay(w, a, i);
    }
  }

  lemma {:induction false} FatedUntilFinished(w: World, i: nat, id: string, s: string, more: seq<Action>)
    requires Inv(w) && Fated(w, i, id, s)
    ensures var w' := After(w, more);
            && Inv(w') && id in w'.tasks
            && if HasLiveRun(w'.runs, id) then Fated(w', i, id, s) else Settled(w', id) && w'.tasks[id].state == s
  {
    hide Step, Inv, Settled, EndState;
    if more == [] {
      assert w.runs[i].live && w.runs[i].taskId == id;
    } else {
      var front := more[..|more| - 1];
      var v, a := After(w, front), more[|more| - 1];
      FatedUntilFinished(w, i, id, s, front);
      StepKeepsInv(v, a);
      TasksStay(v, a, id);
      if HasLiveRun(v.runs, id) {
        FatedStays(v, a, i, id, s);
        SettledHasNoRun(Step(v, a), id);
      } else {
        SettledStays(v, a, id);
        SettledHasNoRun(Step(v, a), id);
        StateStays(v, Step(v, a), id);
      }
    }
  }

  lemma SettledHasNoRun(w: World, id: string)
    ensures Settled(w, id) ==> !HasLiveRun(w.runs, id)
  {
  }

  lemma StateStays(w: World, w': World, id: string)
    requires SameTask(w, w', id)
    ensures id in w'.tasks && w'.tasks[id].state == w.tasks[id].state
  {
    hide CountReports, CountDeliveries;
  }

  // -------- after Cancel --------

  /** A live run is cancelled, and stays what it was otherwise. */
  lemma CancelReachesTheRun(w: World, id: string, readOk: bool, writeOk: bool, report: Attempt)
    requires Inv(w) && id in w.tasks && !Terminal(w, id) && HasLiveRun(w.runs, id)
    ensures var i, w1 := RunOf(w.runs, id), Cancel(w, id, readOk, writeOk, report);
            && Inv(w1) && i < |w1.runs| && w1.runs[i] == w.runs[i].(cancelled := true)
            && Fated(w1, i, id, EndState(w.runs[i]))
  {
    var i := RunOf(w.runs, id);
    FailCancels(w, id, i);
    StepKeepsInv(w, Cancels(id, readOk, writeOk, report));
    hide Inv, HasLiveRun, Reported;
  }

  /** A task without a live run is ended at once, unless its row cannot be written. */
  lemma CancelEndsAtOnce(w: World, id: string, readOk: bool, writeOk: bool, report: Attempt)
    requires Inv(w) && id in w.tasks && !Terminal(w, id) && !HasLiveRun(w.runs, id)
    ensures var w1 := Cancel(w, id, readOk, writeOk, report);
            && Inv(w1) && id in w1.tasks
            && (!writeOk ==> w1 == w)
            && (writeOk ==> Settled(w1, id) && w1.tasks[id] == w1.rows[id] == w.tasks[id].(state := "cancelled", finalText := "Task cancelled.")
                            && w1.runs == w.runs)
  {
    InvAt(w, id);
    StepKeepsInv(w, Cancels(id, readOk, writeOk, report));
    hide Inv, Reported, CountRuns, CountLive, CountDeliveries, CountReports, StoredFor;
  }

  /**
   After Cancel of a known task that has not ended, at any later moment: a live run has been cancelled, and
   once it is finished the task is cancelled, unless its runner had returned before, uncancelled; a task
   without one is cancelled for good, or as it was if its row could not be written.
   */
  lemma CancelThen(w: World, id: string, readOk: bool, writeOk: bool, report: Attempt, more: seq<Action>)
    requires Inv(w) && id in w.tasks && !Terminal(w, id)
    ensures var w1 := Cancel(w, id, readOk, writeOk, report);
            var w2 := After(w1, more);
            if HasLiveRun(w.runs, id) then
              var run, run1 := w.runs[RunOf(w.runs, id)], w1.runs[RunOf(w.runs, id)];
              && run1.cancelled && run1.live && id in w2.tasks
              && (!HasLiveRun(w2.runs, id) && (run.exit.None? || run.exit.value.cancelled) ==> w2.tasks[id].state == "cancelled")
              && (!HasLiveRun(w2.runs, id) && run.exit.Some? && !run.exit.value.cancelled ==>
                    w2.tasks[id].state == if run.exit.value.error.Some? then "failed" else "completed")
            else if writeOk then id in w2.tasks && w2.tasks[id] == w.tasks[id].(state := "cancelled", finalText := "Task cancelled.")
            else w1 == w
  {
    hide Inv, Cancel, After, Settled, Terminal;
    if HasLiveRun(w.runs, id) {
      CancelReachesTheRun(w, id, readOk, writeOk, report);
      FatedUntilFinished(Cancel(w, id, readOk, writeOk, report), RunOf(w.runs, id), id, EndState(w.runs[RunOf(w.runs, id)]), more);
    } else {
      CancelEndsAtOnce(w, id, readOk, writeOk, report);
      if writeOk {
        SettledForGood(Cancel(w, id, readOk, writeOk, report), id, more);
        hide CountReports, CountDeliveries;
      }
    }
  }

  /** In every continuation the task is cancelled once no run of it is live. */
  ghost predicate EndsCancelled(w1: World, id: string) {
    forall more :: !HasLiveRun(After(w1, more).runs, id) ==> id in After(w1, more).tasks && After(w1, more).tasks[id].state == "cancelled"
  }

  /** Cancel makes a task end cancelled, whatever follows, exactly if it has no live run, or one that had not returned uncancelled. */
  lemma CancelHoldsExactlyWhen(w: World, id: string, readOk: bool, report: Attempt)
    requires Inv(w) && id in w.tasks && !Terminal(w, id)
    ensures EndsCancelled(Cancel(w, id, readOk, true, report), id)
            <==> (HasLiveRun(w.runs, id) ==>
                    var run := w.runs[RunOf(w.runs, id)]; run.exit.None? || run.exit.value.cancelled)
  {
    hide Inv, Cancel, After, Terminal, HasLiveRun;
    var w1 := Cancel(w, id, readOk, true, report);
    if HasLiveRun(w.runs, id) && w.runs[RunOf(w.runs, id)].exit.Some? && !w.runs[RunOf(w.runs, id)].exit.value.cancelled {
      var i := RunOf(w.runs, id);
      CancelReachesTheRun(w, id, readOk, true, report);
      FinishedNow(w1, i, id, EndState(w.runs[i]));
      var more := [Finishes(i, true, true, STORES_AT_ONCE)];
      assert !HasLiveRun(After(w1, more).runs, id) && After(w1, more).tasks[id].state != "cancelled";
    } else {
      forall more | !HasLiveRun(After(w1, more).runs, id)
        ensures id in After(w1, more).tasks && After(w1, more).tasks[id].state == "cancelled"
      {
        CancelThen(w, id, readOk, true, report, more);
      }
    }
  }

  lemma FinishedNow(w1: World, i: nat, id: string, s: string)
    requires Inv(w1) && Fated(w1, i, id, s) && w1.runs[i].exit.Some?
    ensures var w2 := After(w1, [Finishes(i, true, true, STORES_AT_ONCE)]);
            !HasLiveRun(w2.runs, id) && id in w2.tasks && w2.tasks[id].state == s
  {
    var a := Finishes(i, true, true, STORES_AT_ONCE);
    assert [a][..0] == [];
    assert After(w1, [a]) == Step(After(w1, []), a);
    RunEndsItsTask(w1, i, true, true, STORES_AT_ONCE);
    hide Inv, FinishRun;
  }
}
