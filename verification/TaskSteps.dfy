/** What each call makes of the tasks (internal/v2/tasks/manager.go). */
module TaskSteps {
  import opened Basics
  import opened Text
  import opened TaskManager
  import opened TaskTheorems
  import opened TaskFailure

  // -------- a task begins --------

  /** The task is known to be pending, or its row can be read and says so or says nothing. */
  predicate Startable(w: World, id: string, readOk: bool) {
    if id in w.tasks then w.tasks[id].state == "pending"
    else readOk && id in w.rows && (w.rows[id].state == "pending" || IsBlank(w.rows[id].state))
  }

  /** A task as it was, but for its state. */
  predicate Becomes(before: Task, after: Task, state: string) {
    after.state == state && after.finalText == before.finalText && after.reported == before.reported
  }

  /** A run begins exactly for a startable task with a runner whose row can be written. */
  lemma StartBeginsARun(w: World, id: string, readOk: bool, hasRunner: bool, writeOk: bool)
    requires Inv(w)
    ensures var w' := Start(w, id, readOk, hasRunner, writeOk);
            if Startable(w, id, readOk) && hasRunner && writeOk then
              && w'.runs == w.runs + [Run(id, false, true, None)] && w'.running == w.running[id := |w.runs|]
              && id in w.rows && id in w'.tasks && id in w'.rows && w'.rows[id] == w'.tasks[id]
              && Becomes(if id in w.tasks then w.tasks[id] else w.rows[id], w'.tasks[id], "running")
            else
              && w'.runs == w.runs && w'.running == w.running && w'.rows == w.rows
              && (id in w.tasks || !readOk ==> w'.tasks == w.tasks)
  {
    InvAt(w, id);
    PendingHasNoRun(w, id);
    hide Inv, TaskOk, IsTerminal;
  }

  lemma PendingHasNoRun(w: World, id: string)
    requires TaskOk(w, id)
    ensures id in w.tasks ==> id in w.rows
    ensures id in w.running ==> id in w.tasks && w.tasks[id].state != "pending"
  {
    if id in w.running {
      RunCounts(w.runs, w.running[id]);
    }
    hide CountRuns, CountLive, CountDeliveries, CountReports, StoredFor, IsTerminal;
  }

  /** A new task is stored and known, pending unless its caller gave it a state, and it is waited for until it ends. */
  lemma CreateStores(w: World, id: string, given: Task, writeOk: bool)
    ensures var w' := Create(w, id, given, writeOk);
            if id in w.rows || !writeOk then w' == w
            else
              && w'.rows.Keys == w.rows.Keys + {id} && id in w'.tasks && w'.rows[id] == w'.tasks[id]
              && Becomes(given, w'.tasks[id], if IsBlank(given.state) then "pending" else given.state)
              && id in w'.waiters && (!(id in w.waiters && w.waiters[id]) ==> (w'.waiters[id] <==> Terminal(w', id)))
              && w'.runs == w.runs && w'.running == w.running && w'.reports == w.reports
  {
    hide IsBlank;
  }

  // -------- a task that is not in memory --------

  /** Its row is read, and then it is as if the task had been known, with that row's state or pending for none. */
  lemma UnknownTaskIsRead(w: World, id: string, text: string, writeOk: bool, report: Attempt, hasRunner: bool)
    requires id !in w.tasks && id in w.rows
    ensures var row := w.rows[id];
            var known := w.(tasks := w.tasks[id := if IsBlank(row.state) then row.(state := "pending") else row]);
            && Fail(w, id, text, true, writeOk, report) == Fail(known, id, text, true, writeOk, report)
            && Start(w, id, true, hasRunner, writeOk) == Start(known, id, true, hasRunner, writeOk)
    ensures Cancel(w, id, true, writeOk, report) == Cancel(w.(tasks := w.tasks[id := w.rows[id]]), id, true, writeOk, report)
  {
    hide IsBlank, IsTerminal, Ended, Cancelled, HasLiveRun, TrimSpace;
    var row := w.rows[id];
    var task := if IsBlank(row.state) then row.(state := "pending") else row;
    assert w.tasks[id := task][id := task] == w.tasks[id := task];
    assert w.tasks[id := row][id := row] == w.tasks[id := row];
  }

  /** Without its row nothing happens. */
  lemma UnknownTaskIsRefused(w: World, id: string, readOk: bool, text: string, writeOk: bool, report: Attempt, hasRunner: bool)
    requires id !in w.tasks && (readOk ==> id !in w.rows)
    ensures Fail(w, id, text, readOk, writeOk, report) == w
    ensures Start(w, id, readOk, hasRunner, writeOk) == w
    ensures Cancel(w, id, readOk, writeOk, report) == w
  {
  }

  // -------- what is told --------

  /** A failed task says why, as its caller gave it, in memory and in its row. */
  lemma FailSays(w: World, id: string, text: string, readOk: bool, report: Attempt)
    requires id in w.tasks && !Terminal(w, id)
    ensures var w' := Fail(w, id, text, readOk, true, report);
            && id in w'.tasks && id in w'.rows && w'.rows[id] == w'.tasks[id]
            && w'.tasks[id].state == "failed" && w'.tasks[id].reported == w.tasks[id].reported
            && w'.tasks[id].finalText == (if IsBlank(text) then "Task failed." else TrimSpace(text))
            && id in w'.waiters && w'.waiters[id]
  {
    BlankIffTrimmedEmpty(text);
    hide TrimSpace, IsBlank, HasLiveRun, Cancelled, Reported;
  }

  /** A finished run says how it went, unless its runner wrote a final text to the row that is read. */
  lemma FinishedSays(w: World, i: nat, readOk: bool, writeOk: bool, delivery: nat -> Attempt)
    requires i < |w.runs| && w.runs[i].live && w.runs[i].exit.Some? && w.runs[i].taskId in w.tasks
    ensures var id, exit, w' := w.runs[i].taskId, w.runs[i].exit.value, FinishRun(w, i, readOk, writeOk, delivery);
            var before := if readOk && id in w.rows then w.rows[id] else w.tasks[id];
            && id in w'.tasks
            && w'.tasks[id].finalText
               == if !IsBlank(before.finalText) then before.finalText
                  else if exit.cancelled then "Task cancelled."
                  else if exit.error.Some? then "Task failed: " + exit.error.value
                  else "Task completed successfully."
  {
    hide IsBlank, Reported, Made;
  }

  /** The reports from n on tell the state that their tasks have now, and these have ended. */
  ghost predicate TellTheEnd(w: World, n: nat) {
    forall k :: n <= k < |w.reports| ==>
      var r := w.reports[k];
      Terminal(w, r.taskId) && w.tasks[r.taskId].state == r.state && w.tasks[r.taskId].reported
  }

  /** Every report made by a step tells the state in which its task has ended. */
  lemma ReportsTellTheEnd(w: World, a: Action)
    ensures w.reports <= Step(w, a).reports && TellTheEnd(Step(w, a), |w.reports|)
  {
    hide TellTheEnd;
    match a
    case Fails(id, text, readOk, writeOk, report) =>
      hide Fail;
      FailTells(w, id, text, readOk, writeOk, report);
    case Cancels(id, readOk, writeOk, report) =>
      hide Cancel;
      CancelTells(w, id, readOk, writeOk, report);
    case Finishes(i, readOk, writeOk, delivery) =>
      hide FinishRun;
      FinishTells(w, i, readOk, writeOk, delivery);
    case _ =>
      hide IsBlank;
      NothingTold(Step(w, a), |w.reports|);
  }

  lemma NothingTold(w: World, n: nat)
    requires n == |w.reports|
    ensures TellTheEnd(w, n)
  {
  }

  /** The task as it ended is the one that is told. */
  lemma ToldTells(w: World, w': World, id: string, task: Task, attempts: seq<Attempt>)
    requires w'.reports == Told(w, id, task, attempts).reports
    requires id in w'.tasks && w'.tasks[id] == task && IsTerminal(task.state)
    ensures w.reports <= w'.reports && TellTheEnd(w', |w.reports|)
  {
    ReportedAre(w.reports, Report(id, task.state), Tried(task, attempts));
    hide Reported, IsTerminal;
  }

  lemma FailTells(w: World, id: string, text: string, readOk: bool, writeOk: bool, report: Attempt)
    ensures var w' := Fail(w, id, text, readOk, writeOk, report); w.reports <= w'.reports && TellTheEnd(w', |w.reports|)
  {
    hide TellTheEnd, IsBlank, TrimSpace, Cancelled, HasLiveRun, Reported;
    var w' := Fail(w, id, text, readOk, writeOk, report);
    if w'.reports == w.reports {
      NothingTold(w', |w.reports|);
    } else {
      ToldTells(w, w', id, w'.tasks[id], [report]);
    }
  }

  lemma CancelTells(w: World, id: string, readOk: bool, writeOk: bool, report: Attempt)
    ensures var w' := Cancel(w, id, readOk, writeOk, report); w.reports <= w'.reports && TellTheEnd(w', |w.reports|)
  {
    hide TellTheEnd, Cancelled, Reported;
    var w' := Cancel(w, id, readOk, writeOk, report);
    if w'.reports == w.reports {
      NothingTold(w', |w.reports|);
    } else {
      ToldTells(w, w', id, w'.tasks[id], [report]);
    }
  }

  lemma FinishTells(w: World, i: nat, readOk: bool, writeOk: bool, delivery: nat -> Attempt)
    ensures var w' := FinishRun(w, i, readOk, writeOk, delivery); w.reports <= w'.reports && TellTheEnd(w', |w.reports|)
  {
    hide TellTheEnd, IsBlank, Reported, Made;
    var w' := FinishRun(w, i, readOk, writeOk, delivery);
    if w'.reports == w.reports {
      NothingTold(w', |w.reports|);
    } else {
      var id := w.runs[i].taskId;
      ToldTells(w, w', id, w'.tasks[id], Made(delivery, 0));
    }
  }

  lemma {:induction false} ReportedAre(reports: seq<Report>, report: Report, attempts: seq<Attempt>)
    ensures var r := Reported(reports, report, attempts);
            && reports <= r && (forall k :: |reports| <= k < |r| ==> r[k] == report)
            && (attempts == [] ==> r == reports)
  {
    if attempts != [] {
      ReportedAre(reports, report, attempts[..|attempts| - 1]);
    }
  }

  /** All attempts but the last ran into a busy database, and the last did not, or was the last allowed. */
  ghost predicate RetriedRightly(made: seq<Attempt>, most: nat) {
    && 1 <= |made| <= most
    && (forall k :: 0 <= k < |made| - 1 ==> made[k].error == Some(DatabaseBusy))
    && (|made| == most || made[|made| - 1].error != Some(DatabaseBusy))
  }

  lemma OneAttemptMore(attempt: Attempt, rest: seq<Attempt>, most: nat)
    requires RetriedRightly(rest, most) && attempt.error == Some(DatabaseBusy)
    ensures RetriedRightly([attempt] + rest, most + 1)
  {
    var made := [attempt] + rest;
    assert made[|made| - 1] == rest[|rest| - 1];
  }

  /** A delivery is tried again exactly while the database is busy, up to the limit. */
  lemma {:induction false} RetriedWhileBusy(delivery: nat -> Attempt, n: nat)
    requires n <= BUSY_RETRY_LIMIT
    ensures RetriedRightly(Made(delivery, n), BUSY_RETRY_LIMIT + 1 - n)
    decreases BUSY_RETRY_LIMIT - n
  {
    if delivery(n).error == Some(DatabaseBusy) && n < BUSY_RETRY_LIMIT {
      RetriedWhileBusy(delivery, n + 1);
      assert Made(delivery, n) == [delivery(n)] + Made(delivery, n + 1);
      hide RetriedRightly, Made;
      OneAttemptMore(delivery(n), Made(delivery, n + 1), BUSY_RETRY_LIMIT - n);
    } else {
      assert Made(delivery, n) == [delivery(n)];
    }
  }

  // -------- the other tasks --------

  /** The call or the run is a task's own. */
  predicate About(w: World, a: Action, id: string) {
    match a
    case Creates(other, _, _) => other == id
    case Starts(other, _, _, _) => other == id
    case Fails(other, _, _, _, _) => other == id
    case Cancels(other, _, _, _) => other == id
    case Waits(other) => other == id
    case Returned(i, _) => i < |w.runs| && w.runs[i].taskId == id
    case Finishes(i, _, _, _) => i < |w.runs| && w.runs[i].taskId == id
    case Writes(i, _) => i < |w.runs| && w.runs[i].taskId == id
  }

  ghost predicate SameAt<T>(m: map<string, T>, m': map<string, T>, id: string) {
    (id in m <==> id in m') && (id in m ==> m[id] == m'[id])
  }

  /** All that belongs to a task is the same. */
  ghost predicate Untouched(w: World, w': World, id: string) {
    && SameAt(w.tasks, w'.tasks, id) && SameAt(w.rows, w'.rows, id)
    && SameAt(w.running, w'.running, id) && SameAt(w.waiters, w'.waiters, id)
    && RunsUntouched(w.runs, w'.runs, id)
  }

  ghost predicate RunsUntouched(runs: seq<Run>, runs': seq<Run>, id: string) {
    && |runs| <= |runs'|
    && (forall i :: 0 <= i < |runs| ==> runs'[i].taskId == runs[i].taskId && (runs[i].taskId == id ==> runs'[i] == runs[i]))
    && (forall i :: |runs| <= i < |runs'| ==> runs'[i].taskId != id)
  }

  lemma SameRuns(runs: seq<Run>, id: string)
    ensures RunsUntouched(runs, runs, id)
  {
  }

  lemma CancelledIsOwn(runs: seq<Run>, i: nat, id: string)
    requires i < |runs| ==> runs[i].taskId != id
    ensures RunsUntouched(runs, Cancelled(runs, i), id)
  {
  }

  lemma CreateIsOwn(w: World, other: string, given: Task, writeOk: bool, id: string)
    requires other != id
    ensures Untouched(w, Create(w, other, given, writeOk), id)
  {
    hide IsBlank, IsTerminal;
  }

  lemma StartIsOwn(w: World, other: string, readOk: bool, hasRunner: bool, writeOk: bool, id: string)
    requires other != id
    ensures Untouched(w, Start(w, other, readOk, hasRunner, writeOk), id)
  {
    hide IsBlank;
  }

  lemma RememberedIsOwn(w: World, other: string, task: Task, id: string)
    requires other != id
    ensures Untouched(w, Remembered(w, other, task), id)
  {
    SameRuns(w.runs, id);
    hide RunsUntouched;
  }

  lemma StruckIsOwn(w: World, other: string, id: string)
    requires other != id && (other in w.running ==> w.running[other] < |w.runs| && w.runs[w.running[other]].taskId == other)
    ensures Untouched(w, Struck(w, other), id)
  {
    SameRuns(w.runs, id);
    if other in w.running {
      CancelledIsOwn(w.runs, w.running[other], id);
    }
    hide RunsUntouched, Cancelled, HasLiveRun;
  }

  lemma EndedIsOwn(w: World, other: string, task: Task, report: Attempt, id: string)
    requires other != id
    ensures Untouched(w, Ended(w, other, task, report), id)
  {
    SameRuns(w.runs, id);
    hide RunsUntouched, Reported;
  }

  lemma UntouchedAgain(a: World, b: World, c: World, id: string)
    requires Untouched(a, b, id) && Untouched(b, c, id)
    ensures Untouched(a, c, id)
  {
  }

  lemma FailIsOwn(w: World, other: string, text: string, readOk: bool, writeOk: bool, report: Attempt, id: string)
    requires other != id && TaskOk(w, other)
    ensures Untouched(w, Fail(w, other, text, readOk, writeOk, report), id)
  {
    hide Untouched, Ended, IsBlank, TrimSpace, IsTerminal, HasLiveRun, Cancelled;
    var found := Loaded(w, other, readOk);
    if found.None? {
      SameWorld(w, id);
    } else {
      var task := if other in w.tasks then found.value else Normalized(found.value);
      var w1 := Remembered(w, other, task);
      RememberedIsOwn(w, other, task, id);
      OwnRunning(w, other);
      StruckIsOwn(w1, other, id);
      UntouchedAgain(w, w1, Struck(w1, other), id);
      hide TaskOk, Normalized;
      var said := TrimSpace(text);
      var failed := task.(state := "failed", finalText := if said == "" then "Task failed." else said);
      EndedIsOwn(Struck(w1, other), other, failed, report, id);
      UntouchedAgain(w, Struck(w1, other), Ended(Struck(w1, other), other, failed, report), id);
    }
  }

  lemma SameWorld(w: World, id: string)
    ensures Untouched(w, w, id)
  {
  }

  lemma CancelIsOwn(w: World, other: string, readOk: bool, writeOk: bool, report: Attempt, id: string)
    requires other != id && TaskOk(w, other)
    ensures Untouched(w, Cancel(w, other, readOk, writeOk, report), id)
  {
    hide Untouched, Ended, IsTerminal, Cancelled;
    var found := Loaded(w, other, readOk);
    if found.None? {
      SameWorld(w, id);
    } else {
      var w1 := Remembered(w, other, found.value);
      RememberedIsOwn(w, other, found.value, id);
      OwnRunning(w, other);
      CancelsOnlyOwn(w1, other, id);
      var cancelled := found.value.(state := "cancelled", finalText := "Task cancelled.");
      EndedIsOwn(w1, other, cancelled, report, id);
      UntouchedAgain(w, w1, Ended(w1, other, cancelled, report), id);
      if other in w.running {
        UntouchedAgain(w, w1, w1.(runs := Cancelled(w1.runs, w1.running[other])), id);
      }
    }
  }

  lemma CancelsOnlyOwn(w: World, other: string, id: string)
    requires other != id && (other in w.running ==> w.running[other] < |w.runs| && w.runs[w.running[other]].taskId == other)
    ensures other in w.running ==> Untouched(w, w.(runs := Cancelled(w.runs, w.running[other])), id)
  {
    if other in w.running {
      CancelledIsOwn(w.runs, w.running[other], id);
    }
    hide RunsUntouched, Cancelled;
  }

  lemma FinishIsOwn(w: World, i: nat, readOk: bool, writeOk: bool, delivery: nat -> Attempt, id: string)
    requires i < |w.runs| ==> w.runs[i].taskId != id
    ensures Untouched(w, FinishRun(w, i, readOk, writeOk, delivery), id)
  {
    hide IsBlank, Outcome, Made, Reported;
  }

  lemma OwnRunning(w: World, id: string)
    requires TaskOk(w, id)
    ensures id in w.running ==> w.running[id] < |w.runs| && w.runs[w.running[id]].taskId == id
  {
  }

  lemma SmallStepIsOwn(w: World, a: Action, id: string)
    requires (a.Returned? || a.Writes? || a.Waits?) && !About(w, a, id)
    ensures Untouched(w, Step(w, a), id)
  {
    hide Create, Start, Fail, Cancel, FinishRun, IsTerminal;
  }

  /** A step that is not a task's own leaves all of it as it was. */
  lemma OthersAreUntouched(w: World, a: Action, id: string)
    requires Inv(w) && !About(w, a, id)
    ensures Untouched(w, Step(w, a), id)
  {
    match a
    case Creates(other, given, writeOk) =>
      hide Create, Untouched;
      CreateIsOwn(w, other, given, writeOk, id);
    case Starts(other, readOk, hasRunner, writeOk) =>
      hide Start, Untouched;
      StartIsOwn(w, other, readOk, hasRunner, writeOk, id);
    case Fails(other, text, readOk, writeOk, report) =>
      InvAt(w, other);
      hide Fail, Untouched, Inv, TaskOk;
      FailIsOwn(w, other, text, readOk, writeOk, report, id);
    case Cancels(other, readOk, writeOk, report) =>
      InvAt(w, other);
      hide Cancel, Untouched, Inv, TaskOk;
      CancelIsOwn(w, other, readOk, writeOk, report, id);
    case Finishes(i, readOk, writeOk, delivery) =>
      hide FinishRun, Untouched;
      FinishIsOwn(w, i, readOk, writeOk, delivery, id);
    case _ =>
      hide Step, Untouched;
      SmallStepIsOwn(w, a, id);
  }
}
