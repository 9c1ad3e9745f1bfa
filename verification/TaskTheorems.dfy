/** What holds of every task over every interleaving and failure. */
module TaskTheorems {
  import opened Basics
  import opened Text
  import opened TaskManager

  datatype Action =
    | Creates(id: string, given: Task, writeOk: bool)
    | Starts(id: string, readOk: bool, hasRunner: bool, writeOk: bool)
    | Fails(id: string, text: string, readOk: bool, writeOk: bool, report: Attempt)
    | Cancels(id: string, readOk: bool, writeOk: bool, report: Attempt)
    | Returned(run: nat, error: Option<string>)
    | Finishes(run: nat, readOk: bool, writeOk: bool, delivery: nat -> Attempt)
    | Writes(run: nat, row: Task)
    | Waits(id: string)

  function Step(w: World, a: Action): World {
    match a
    case Creates(id, given, writeOk) => Create(w, id, given, writeOk)
    case Starts(id, readOk, hasRunner, writeOk) => Start(w, id, readOk, hasRunner, writeOk)
    case Fails(id, text, readOk, writeOk, report) => Fail(w, id, text, readOk, writeOk, report)
    case Cancels(id, readOk, writeOk, report) => Cancel(w, id, readOk, writeOk, report)
    case Returned(run, error) => ReturnRun(w, run, error)
    case Finishes(run, readOk, writeOk, delivery) => FinishRun(w, run, readOk, writeOk, delivery)
    case Writes(run, row) => RunnerWrites(w, run, row)
    case Waits(id) => Wait(w, id).0
  }

  function After(w: World, actions: seq<Action>): World {
    if actions == [] then w else Step(After(w, actions[..|actions| - 1]), actions[|actions| - 1])
  }

  /** A manager just made, over whatever rows the store holds. */
  function Fresh(rows: map<string, Task>): World {
    World(map[], rows, map[], map[], [], [], {}, [])
  }

  // -------- the invariant, task by task --------

  function CountReports(reports: seq<Report>, id: string): nat {
    if reports == [] then 0
    else CountReports(reports[..|reports| - 1], id) + if reports[|reports| - 1].taskId == id then 1 else 0
  }

  /** How many of the attempts stored a report. */
  function Stored(attempts: seq<Attempt>): nat {
    if attempts == [] then 0 else Stored(attempts[..|attempts| - 1]) + One(attempts[|attempts| - 1].stored)
  }

  function CountDeliveries(deliveries: seq<Delivery>, id: string): nat {
    if deliveries == [] then 0
    else CountDeliveries(deliveries[..|deliveries| - 1], id) + One(deliveries[|deliveries| - 1].taskId == id)
  }

  /** How many attempts of a task's deliveries stored a report. */
  function StoredFor(deliveries: seq<Delivery>, id: string): nat {
    if deliveries == [] then 0
    else
      var last := deliveries[|deliveries| - 1];
      StoredFor(deliveries[..|deliveries| - 1], id) + if last.taskId == id then Stored(last.attempts) else 0
  }

  function CountRuns(runs: seq<Run>, id: string): nat {
    if runs == [] then 0 else CountRuns(runs[..|runs| - 1], id) + if runs[|runs| - 1].taskId == id then 1 else 0
  }

  function CountLive(runs: seq<Run>, id: string): nat {
    if runs == [] then 0
    else CountLive(runs[..|runs| - 1], id) + if runs[|runs| - 1].taskId == id && runs[|runs| - 1].live then 1 else 0
  }

  predicate Terminal(w: World, id: string) {
    id in w.tasks && IsTerminal(w.tasks[id].state)
  }

  function One(b: bool): nat {
    if b then 1 else 0
  }

  ghost predicate AllCancelled(runs: seq<Run>, id: string) {
    forall i :: 0 <= i < |runs| && runs[i].taskId == id ==> runs[i].cancelled
  }

  ghost predicate TaskOk(w: World, id: string) {
    var live := CountLive(w.runs, id);
    // known tasks have rows
    && (id in w.tasks ==> id in w.rows)
    // the waiters of a task are released exactly when it has ended
    && (id in w.waiters ==> id in w.tasks && (w.waiters[id] <==> Terminal(w, id)))
    // a task runs once, and a run task is never pending again
    && CountRuns(w.runs, id) <= 1
    && (CountRuns(w.runs, id) > 0 ==> id in w.tasks && w.tasks[id].state != "pending")
    && (CountRuns(w.runs, id) > 0 && live == 0 ==> Terminal(w, id))
    // until Fail reaches it, a live run can be cancelled, and its task has not ended
    && (live > 0 && id !in w.hit ==> id in w.running && !Terminal(w, id))
    && (id in w.running ==> w.running[id] < |w.runs| && w.runs[w.running[id]].taskId == id && w.runs[w.running[id]].live)
    // one delivery when it ends; one more if Fail reached its run
    && (id in w.hit ==> CountRuns(w.runs, id) > 0 && id !in w.running && AllCancelled(w.runs, id))
    && CountDeliveries(w.deliveries, id) <= One(Terminal(w, id)) + One(id in w.hit && live == 0)
    // as many reports as attempts that stored one
    && CountReports(w.reports, id) == StoredFor(w.deliveries, id)
  }

  ghost predicate Inv(w: World) {
    forall id :: TaskOk(w, id)
  }

  // -------- counting --------

  lemma CountsAppend(runs: seq<Run>, run: Run, id: string)
    ensures CountRuns(runs + [run], id) == CountRuns(runs, id) + One(run.taskId == id)
    ensures CountLive(runs + [run], id) == CountLive(runs, id) + One(run.taskId == id && run.live)
  {
    assert (runs + [run])[..|runs + [run]| - 1] == runs;
  }

  lemma ReportsAppend(reports: seq<Report>, report: Report, id: string)
    ensures CountReports(reports + [report], id) == CountReports(reports, id) + One(report.taskId == id)
  {
    assert (reports + [report])[..|reports + [report]| - 1] == reports;
  }

  lemma {:induction false} ReportedCounts(reports: seq<Report>, report: Report, attempts: seq<Attempt>, id: string)
    ensures CountReports(Reported(reports, report, attempts), id)
            == CountReports(reports, id) + if report.taskId == id then Stored(attempts) else 0
  {
    hide CountReports;
    if attempts != [] {
      var front := attempts[..|attempts| - 1];
      ReportedCounts(reports, report, front, id);
      ReportsAppend(Reported(reports, report, front), report, id);
    }
  }

  /** A delivery adds one report for each attempt that stores one. */
  lemma ToldCounts(w: World, other: string, task: Task, attempts: seq<Attempt>, id: string)
    ensures var w' := Told(w, other, task, attempts);
            var stored := if other == id then Stored(Tried(task, attempts)) else 0;
            && CountReports(w'.reports, id) == CountReports(w.reports, id) + stored
            && CountDeliveries(w'.deliveries, id) == CountDeliveries(w.deliveries, id) + One(other == id)
            && StoredFor(w'.deliveries, id) == StoredFor(w.deliveries, id) + stored
  {
    ReportedCounts(w.reports, Report(other, task.state), Tried(task, attempts), id);
    var later := Told(w, other, task, attempts).deliveries;
    assert later[..|later| - 1] == w.deliveries;
    hide Reported, Tried, Stored, CountReports;
  }

  lemma {:induction false} CountsReplace(runs: seq<Run>, i: nat, run: Run, id: string)
    requires i < |runs| && run.taskId == runs[i].taskId
    ensures CountRuns(runs[i := run], id) == CountRuns(runs, id)
    ensures CountLive(runs[i := run], id) + One(runs[i].taskId == id && runs[i].live)
            == CountLive(runs, id) + One(run.taskId == id && run.live)
  {
    var front := runs[..|runs| - 1];
    if i == |runs| - 1 {
      assert runs[i := run][..|runs| - 1] == front;
    } else {
      assert runs[i := run][..|runs| - 1] == front[i := run];
      CountsReplace(front, i, run, id);
    }
  }

  lemma {:induction false} LiveIsRun(runs: seq<Run>, id: string)
    ensures CountLive(runs, id) <= CountRuns(runs, id)
    ensures CountLive(runs, id) > 0 <==> HasLiveRun(runs, id)
  {
    if runs != [] {
      var front, last := runs[..|runs| - 1], runs[|runs| - 1];
      LiveIsRun(front, id);
      if HasLiveRun(runs, id) && !(last.live && last.taskId == id) {
        var i :| 0 <= i < |runs| && runs[i].live && runs[i].taskId == id;
        assert front[i].live && front[i].taskId == id;
      }
      if HasLiveRun(front, id) {
        var i :| 0 <= i < |front| && front[i].live && front[i].taskId == id;
        assert runs[i].live && runs[i].taskId == id;
      }
    }
  }

  lemma {:induction false} TwoRunsCount(runs: seq<Run>, i: nat, j: nat)
    requires i < j < |runs| && runs[i].taskId == runs[j].taskId
    ensures CountRuns(runs, runs[i].taskId) >= 2
  {
    var front := runs[..|runs| - 1];
    if j < |runs| - 1 {
      TwoRunsCount(front, i, j);
    } else {
      assert front[i] == runs[i];
      RunCounts(front, i);
    }
  }

  lemma {:induction false} RunCounts(runs: seq<Run>, i: nat)
    requires i < |runs|
    ensures CountRuns(runs, runs[i].taskId) >= 1
  {
    if i < |runs| - 1 {
      RunCounts(runs[..|runs| - 1], i);
    }
  }

  lemma OnlyRun(runs: seq<Run>, i: nat)
    requires i < |runs| && CountRuns(runs, runs[i].taskId) <= 1
    ensures forall k :: 0 <= k < |runs| && runs[k].taskId == runs[i].taskId ==> k == i
  {
    hide CountRuns;
    forall k | 0 <= k < |runs| && runs[k].taskId == runs[i].taskId ensures k == i {
      if k < i {
        TwoRunsCount(runs, k, i);
      } else if i < k {
        TwoRunsCount(runs, i, k);
      }
    }
  }

  lemma CancelledCounts(runs: seq<Run>, i: nat, id: string)
    ensures CountRuns(Cancelled(runs, i), id) == CountRuns(runs, id)
    ensures CountLive(Cancelled(runs, i), id) == CountLive(runs, id)
    ensures |Cancelled(runs, i)| == |runs|
    ensures forall k :: 0 <= k < |runs| ==> Cancelled(runs, i)[k].taskId == runs[k].taskId && Cancelled(runs, i)[k].live == runs[k].live
    ensures forall k :: 0 <= k < |runs| ==> Cancelled(runs, i)[k].cancelled == (runs[k].cancelled || k == i) && Cancelled(runs, i)[k].exit == runs[k].exit
  {
    if i < |runs| {
      CountsReplace(runs, i, runs[i].(cancelled := true), id);
    }
  }

  // -------- each operation keeps it --------

  /** Reading a task from its row. */
  function Remembered(w: World, id: string, task: Task): World {
    w.(tasks := w.tasks[id := task])
  }

  lemma RememberKeeps(w: World, id: string, task: Task, other: string)
    requires TaskOk(w, other) && id in w.rows && (id in w.tasks ==> w.tasks[id] == task)
    ensures TaskOk(Remembered(w, id, task), other)
  {
    LiveIsRun(w.runs, other);
    hide CountRuns, CountLive, CountReports, CountDeliveries, StoredFor, IsTerminal;
  }

  lemma CreateKeeps(w: World, id: string, given: Task, writeOk: bool, other: string)
    requires TaskOk(w, other)
    ensures TaskOk(Create(w, id, given, writeOk), other)
  {
    LiveIsRun(w.runs, other);
    hide CountRuns, CountLive, CountReports, CountDeliveries, StoredFor, IsTerminal, IsBlank;
  }

  lemma LaunchKeeps(w: World, id: string, writeOk: bool, other: string)
    requires TaskOk(w, other) && TaskOk(w, id) && id in w.tasks && w.tasks[id].state == "pending"
    ensures TaskOk(Launched(w, id, w.tasks[id], writeOk), other)
  {
    CountsAppend(w.runs, Run(id, false, true, None), other);
    LiveIsRun(w.runs, other);
    hide CountRuns, CountLive, CountReports, CountDeliveries, StoredFor;
  }

  lemma StartKeeps(w: World, id: string, readOk: bool, hasRunner: bool, writeOk: bool, other: string)
    requires TaskOk(w, other) && TaskOk(w, id)
    ensures TaskOk(Start(w, id, readOk, hasRunner, writeOk), other)
  {
    hide TaskOk, Launched, IsBlank;
    var found := Loaded(w, id, readOk);
    if found.Some? {
      KnownHasRow(w, id, readOk);
      var task := if id in w.tasks then found.value else Normalized(found.value);
      RememberKeeps(w, id, task, other);
      RememberKeeps(w, id, task, id);
      if task.state == "pending" && hasRunner {
        LaunchKeeps(Remembered(w, id, task), id, writeOk, other);
      }
    }
  }

  lemma KnownHasRow(w: World, id: string, readOk: bool)
    requires TaskOk(w, id) && Loaded(w, id, readOk).Some?
    ensures id in w.rows
  {
  }

  lemma EndKeeps(w: World, id: string, task: Task, report: Attempt, other: string)
    requires TaskOk(w, other) && id in w.tasks && !Terminal(w, id) && IsTerminal(task.state)
    requires other == id ==> (CountLive(w.runs, id) == 0 || id in w.hit) && id !in w.running
    ensures TaskOk(Ended(w, id, task, report), other)
  {
    ToldCounts(w, id, task, [report], other);
    LiveIsRun(w.runs, other);
    hide CountRuns, CountLive, CountReports, CountDeliveries, StoredFor, Reported, Stored;
  }

  /** Fail takes the task's run away: it is cancelled and can no longer be. */
  function Struck(w: World, id: string): World {
    w.(hit := if HasLiveRun(w.runs, id) then w.hit + {id} else w.hit,
       runs := if id in w.running then Cancelled(w.runs, w.running[id]) else w.runs,
       running := w.running - {id})
  }

  lemma StrikeKeeps(w: World, id: string, other: string)
    requires TaskOk(w, other) && id in w.tasks && !Terminal(w, id)
    ensures TaskOk(Struck(w, id), other)
    ensures other == id ==> var w' := Struck(w, id); (CountLive(w'.runs, id) == 0 || id in w'.hit) && id !in w'.running
  {
    LiveIsRun(w.runs, other);
    if id in w.running {
      CancelledCounts(w.runs, w.running[id], other);
      if other == id {
        OnlyRun(w.runs, w.running[id]);
      }
    }
    hide CountRuns, CountLive, CountReports, CountDeliveries, StoredFor, IsTerminal, Cancelled, HasLiveRun;
  }

  lemma FailKeeps(w: World, id: string, text: string, readOk: bool, writeOk: bool, report: Attempt, other: string)
    requires TaskOk(w, other) && TaskOk(w, id)
    ensures TaskOk(Fail(w, id, text, readOk, writeOk, report), other)
  {
    hide TaskOk, Ended, IsBlank, TrimSpace, CountLive, HasLiveRun, Cancelled;
    var found := Loaded(w, id, readOk);
    if found.Some? {
      KnownHasRow(w, id, readOk);
      var task := if id in w.tasks then found.value else Normalized(found.value);
      RememberKeeps(w, id, task, other);
      var w1 := Remembered(w, id, task);
      if !IsTerminal(task.state) {
        StrikeKeeps(w1, id, other);
        if writeOk {
          var said := TrimSpace(text);
          var failed := task.(state := "failed", finalText := if said == "" then "Task failed." else said);
          EndKeeps(Struck(w1, id), id, failed, report, other);
        }
      }
    }
  }

  lemma CancelKeeps(w: World, id: string, readOk: bool, writeOk: bool, report: Attempt, other: string)
    requires TaskOk(w, other) && TaskOk(w, id)
    ensures TaskOk(Cancel(w, id, readOk, writeOk, report), other)
  {
    hide TaskOk, Ended, CountLive, Cancelled;
    var found := Loaded(w, id, readOk);
    if found.Some? {
      KnownHasRow(w, id, readOk);
      var task := found.value;
      RememberKeeps(w, id, task, other);
      RememberKeeps(w, id, task, id);
      var w1 := Remembered(w, id, task);
      if !IsTerminal(task.state) {
        if id in w1.running {
          CancelRunKeeps(w1, id, other);
        } else if writeOk {
          UnstoppableIsHit(w1, id);
          EndKeeps(w1, id, task.(state := "cancelled", finalText := "Task cancelled."), report, other);
        }
      }
    }
  }

  lemma CancelRunKeeps(w: World, id: string, other: string)
    requires TaskOk(w, other) && id in w.running
    ensures TaskOk(w.(runs := Cancelled(w.runs, w.running[id])), other)
  {
    CancelledCounts(w.runs, w.running[id], other);
    hide CountRuns, CountLive, CountReports, CountDeliveries, StoredFor, IsTerminal, Cancelled;
  }

  lemma UnstoppableIsHit(w: World, id: string)
    requires TaskOk(w, id) && id !in w.running
    ensures CountLive(w.runs, id) == 0 || id in w.hit
  {
  }

  lemma ReturnKeeps(w: World, i: nat, error: Option<string>, other: string)
    requires TaskOk(w, other)
    ensures TaskOk(ReturnRun(w, i, error), other)
  {
    if i < |w.runs| {
      CountsReplace(w.runs, i, w.runs[i].(exit := Some(Exit(w.runs[i].cancelled, error))), other);
    }
    hide CountRuns, CountLive, CountReports, CountDeliveries, StoredFor, IsTerminal;
  }

  lemma FinishKeeps(w: World, i: nat, readOk: bool, writeOk: bool, delivery: nat -> Attempt, other: string)
    requires TaskOk(w, other) && (i < |w.runs| ==> TaskOk(w, w.runs[i].taskId))
    ensures TaskOk(FinishRun(w, i, readOk, writeOk, delivery), other)
  {
    if i < |w.runs| && w.runs[i].live && w.runs[i].exit.Some? {
      var id := w.runs[i].taskId;
      RunIsKnown(w, i);
      var before := if readOk && id in w.rows then w.rows[id] else w.tasks[id];
      var task := Outcome(before, w.runs[i].exit.value.cancelled, w.runs[i].exit.value.error);
      FinishedTaskOk(w, i, task, writeOk, Made(delivery, 0), other);
    }
  }

  lemma RunIsKnown(w: World, i: nat)
    requires i < |w.runs| && TaskOk(w, w.runs[i].taskId)
    ensures w.runs[i].taskId in w.tasks
  {
    RunCounts(w.runs, i);
    hide CountRuns, CountLive, CountReports, CountDeliveries, StoredFor;
  }

  lemma FinishedTaskOk(w: World, i: nat, task: Task, writeOk: bool, attempts: seq<Attempt>, other: string)
    requires i < |w.runs| && w.runs[i].live && TaskOk(w, other) && IsTerminal(task.state)
    requires w.runs[i].taskId in w.tasks
    ensures TaskOk(Finished(w, i, task, writeOk, attempts), other)
  {
    var id := w.runs[i].taskId;
    CountsReplace(w.runs, i, w.runs[i].(live := false), other);
    LiveIsRun(w.runs, other);
    ToldCounts(w, id, task, attempts, other);
    hide CountRuns, CountLive, CountReports, HasLiveRun, CountDeliveries, StoredFor, Reported, Stored;
  }

  lemma WriteKeeps(w: World, i: nat, row: Task, other: string)
    requires TaskOk(w, other)
    ensures TaskOk(RunnerWrites(w, i, row), other)
  {
    hide CountRuns, CountLive, CountReports, CountDeliveries, StoredFor, IsTerminal;
  }

  lemma WaitKeeps(w: World, id: string, other: string)
    requires TaskOk(w, other)
    ensures TaskOk(Wait(w, id).0, other)
  {
    hide CountRuns, CountLive, CountReports, CountDeliveries, StoredFor, IsTerminal;
  }

  lemma StepKeepsInv(w: World, a: Action)
    requires Inv(w)
    ensures Inv(Step(w, a))
  {
    hide TaskOk, Create, Start, Fail, Cancel, ReturnRun, FinishRun, RunnerWrites, Wait;
    forall other ensures TaskOk(Step(w, a), other) {
      assert TaskOk(w, other);
      match a
      case Creates(id, given, writeOk) => CreateKeeps(w, id, given, writeOk, other);
      case Starts(id, readOk, hasRunner, writeOk) => assert TaskOk(w, id); StartKeeps(w, id, readOk, hasRunner, writeOk, other);
      case Fails(id, text, readOk, writeOk, report) => assert TaskOk(w, id); FailKeeps(w, id, text, readOk, writeOk, report, other);
      case Cancels(id, readOk, writeOk, report) => assert TaskOk(w, id); CancelKeeps(w, id, readOk, writeOk, report, other);
      case Returned(run, error) => ReturnKeeps(w, run, error, other);
      case Finishes(run, readOk, writeOk, delivery) =>
        assert run < |w.runs| ==> TaskOk(w, w.runs[run].taskId);
        FinishKeeps(w, run, readOk, writeOk, delivery, other);
      case Writes(run, row) => WriteKeeps(w, run, row, other);
      case Waits(id) => WaitKeeps(w, id, other);
    }
  }

  lemma FreshIsOk(rows: map<string, Task>)
    ensures Inv(Fresh(rows))
  {
  }

  lemma {:induction false} AfterKeepsInv(rows: map<string, Task>, actions: seq<Action>)
    ensures Inv(After(Fresh(rows), actions))
  {
    hide Inv, Step, Fresh;
    if actions == [] {
      FreshIsOk(rows);
    } else {
      AfterKeepsInv(rows, actions[..|actions| - 1]);
      StepKeepsInv(After(Fresh(rows), actions[..|actions| - 1]), actions[|actions| - 1]);
    }
  }

  // -------- what holds after any actions --------

  /** A task runs at most once. */
  lemma RunsAtMostOnce(rows: map<string, Task>, actions: seq<Action>, i: nat, j: nat)
    requires var w := After(Fresh(rows), actions); i < |w.runs| && j < |w.runs| && w.runs[i].taskId == w.runs[j].taskId
    ensures i == j
  {
    hide After, Fresh;
    AfterKeepsInv(rows, actions);
    var w := After(Fresh(rows), actions);
    assert TaskOk(w, w.runs[i].taskId);
    hide TaskOk;
    if i < j {
      TwoRunsCount(w.runs, i, j);
    } else if j < i {
      TwoRunsCount(w.runs, j, i);
    }
  }

  /** A task is delivered at most once, or twice if Fail reached it while it ran; never before it ended; each attempt that stores adds a report. */
  lemma ReportedAsOftenAsStored(rows: map<string, Task>, actions: seq<Action>, id: string)
    ensures var w := After(Fresh(rows), actions);
            && CountReports(w.reports, id) == StoredFor(w.deliveries, id)
            && CountDeliveries(w.deliveries, id) <= 1 + One(id in w.hit)
            && (CountReports(w.reports, id) > 0 ==> Terminal(w, id))
  {
    hide After, Fresh, IsTerminal;
    AfterKeepsInv(rows, actions);
    var w := After(Fresh(rows), actions);
    assert TaskOk(w, id);
    LiveIsRun(w.runs, id);
    NothingStored(w.deliveries, id);
    hide CountRuns, CountLive, CountReports, CountDeliveries, StoredFor;
  }

  lemma {:induction false} NothingStored(deliveries: seq<Delivery>, id: string)
    ensures CountDeliveries(deliveries, id) == 0 ==> StoredFor(deliveries, id) == 0
  {
    if deliveries != [] {
      NothingStored(deliveries[..|deliveries| - 1], id);
    }
  }

  /** Who waits for a task is released exactly when it has ended. */
  lemma WaitersAreReleasedAtTheEnd(rows: map<string, Task>, actions: seq<Action>, id: string)
    ensures var w := After(Fresh(rows), actions);
            && (id in w.waiters ==> (w.waiters[id] <==> Terminal(w, id)))
            && (Terminal(w, id) ==> Wait(w, id).1 == Returns(w.tasks[id]))
            && (Wait(w, id).1 == Blocked ==> id in w.tasks && !Terminal(w, id) && id in Wait(w, id).0.waiters && !Wait(w, id).0.waiters[id])
  {
    hide After, Fresh, IsTerminal, CountRuns, CountLive, CountReports;
    AfterKeepsInv(rows, actions);
    assert TaskOk(After(Fresh(rows), actions), id);
  }

  /** Whoever waited for a task and gives up gets it exactly if its channel is closed by then, which is when it has ended. */
  lemma GivesUpExactlyWhileOpen(rows: map<string, Task>, actions: seq<Action>, more: seq<Action>, id: string)
    requires id in After(Fresh(rows), actions).waiters
    ensures var w := After(Fresh(rows), actions + more);
            && id in w.waiters && (w.waiters[id] <==> Terminal(w, id))
            && GiveUp(w, id) == if w.waiters[id] then Returns(w.tasks[id]) else GivenUp
  {
    hide After, Fresh, IsTerminal;
    WaitersStay(Fresh(rows), actions, more, id);
    WaitersAreReleasedAtTheEnd(rows, actions + more, id);
  }

  lemma EndedStaysEnded(w: World, a: Action, id: string)
    requires TaskOk(w, id) && Terminal(w, id)
    ensures Terminal(Step(w, a), id)
  {
    hide CountRuns, CountLive, CountReports, CountDeliveries, StoredFor, HasLiveRun, Cancelled, IsBlank, TrimSpace;
  }

  /** A task that has ended has ended for good. */
  lemma {:induction false} EndedForGood(rows: map<string, Task>, actions: seq<Action>, more: seq<Action>, id: string)
    requires Terminal(After(Fresh(rows), actions), id)
    ensures Terminal(After(Fresh(rows), actions + more), id)
    decreases |more|
  {
    hide Fresh, Terminal, Step, Inv, TaskOk;
    if more == [] {
      assert actions + more == actions;
    } else {
      var front := more[..|more| - 1];
      EndedForGood(rows, actions, front, id);
      AfterKeepsInv(rows, actions + front);
      InvAt(After(Fresh(rows), actions + front), id);
      EndedStaysEnded(After(Fresh(rows), actions + front), more[|more| - 1], id);
      assert (actions + more)[..|actions + more| - 1] == actions + front;
    }
  }

  lemma InvAt(w: World, id: string)
    requires Inv(w)
    ensures TaskOk(w, id)
  {
  }

  /** Whoever is blocked on a task when it ends is released: the channel it waits on is closed. */
  lemma BlockedIsReleased(rows: map<string, Task>, actions: seq<Action>, more: seq<Action>, id: string)
    requires var w := After(Fresh(rows), actions); id in w.waiters
    requires Terminal(After(Fresh(rows), actions + more), id)
    ensures var w' := After(Fresh(rows), actions + more); id in w'.waiters && w'.waiters[id]
  {
    hide After, Fresh, IsTerminal, CountRuns, CountLive, CountReports;
    AfterKeepsInv(rows, actions + more);
    assert TaskOk(After(Fresh(rows), actions + more), id);
    WaitersStay(Fresh(rows), actions, more, id);
  }

  lemma {:induction false} WaitersStay(w: World, actions: seq<Action>, more: seq<Action>, id: string)
    requires id in After(w, actions).waiters
    ensures id in After(w, actions + more).waiters
    decreases |more|
  {
    hide Step;
    if more == [] {
      assert actions + more == actions;
    } else {
      var front := more[..|more| - 1];
      WaitersStay(w, actions, front, id);
      StepKeepsWaiter(After(w, actions + front), more[|more| - 1], id);
      assert (actions + more)[..|actions + more| - 1] == actions + front;
    }
  }

  lemma StepKeepsWaiter(w: World, a: Action, id: string)
    requires id in w.waiters
    ensures id in Step(w, a).waiters
  {
    hide HasLiveRun, Cancelled, IsBlank, TrimSpace, IsTerminal;
  }
}
