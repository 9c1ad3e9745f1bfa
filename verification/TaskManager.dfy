// Background tasks: states, waiters, runs and reports, as functions of one table and
// as the class that updates it (internal/v2/tasks/manager.go).
module TaskManager {
  import opened Basics
  import opened Text

  /** A task row; reported tells whether it names a session to report to. */
  datatype Task = Task(state: string, finalText: string, reported: bool)

  /** A goroutine that runs a task, with its context's cancelled flag. */
  datatype Run = Run(taskId: string, cancelled: bool, live: bool, exit: Option<Exit>)

  /** What runTask hands to finishRun: its context's state and the runner's error, taken before finishRun waits for the lock. */
  datatype Exit = Exit(cancelled: bool, error: Option<string>)

  datatype Report = Report(taskId: string, state: string)

  /** One call of the reporter: whether it stored a report, and the error it returned. It may do both. */
  datatype Attempt = Attempt(stored: bool, error: Option<StoreError>)

  /** The calls of the reporter when a task ended; none for a task without a session. */
  datatype Delivery = Delivery(taskId: string, attempts: seq<Attempt>)

  const BUSY_RETRY_LIMIT := 20

  predicate IsTerminal(state: string) {
    state == "completed" || state == "failed" || state == "cancelled"
  }

  /**
   The manager's maps, the store's rows, the runs ever begun, the reports ever stored, the
   tasks that Fail reached while they had a live run, and the deliveries ever made.
   */
  datatype World = World(
    tasks: map<string, Task>,
    rows: map<string, Task>,
    running: map<string, nat>,
    waiters: map<string, bool>,
    runs: seq<Run>,
    reports: seq<Report>,
    hit: set<string>,
    deliveries: seq<Delivery>)

  function Normalized(task: Task): Task {
    if IsBlank(task.state) then task.(state := "pending") else task
  }

  /** The channel of a task is made when first asked for; closing it twice is harmless. */
  function Waiter(waiters: map<string, bool>, id: string, closed: bool): map<string, bool> {
    waiters[id := closed || (id in waiters && waiters[id])]
  }

  function Cancelled(runs: seq<Run>, i: nat): seq<Run> {
    if i < |runs| then runs[i := runs[i].(cancelled := true)] else runs
  }

  predicate HasLiveRun(runs: seq<Run>, id: string) {
    exists i :: 0 <= i < |runs| && runs[i].live && runs[i].taskId == id
  }

  /** retryDatabaseBusy from attempt n on: a further attempt follows a busy one, up to the limit. */
  function Made(delivery: nat -> Attempt, n: nat): (made: seq<Attempt>)
    requires n <= BUSY_RETRY_LIMIT
    ensures 1 <= |made| <= BUSY_RETRY_LIMIT + 1 - n
    ensures forall k :: 0 <= k < |made| ==> made[k] == delivery(n + k)
    decreases BUSY_RETRY_LIMIT - n
  {
    [delivery(n)] + if delivery(n).error == Some(DatabaseBusy) && n < BUSY_RETRY_LIMIT then Made(delivery, n + 1) else []
  }

  /** Every attempt that stores adds a report. */
  function Reported(reports: seq<Report>, report: Report, attempts: seq<Attempt>): seq<Report> {
    if attempts == [] then reports
    else
      var before := Reported(reports, report, attempts[..|attempts| - 1]);
      if attempts[|attempts| - 1].stored then before + [report] else before
  }

  /** A task that names no session is not reported. */
  function Tried(task: Task, attempts: seq<Attempt>): seq<Attempt> {
    if task.reported then attempts else []
  }

  /** The report of a task that has ended, delivered by these attempts. */
  function Told(w: World, id: string, task: Task, attempts: seq<Attempt>): World {
    w.(reports := Reported(w.reports, Report(id, task.state), Tried(task, attempts)),
       deliveries := w.deliveries + [Delivery(id, Tried(task, attempts))])
  }

  /** The task in memory, else its row, read now; None when that fails or there is none. */
  function Loaded(w: World, id: string, readOk: bool): Option<Task> {
    if id in w.tasks then Some(w.tasks[id]) else if readOk && id in w.rows then Some(w.rows[id]) else None
  }

  // -------- operations --------

  function Create(w: World, id: string, given: Task, writeOk: bool): World {
    if id in w.rows || !writeOk then w
    else
      var task := Normalized(given);
      w.(rows := w.rows[id := task], tasks := w.tasks[id := task], waiters := Waiter(w.waiters, id, IsTerminal(task.state)))
  }

  function Start(w: World, id: string, readOk: bool, hasRunner: bool, writeOk: bool): World {
    var found := Loaded(w, id, readOk);
    if found.None? then w
    else
      var task := if id in w.tasks then found.value else Normalized(found.value);
      var w1 := w.(tasks := w.tasks[id := task]);
      if task.state != "pending" || !hasRunner then w1 else Launched(w1, id, task, writeOk)
  }

  /** A pending task begins to run, unless its row cannot be written. */
  function Launched(w: World, id: string, task: Task, writeOk: bool): World {
    if !writeOk then w.(waiters := Waiter(w.waiters, id, false), running := w.running - {id})
    else
      var started := task.(state := "running");
      w.(tasks := w.tasks[id := started], rows := w.rows[id := started], waiters := Waiter(w.waiters, id, false),
         running := w.running[id := |w.runs|], runs := w.runs + [Run(id, false, true, None)])
  }

  /** What Fail and Cancel leave when they end a task themselves. */
  function Ended(w: World, id: string, task: Task, report: Attempt): World {
    Told(w, id, task, [report]).(rows := w.rows[id := task], tasks := w.tasks[id := task], waiters := Waiter(w.waiters, id, true))
  }

  function Fail(w: World, id: string, text: string, readOk: bool, writeOk: bool, report: Attempt): World {
    var found := Loaded(w, id, readOk);
    if found.None? then w
    else
      var task := if id in w.tasks then found.value else Normalized(found.value);
      var w1 := w.(tasks := w.tasks[id := task]);
      if IsTerminal(task.state) then w1
      else
        var w2 := w1.(hit := if HasLiveRun(w1.runs, id) then w1.hit + {id} else w1.hit,
                      runs := if id in w1.running then Cancelled(w1.runs, w1.running[id]) else w1.runs,
                      running := w1.running - {id});
        if !writeOk then w2
        else
          var said := TrimSpace(text);
          Ended(w2, id, task.(state := "failed", finalText := if said == "" then "Task failed." else said), report)
  }

  function Cancel(w: World, id: string, readOk: bool, writeOk: bool, report: Attempt): World {
    var found := Loaded(w, id, readOk);
    if found.None? then w
    else
      var task := found.value;
      var w1 := w.(tasks := w.tasks[id := task]);
      if IsTerminal(task.state) then w1
      else if id in w1.running then w1.(runs := Cancelled(w1.runs, w1.running[id]))
      else if !writeOk then w1
      else Ended(w1, id, task.(state := "cancelled", finalText := "Task cancelled."), report)
  }

  function Outcome(task: Task, cancelled: bool, error: Option<string>): Task {
    var state := if cancelled then "cancelled" else if error.Some? then "failed" else "completed";
    var text := if cancelled then "Task cancelled."
                else if error.Some? then "Task failed: " + error.value
                else "Task completed successfully.";
    task.(state := state, finalText := if IsBlank(task.finalText) then text else task.finalText)
  }

  /** Run i's runner returns; its goroutine looks at its context and goes on to finishRun. */
  function ReturnRun(w: World, i: nat, error: Option<string>): World {
    if i < |w.runs| && w.runs[i].live && w.runs[i].exit.None? then
      w.(runs := w.runs[i := w.runs[i].(exit := Some(Exit(w.runs[i].cancelled, error)))])
    else w
  }

  /**
   Run i, once returned, is finished: finishRun under the lock, with the row as it is now, if it can
   be read. The write is tried again while the database is busy, and so is the delivery.
   */
  function FinishRun(w: World, i: nat, readOk: bool, writeOk: bool, delivery: nat -> Attempt): World {
    if i >= |w.runs| || !w.runs[i].live || w.runs[i].exit.None? then w
    else
      var run := w.runs[i];
      var id := run.taskId;
      if id !in w.tasks then w.(runs := w.runs[i := run.(live := false)])
      else
        var before := if readOk && id in w.rows then w.rows[id] else w.tasks[id];
        Finished(w, i, Outcome(before, run.exit.value.cancelled, run.exit.value.error), writeOk, Made(delivery, 0))
  }

  /** The run is over and its task is what finishRun made of it. */
  function Finished(w: World, i: nat, task: Task, writeOk: bool, attempts: seq<Attempt>): World
    requires i < |w.runs|
  {
    var id := w.runs[i].taskId;
    Told(w, id, task, attempts).(
      runs := w.runs[i := w.runs[i].(live := false)],
      rows := if writeOk then w.rows[id := task] else w.rows,
      running := w.running - {id},
      tasks := w.tasks[id := task],
      waiters := Waiter(w.waiters, id, true))
  }

  /** A runner writes to its task's row while it runs. */
  function RunnerWrites(w: World, i: nat, row: Task): World {
    if i < |w.runs| && w.runs[i].live && w.runs[i].exit.None? && w.runs[i].taskId in w.rows then
      w.(rows := w.rows[w.runs[i].taskId := row])
    else w
  }

  datatype Waiting = NotFound | Returns(task: Task) | Blocked | GivenUp

  /** One pass of Wait's loop, and the channel it makes when it blocks. */
  function Wait(w: World, id: string): (World, Waiting) {
    if id !in w.tasks then (w, NotFound)
    else if IsTerminal(w.tasks[id].state) then (w, Returns(w.tasks[id]))
    else (w.(waiters := Waiter(w.waiters, id, false)), Blocked)
  }

  /** A blocked Wait whose caller gives up looks at the task once more. */
  function GiveUp(w: World, id: string): Waiting {
    if id in w.tasks && IsTerminal(w.tasks[id].state) then Returns(w.tasks[id]) else GivenUp
  }

  lemma ReportedNext(reports: seq<Report>, report: Report, attempts: seq<Attempt>, k: nat)
    requires k < |attempts|
    ensures Reported(reports, report, attempts[..k + 1])
            == Reported(Reported(reports, report, attempts[..k]), report, [attempts[k]])
  {
    assert attempts[..k + 1][..k] == attempts[..k] && [attempts[k]][..0] == [];
  }

  // -------- the manager --------

  class Manager {
    var tasks: map<string, Task>
    var rows: map<string, Task>
    var running: map<string, nat>
    var waiters: map<string, bool>
    var runs: seq<Run>
    var reports: seq<Report>
    ghost var hit: set<string>
    ghost var deliveries: seq<Delivery>

    ghost function Now(): World
      reads this
    {
      World(tasks, rows, running, waiters, runs, reports, hit, deliveries)
    }

    constructor (stored: map<string, Task>)
      ensures Now() == World(map[], stored, map[], map[], [], [], {}, [])
    {
      tasks, rows, running, waiters, runs, reports := map[], stored, map[], map[], [], [];
      hit, deliveries := {}, [];
    }

    method WaiterLocked(id: string, closed: bool)
      modifies this`waiters
      ensures waiters == Waiter(old(waiters), id, closed)
    {
      if id !in waiters {
        waiters := waiters[id := false];
      }
      if closed {
        waiters := waiters[id := true];
      }
    }

    /** One call of the reporter, unless the task names no session. */
    method DeliverReportLocked(id: string, task: Task, report: Attempt) returns (error: Option<StoreError>)
      modifies this`reports
      ensures reports == Reported(old(reports), Report(id, task.state), Tried(task, [report]))
      ensures error == if task.reported then report.error else None
    {
      assert [report][..0] == [];
      if !task.reported {
        return None;
      }
      if report.stored {
        reports := reports + [Report(id, task.state)];
      }
      return report.error;
    }

    /** The loop of retryDatabaseBusy around the delivery; the last attempt's error is its own. */
    method DeliverRetrying(id: string, task: Task, delivery: nat -> Attempt) returns (error: Option<StoreError>)
      modifies this`reports
      ensures reports == Reported(old(reports), Report(id, task.state), Tried(task, Made(delivery, 0)))
      ensures error == if task.reported then Made(delivery, 0)[|Made(delivery, 0)| - 1].error else None
    {
      ghost var made, report := Made(delivery, 0), Report(id, task.state);
      for attempt := 0 to BUSY_RETRY_LIMIT + 1
        invariant task.reported ==> attempt < |made| && made[attempt..] == Made(delivery, attempt)
        invariant !task.reported ==> attempt == 0
        invariant reports == Reported(old(reports), report, Tried(task, made[..attempt]))
      {
        error := DeliverReportLocked(id, task, delivery(attempt));
        if task.reported {
          ReportedNext(old(reports), report, made, attempt);
        }
        if error != Some(DatabaseBusy) || attempt == BUSY_RETRY_LIMIT {
          assert task.reported ==> made[..attempt + 1] == made;
          return;
        }
        assert made[attempt + 1..] == Made(delivery, attempt)[1..];
      }
    }

    method CreateTask(id: string, given: Task, writeOk: bool) returns (ok: bool)
      modifies this
      ensures Now() == Create(old(Now()), id, given, writeOk)
      ensures ok <==> writeOk && id !in old(rows)
    {
      hide IsTerminal;
      var task := Normalized(given);
      if id in rows || !writeOk {
        return false;
      }
      rows := rows[id := task];
      tasks := tasks[id := task];
      WaiterLocked(id, IsTerminal(task.state));
      ok := true;
    }

    method StartTask(id: string, readOk: bool, hasRunner: bool, writeOk: bool) returns (ok: bool)
      modifies this
      ensures Now() == Start(old(Now()), id, readOk, hasRunner, writeOk)
      ensures ok <==> |runs| == |old(runs)| + 1
    {
      hide IsBlank, Launched;
      if id !in tasks {
        if !readOk || id !in rows {
          return false;
        }
        tasks := tasks[id := Normalized(rows[id])];
      }
      var task := tasks[id];
      assert tasks == old(tasks)[id := task];
      if task.state != "pending" || !hasRunner {
        return false;
      }
      ok := Launch(id, task, writeOk);
    }

    method Launch(id: string, task: Task, writeOk: bool) returns (ok: bool)
      requires id in tasks && tasks[id] == task
      modifies this
      ensures Now() == Launched(old(Now()), id, task, writeOk)
      ensures ok <==> |runs| == |old(runs)| + 1
    {
      var started := task.(state := "running");
      tasks := tasks[id := started];
      running := running[id := |runs|];
      WaiterLocked(id, false);
      if !writeOk {
        running := running - {id};
        tasks := tasks[id := task];
        assert running == old(running) - {id} && tasks == old(tasks);
        return false;
      }
      rows := rows[id := started];
      runs := runs + [Run(id, false, true, None)];
      ok := true;
    }

    /** Stores, reports, then wakes the waiters. */
    method End(id: string, task: Task, report: Attempt) returns (error: Option<StoreError>)
      modifies this
      ensures Now() == Ended(old(Now()), id, task, report)
      ensures error == if task.reported then report.error else None
    {
      rows := rows[id := task];
      error := DeliverReportLocked(id, task, report);
      deliveries := deliveries + [Delivery(id, Tried(task, [report]))];
      tasks := tasks[id := task];
      WaiterLocked(id, true);
    }

    /** The error is that of the delivery; a report may have been stored all the same. */
    /** Fail takes the run away from the map and cancels its context. */
    method CancelRunLocked(id: string)
      modifies this`hit, this`running, this`runs
      ensures Now() == old(Now()).(hit := if HasLiveRun(old(runs), id) then old(hit) + {id} else old(hit),
                                   runs := if id in old(running) then Cancelled(old(runs), old(running)[id]) else old(runs),
                                   running := old(running) - {id})
    {
      hide HasLiveRun, Cancelled;
      if HasLiveRun(runs, id) {
        hit := hit + {id};
      }
      if id in running {
        var i := running[id];
        running := running - {id};
        runs := Cancelled(runs, i);
      }
      assert running == old(running) - {id};
    }

    method FailTask(id: string, text: string, readOk: bool, writeOk: bool, report: Attempt) returns (error: Option<StoreError>)
      modifies this
      ensures Now() == Fail(old(Now()), id, text, readOk, writeOk, report)
      ensures error.Some? ==> error == report.error && |deliveries| == |old(deliveries)| + 1
    {
      hide IsBlank, TrimSpace, IsTerminal, HasLiveRun, Cancelled, Normalized;
      error := None;
      if id !in tasks {
        if !readOk || id !in rows {
          return;
        }
        tasks := tasks[id := Normalized(rows[id])];
      }
      var task := tasks[id];
      assert tasks == old(tasks)[id := task];
      if IsTerminal(task.state) {
        return;
      }
      CancelRunLocked(id);
      if !writeOk {
        return;
      }
      var said := TrimSpace(text);
      var failed := task.(state := "failed", finalText := said);
      if failed.finalText == "" {
        failed := failed.(finalText := "Task failed.");
      }
      error := End(id, failed, report);
    }

    method CancelTask(id: string, readOk: bool, writeOk: bool, report: Attempt) returns (error: Option<StoreError>)
      modifies this
      ensures Now() == Cancel(old(Now()), id, readOk, writeOk, report)
      ensures error.Some? ==> error == report.error && |deliveries| == |old(deliveries)| + 1
    {
      hide IsTerminal;
      error := None;
      if id !in tasks {
        if !readOk || id !in rows {
          return;
        }
        tasks := tasks[id := rows[id]];
      }
      var task := tasks[id];
      assert tasks == old(tasks)[id := task];
      if IsTerminal(task.state) {
        return;
      }
      if id in running {
        runs := Cancelled(runs, running[id]);
        return;
      }
      if !writeOk {
        return;
      }
      error := End(id, task.(state := "cancelled", finalText := "Task cancelled."), report);
    }

    method DecideOutcome(before: Task, cancelled: bool, error: Option<string>) returns (task: Task)
      ensures task == Outcome(before, cancelled, error)
    {
      hide IsBlank;
      var text;
      if cancelled {
        task, text := before.(state := "cancelled"), "Task cancelled.";
      } else if error.Some? {
        task, text := before.(state := "failed"), "Task failed: " + error.value;
      } else {
        task, text := before.(state := "completed"), "Task completed successfully.";
      }
      if IsBlank(task.finalText) {
        task := task.(finalText := text);
      }
    }

    /** runTask once the runner has returned, up to the call of finishRun. */
    method RunTaskReturns(i: nat, error: Option<string>)
      modifies this`runs
      ensures Now() == ReturnRun(old(Now()), i, error)
    {
      if i < |runs| && runs[i].live && runs[i].exit.None? {
        var ctxErr := runs[i].cancelled;
        runs := runs[i := runs[i].(exit := Some(Exit(ctxErr, error)))];
      }
    }

    method FinishRunOf(i: nat, readOk: bool, writeOk: bool, delivery: nat -> Attempt)
      modifies this
      ensures Now() == FinishRun(old(Now()), i, readOk, writeOk, delivery)
    {
      hide Outcome, Made, Reported;
      if i >= |runs| || !runs[i].live || runs[i].exit.None? {
        return;
      }
      var run := runs[i];
      var id := run.taskId;
      runs := runs[i := run.(live := false)];
      if id !in tasks {
        return;
      }
      var task := tasks[id];
      if readOk && id in rows {
        task := rows[id];
      }
      task := DecideOutcome(task, run.exit.value.cancelled, run.exit.value.error);
      if writeOk {
        rows := rows[id := task];
      }
      var error := DeliverRetrying(id, task, delivery);
      deliveries := deliveries + [Delivery(id, Tried(task, Made(delivery, 0)))];
      running := running - {id};
      tasks := tasks[id := task];
      WaiterLocked(id, true);
    }

    method WaitOnce(id: string) returns (r: Waiting)
      modifies this`waiters
      ensures (Now(), r) == Wait(old(Now()), id)
    {
      hide IsTerminal;
      if id !in tasks {
        return NotFound;
      }
      var task := tasks[id];
      if IsTerminal(task.state) {
        return Returns(task);
      }
      WaiterLocked(id, false);
      r := Blocked;
    }

    method WaitGivesUp(id: string) returns (r: Waiting)
      ensures r == GiveUp(Now(), id)
    {
      if id in tasks && IsTerminal(tasks[id].state) {
        return Returns(tasks[id]);
      }
      return GivenUp;
    }
  }
}
