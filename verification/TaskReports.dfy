/** How often an ended task is reported (internal/v2/tasks/manager.go). */
module TaskReports {
  import opened Basics
  import opened Text
  import opened TaskManager
  import opened TaskTheorems

  predicate StoredButBusy(a: Attempt) {
    a.stored && a.error == Some(DatabaseBusy)
  }

  /** No attempt follows one that had already stored its report. */
  ghost predicate NoneAfterStored(attempts: seq<Attempt>) {
    forall k :: 0 <= k < |attempts| - 1 ==> !attempts[k].stored
  }

  /** An attempt follows only a busy one, and there are twenty-one at most. */
  ghost predicate Retried(attempts: seq<Attempt>) {
    |attempts| <= BUSY_RETRY_LIMIT + 1 && forall k :: 0 <= k < |attempts| - 1 ==> attempts[k].error == Some(DatabaseBusy)
  }

  // -------- one delivery --------

  lemma {:induction false} StoredAtMost(attempts: seq<Attempt>)
    ensures Stored(attempts) <= |attempts|
    ensures NoneAfterStored(attempts) ==> Stored(attempts) <= 1
    ensures (forall k :: 0 <= k < |attempts| ==> !attempts[k].stored) ==> Stored(attempts) == 0
    ensures (forall k :: 0 <= k < |attempts| ==> attempts[k].stored) ==> Stored(attempts) == |attempts|
  {
    if attempts != [] {
      var front := attempts[..|attempts| - 1];
      assert forall k :: 0 <= k < |front| ==> front[k] == attempts[k];
      StoredAtMost(front);
    }
  }

  lemma {:induction false} MadeIsRetried(delivery: nat -> Attempt, n: nat)
    requires n <= BUSY_RETRY_LIMIT
    ensures var made := Made(delivery, n);
            forall k :: 0 <= k < |made| - 1 ==> made[k].error == Some(DatabaseBusy)
    decreases BUSY_RETRY_LIMIT - n
  {
    if delivery(n).error == Some(DatabaseBusy) && n < BUSY_RETRY_LIMIT {
      MadeIsRetried(delivery, n + 1);
      assert Made(delivery, n) == [delivery(n)] + Made(delivery, n + 1);
    }
  }

  lemma MadeRetries(delivery: nat -> Attempt)
    ensures Retried(Made(delivery, 0))
  {
    MadeIsRetried(delivery, 0);
  }

  /** A run that is finished adds exactly as many reports of its task as attempts that stored one. */
  lemma FinishReports(w: World, i: nat, readOk: bool, writeOk: bool, delivery: nat -> Attempt, id: string)
    requires i < |w.runs| && w.runs[i].live && w.runs[i].exit.Some? && w.runs[i].taskId in w.tasks
    ensures var own := w.runs[i].taskId;
            var before := if readOk && own in w.rows then w.rows[own] else w.tasks[own];
            CountReports(FinishRun(w, i, readOk, writeOk, delivery).reports, id)
            == CountReports(w.reports, id) + if own == id && before.reported then Stored(Made(delivery, 0)) else 0
  {
    hide CountReports, Stored, Made, Reported;
    var own := w.runs[i].taskId;
    var before := if readOk && own in w.rows then w.rows[own] else w.tasks[own];
    var task := Outcome(before, w.runs[i].exit.value.cancelled, w.runs[i].exit.value.error);
    ToldCounts(w, own, task, Made(delivery, 0), id);
    NoneStored();
  }

  lemma NoneStored()
    ensures Stored([]) == 0
  {
  }

  // -------- over all runs --------

  ghost predicate EachRetried(deliveries: seq<Delivery>) {
    forall k :: 0 <= k < |deliveries| ==> Retried(deliveries[k].attempts)
  }

  ghost predicate NoneAfterStoredFor(deliveries: seq<Delivery>, id: string) {
    forall k :: 0 <= k < |deliveries| && deliveries[k].taskId == id ==> NoneAfterStored(deliveries[k].attempts)
  }

  /** What one step adds to the deliveries: nothing, one attempt, or those made of an oracle's. */
  lemma StepDelivers(w: World, a: Action)
    ensures var later := Step(w, a).deliveries;
            || later == w.deliveries
            || exists d :: later == w.deliveries + [d] && (d.attempts == [] || d.attempts == AttemptsOf(a))
  {
    hide Made, Reported;
    var later := Step(w, a).deliveries;
    if |later| > |w.deliveries| {
      var d := later[|w.deliveries|];
      assert later == w.deliveries + [d] && (d.attempts == [] || d.attempts == AttemptsOf(a));
    }
  }

  /** The attempts an action makes if it ends a task that is to be reported. */
  function AttemptsOf(a: Action): seq<Attempt> {
    match a
    case Fails(_, _, _, _, report) => [report]
    case Cancels(_, _, _, report) => [report]
    case Finishes(_, _, _, delivery) => Made(delivery, 0)
    case _ => []
  }

  /** The attempts that may happen when the action is taken. */
  ghost predicate Allows(allowed: Attempt -> bool, a: Action) {
    match a
    case Fails(_, _, _, _, report) => allowed(report)
    case Cancels(_, _, _, report) => allowed(report)
    case Finishes(_, _, _, delivery) => forall n :: allowed(delivery(n))
    case _ => true
  }

  ghost predicate AllowsAll(allowed: Attempt -> bool, actions: seq<Action>) {
    forall k :: 0 <= k < |actions| ==> Allows(allowed, actions[k])
  }

  lemma AttemptsAreRetried(a: Action)
    ensures Retried(AttemptsOf(a))
  {
    if a.Finishes? {
      MadeRetries(a.delivery);
    }
  }

  lemma {:induction false} DeliveriesAreRetried(w: World, actions: seq<Action>)
    requires EachRetried(w.deliveries)
    ensures EachRetried(After(w, actions).deliveries)
  {
    hide Step, Retried;
    if actions != [] {
      var v, a := After(w, actions[..|actions| - 1]), actions[|actions| - 1];
      DeliveriesAreRetried(w, actions[..|actions| - 1]);
      StepDelivers(v, a);
      AttemptsAreRetried(a);
      NoAttempts();
    }
  }

  lemma NoAttempts()
    ensures Retried([]) && NoneAfterStored([])
  {
  }

  lemma {:induction false} StoredForAtMost(deliveries: seq<Delivery>, id: string)
    ensures EachRetried(deliveries) ==> StoredFor(deliveries, id) <= (BUSY_RETRY_LIMIT + 1) * CountDeliveries(deliveries, id)
    ensures NoneAfterStoredFor(deliveries, id) ==> StoredFor(deliveries, id) <= CountDeliveries(deliveries, id)
  {
    hide Stored, NoneAfterStored;
    if deliveries != [] {
      var front, last := deliveries[..|deliveries| - 1], deliveries[|deliveries| - 1];
      assert forall k :: 0 <= k < |front| ==> front[k] == deliveries[k];
      assert last == deliveries[|front|];
      StoredForAtMost(front, id);
      StoredAtMost(last.attempts);
    }
  }

  /** A task is reported once, or twice if Fail reached it while it ran, as long as no attempt follows one that had stored its report; and never more than twenty-one times for each delivery. */
  lemma ReportedAtMostOnce(rows: map<string, Task>, actions: seq<Action>, id: string)
    ensures var w := After(Fresh(rows), actions);
            && (NoneAfterStoredFor(w.deliveries, id) ==> CountReports(w.reports, id) <= 1 + One(id in w.hit))
            && CountReports(w.reports, id) <= (BUSY_RETRY_LIMIT + 1) * (1 + One(id in w.hit))
  {
    hide After, CountReports, CountDeliveries, StoredFor, EachRetried, NoneAfterStoredFor, Terminal;
    ReportedAsOftenAsStored(rows, actions, id);
    NoneDelivered(rows);
    DeliveriesAreRetried(Fresh(rows), actions);
    StoredForAtMost(After(Fresh(rows), actions).deliveries, id);
  }

  lemma NoneDelivered(rows: map<string, Task>)
    ensures EachRetried(Fresh(rows).deliveries)
  {
  }

  // -------- exactly when --------

  ghost predicate ReportsBounded(w: World) {
    forall id :: CountReports(w.reports, id) <= 1 + One(id in w.hit)
  }

  /** Whatever happens, with attempts of these kinds no task is reported more than once, or twice if Fail reached its run. */
  ghost predicate AlwaysBounded(allowed: Attempt -> bool) {
    forall rows, actions :: AllowsAll(allowed, actions) ==> ReportsBounded(After(Fresh(rows), actions))
  }

  lemma SafeAttempts(attempts: seq<Attempt>)
    requires Retried(attempts) && forall k :: 0 <= k < |attempts| ==> !StoredButBusy(attempts[k])
    ensures NoneAfterStored(attempts)
  {
  }

  lemma AllowedAttempts(allowed: Attempt -> bool, a: Action)
    requires Allows(allowed, a) && forall x :: allowed(x) ==> !StoredButBusy(x)
    ensures NoneAfterStored(AttemptsOf(a))
  {
    hide Retried, StoredButBusy, NoneAfterStored, Made;
    AttemptsAreRetried(a);
    var attempts := AttemptsOf(a);
    forall k | 0 <= k < |attempts| ensures !StoredButBusy(attempts[k]) {
      if a.Finishes? {
        assert attempts[k] == a.delivery(0 + k);
        assert allowed(a.delivery(k));
      }
    }
    SafeAttempts(attempts);
  }

  ghost predicate EachSafe(deliveries: seq<Delivery>) {
    forall k :: 0 <= k < |deliveries| ==> NoneAfterStored(deliveries[k].attempts)
  }

  lemma {:induction false} SafeDeliveries(allowed: Attempt -> bool, w: World, actions: seq<Action>)
    requires EachSafe(w.deliveries) && AllowsAll(allowed, actions) && forall x :: allowed(x) ==> !StoredButBusy(x)
    ensures EachSafe(After(w, actions).deliveries)
  {
    hide Step, NoneAfterStored, Allows, StoredButBusy;
    if actions != [] {
      var front, a := actions[..|actions| - 1], actions[|actions| - 1];
      SafeDeliveries(allowed, w, front);
      StepDelivers(After(w, front), a);
      AllowedAttempts(allowed, a);
      NoAttempts();
    }
  }

  /** A task that names a session is created, runs and is finished; Fail never touches it. */
  function OrdinaryRun(id: string, delivery: nat -> Attempt): seq<Action> {
    [Creates(id, Task("pending", "", true), true), Starts(id, true, true, true), Returned(0, None), Finishes(0, true, true, delivery)]
  }

  lemma FourSteps(w: World, a: Action, b: Action, c: Action, d: Action)
    ensures After(w, [a, b, c, d]) == Step(Step(Step(Step(w, a), b), c), d)
  {
    hide Step;
    assert [a, b, c, d][..3] == [a, b, c] && [a, b, c][..2] == [a, b] && [a, b][..1] == [a] && [a][..0] == [];
    assert After(w, [a]) == Step(w, a);
    assert After(w, [a, b]) == Step(After(w, [a]), b);
    assert After(w, [a, b, c]) == Step(After(w, [a, b]), c);
    assert After(w, [a, b, c, d]) == Step(After(w, [a, b, c]), d);
  }

  /** Such a task is reported as often as its delivery stores a report. */
  lemma OrdinaryRunReports(id: string, delivery: nat -> Attempt)
    ensures var w := After(Fresh(map[]), OrdinaryRun(id, delivery));
            CountReports(w.reports, id) == Stored(Made(delivery, 0)) && w.hit == {}
  {
    hide Made, Stored, CountReports, Reported;
    NotBlank();
    hide IsBlank;
    var started := Task("running", "", true);
    var w := World(map[id := started], map[id := started], map[id := 0], map[id := false],
                   [Run(id, false, true, Some(Exit(false, None)))], [], {}, []);
    FourSteps(Fresh(map[]), Creates(id, Task("pending", "", true), true), Starts(id, true, true, true), Returned(0, None),
              Finishes(0, true, true, delivery));
    RunIsReady(id);
    FinishReports(w, 0, true, true, delivery, id);
    NothingReported(id);
  }

  lemma NotBlank()
    ensures !IsBlank("pending")
  {
    var pending := "pending";
    assert !IsSpace(pending[0]);
  }

  lemma NothingReported(id: string)
    ensures CountReports([], id) == 0
  {
  }

  lemma RunIsReady(id: string)
    ensures var started := Task("running", "", true);
            Step(Step(Step(Fresh(map[]), Creates(id, Task("pending", "", true), true)), Starts(id, true, true, true)), Returned(0, None))
            == World(map[id := started], map[id := started], map[id := 0], map[id := false],
                     [Run(id, false, true, Some(Exit(false, None)))], [], {}, [])
  {
    NotBlank();
    hide IsBlank, Reported;
    var pending, started := Task("pending", "", true), Task("running", "", true);
    var w1 := Step(Fresh(map[]), Creates(id, pending, true));
    assert w1 == World(map[id := pending], map[id := pending], map[], map[id := false], [], [], {}, []);
    var w2 := Step(w1, Starts(id, true, true, true));
    assert w2 == World(map[id := started], map[id := started], map[id := 0], map[id := false], [Run(id, false, true, None)], [], {}, []);
  }

  lemma {:induction false} MadeToTheLimit(delivery: nat -> Attempt, n: nat)
    requires n <= BUSY_RETRY_LIMIT && forall k :: delivery(k).error == Some(DatabaseBusy)
    ensures |Made(delivery, n)| == BUSY_RETRY_LIMIT + 1 - n
    decreases BUSY_RETRY_LIMIT - n
  {
    if n < BUSY_RETRY_LIMIT {
      MadeToTheLimit(delivery, n + 1);
    }
  }

  /** If each attempt stores its report and ends busy, the task is reported twenty-one times. */
  lemma BusyReporterRepeats(id: string, a: Attempt)
    requires StoredButBusy(a)
    ensures var w := After(Fresh(map[]), OrdinaryRun(id, k => a));
            CountReports(w.reports, id) == BUSY_RETRY_LIMIT + 1 && w.hit == {}
  {
    hide After, Made, CountReports, OrdinaryRun;
    OrdinaryRunReports(id, k => a);
    MadeToTheLimit(k => a, 0);
    StoredAtMost(Made(k => a, 0));
  }

  /**
   Over all runs, a task is reported once at most, or twice if Fail reached its run, exactly if no
   attempt to deliver both stores its report and ends busy.
   */
  lemma BoundedExactlyWhenNoneIsStoredButBusy(allowed: Attempt -> bool)
    ensures AlwaysBounded(allowed) <==> forall a :: allowed(a) ==> !StoredButBusy(a)
  {
    hide After, CountReports, StoredButBusy, OrdinaryRun, EachSafe;
    if forall a :: allowed(a) ==> !StoredButBusy(a) {
      forall rows, actions | AllowsAll(allowed, actions) ensures ReportsBounded(After(Fresh(rows), actions)) {
        SafeIsBounded(allowed, rows, actions);
      }
    } else {
      var a :| allowed(a) && StoredButBusy(a);
      BusyReporterRepeats("t", a);
      OrdinaryIsAllowed(allowed, "t", k => a);
      var w := After(Fresh(map[]), OrdinaryRun("t", k => a));
      assert CountReports(w.reports, "t") > 1 + One("t" in w.hit);
      assert !ReportsBounded(w);
    }
  }

  lemma OrdinaryIsAllowed(allowed: Attempt -> bool, id: string, delivery: nat -> Attempt)
    requires forall n :: allowed(delivery(n))
    ensures AllowsAll(allowed, OrdinaryRun(id, delivery))
  {
  }

  lemma SafeIsBounded(allowed: Attempt -> bool, rows: map<string, Task>, actions: seq<Action>)
    requires AllowsAll(allowed, actions) && forall a :: allowed(a) ==> !StoredButBusy(a)
    ensures ReportsBounded(After(Fresh(rows), actions))
  {
    hide After, CountReports, StoredButBusy, AllowsAll, NoneAfterStored;
    SafeDeliveries(allowed, Fresh(rows), actions);
    forall id ensures CountReports(After(Fresh(rows), actions).reports, id) <= 1 + One(id in After(Fresh(rows), actions).hit) {
      ReportedAtMostOnce(rows, actions, id);
    }
  }
}
