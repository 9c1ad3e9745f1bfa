/** From a task's end to the message that tells its session. */
module TaskMessages {
  import opened Basics
  import TaskManager
  import opened TaskTheorems
  import opened TaskReports
  import ReportDelivery
  import ReportResend
  import ReportLoss

  /**
   The tasks, and the delivery of reports to the one session they name. stored are the ids of the
   task manager's first reports, in their order; its other reports are being stored.
   */
  datatype Joint = Joint(tasks: TaskManager.World, delivery: ReportDelivery.Delivery, stored: seq<string>)

  /** A task step; the next report reaches the store under a fresh id; or any other step of the delivery. */
  datatype Event = Tasks(action: TaskTheorems.Action) | Stores(reportId: string, place: nat) | Delivers(event: ReportDelivery.Event)

  predicate Possible(j: Joint, e: Event) {
    match e
    case Tasks(_) => true
    case Stores(id, place) =>
      |j.stored| < |j.tasks.reports| && ReportDelivery.Possible(j.delivery, ReportDelivery.ReportCreated(id, place))
    case Delivers(event) => !event.ReportCreated? && ReportDelivery.Possible(j.delivery, event)
  }

  function Next(j: Joint, e: Event): Joint
    requires Possible(j, e)
  {
    match e
    case Tasks(a) => j.(tasks := TaskTheorems.Step(j.tasks, a))
    case Stores(id, place) =>
      j.(delivery := ReportDelivery.Next(j.delivery, ReportDelivery.ReportCreated(id, place)), stored := j.stored + [id])
    case Delivers(event) => j.(delivery := ReportDelivery.Next(j.delivery, event))
  }

  ghost predicate Feasible(j: Joint, events: seq<Event>)
    decreases |events|, 0
  {
    events == [] || (Feasible(j, events[..|events| - 1]) && Possible(Run(j, events[..|events| - 1]), events[|events| - 1]))
  }

  ghost function Run(j: Joint, events: seq<Event>): Joint
    requires Feasible(j, events)
    decreases |events|, 1
  {
    if events == [] then j else Next(Run(j, events[..|events| - 1]), events[|events| - 1])
  }

  function Begun(rows: map<string, TaskManager.Task>): Joint {
    Joint(TaskTheorems.Fresh(rows), ReportDelivery.Nothing, [])
  }

  /** What the delivery sees of the events. */
  function Deliveries(events: seq<Event>): seq<ReportDelivery.Event> {
    if events == [] then []
    else
      var front := Deliveries(events[..|events| - 1]);
      match events[|events| - 1]
      case Tasks(_) => front
      case Stores(id, place) => front + [ReportDelivery.ReportCreated(id, place)]
      case Delivers(event) => front + [event]
  }

  /** The delivery's part of a run is a run of the delivery. */
  lemma {:induction false} DeliveryRuns(rows: map<string, TaskManager.Task>, events: seq<Event>)
    requires Feasible(Begun(rows), events)
    ensures ReportDelivery.Feasible(ReportDelivery.Nothing, Deliveries(events))
    ensures Run(Begun(rows), events).delivery == ReportDelivery.After(ReportDelivery.Nothing, Deliveries(events))
  {
    hide ReportDelivery.Possible, ReportDelivery.Next;
    if events != [] {
      var front, e := events[..|events| - 1], events[|events| - 1];
      DeliveryRuns(rows, front);
      if e.Stores? {
        ReportDelivery.Extend(ReportDelivery.Nothing, Deliveries(front), ReportDelivery.ReportCreated(e.reportId, e.place));
      } else if e.Delivers? {
        ReportDelivery.Extend(ReportDelivery.Nothing, Deliveries(front), e.event);
      }
    }
  }

  // -------- what is kept --------

  /** The stored reports are those of the first reported tasks, in order. */
  ghost predicate Owned(j: Joint) {
    && |j.stored| <= |j.tasks.reports| && Distinct(j.stored)
    && forall id :: id in j.stored <==> id in j.delivery.reports
  }

  ghost predicate JointInv(j: Joint) {
    TaskTheorems.Inv(j.tasks) && Owned(j)
  }

  lemma {:induction false} ReportedKeeps(reports: seq<TaskManager.Report>, report: TaskManager.Report, attempts: seq<TaskManager.Attempt>)
    ensures reports <= TaskManager.Reported(reports, report, attempts)
  {
    if attempts != [] {
      ReportedKeeps(reports, report, attempts[..|attempts| - 1]);
    }
  }

  /** No step takes a report back. */
  lemma ReportsStay(w: TaskManager.World, a: TaskTheorems.Action)
    ensures w.reports <= TaskTheorems.Step(w, a).reports
  {
    hide TaskManager.Reported, TaskManager.Made, TaskManager.HasLiveRun, TaskManager.Cancelled, TaskManager.Outcome, TaskManager.IsTerminal;
    forall report, attempts ensures w.reports <= TaskManager.Reported(w.reports, report, attempts) {
      ReportedKeeps(w.reports, report, attempts);
    }
  }

  lemma NextKeeps(j: Joint, e: Event)
    requires JointInv(j) && Possible(j, e)
    ensures JointInv(Next(j, e))
  {
    hide TaskTheorems.Inv, TaskTheorems.Step, ReportDelivery.Possible;
    match e
    case Tasks(a) =>
      TaskTheorems.StepKeepsInv(j.tasks, a);
      ReportsStay(j.tasks, a);
    case Stores(id, place) => CreationAdds(j.delivery, id, place);
    case Delivers(event) => OnlyCreationAdds(j.delivery, event);
  }

  lemma CreationAdds(d: ReportDelivery.Delivery, id: string, place: nat)
    requires ReportDelivery.Possible(d, ReportDelivery.ReportCreated(id, place))
    ensures id !in d.reports
    ensures forall x :: x in ReportDelivery.Next(d, ReportDelivery.ReportCreated(id, place)).reports <==> x in d.reports || x == id
  {
    assert d.reports == d.reports[..place] + d.reports[place..];
  }

  lemma OnlyCreationAdds(d: ReportDelivery.Delivery, e: ReportDelivery.Event)
    requires ReportDelivery.Possible(d, e) && !e.ReportCreated?
    ensures ReportDelivery.Next(d, e).reports == d.reports
  {
  }

  lemma {:induction false} RunKeeps(rows: map<string, TaskManager.Task>, events: seq<Event>)
    requires Feasible(Begun(rows), events)
    ensures JointInv(Run(Begun(rows), events))
  {
    hide JointInv, Possible, Next;
    if events == [] {
      BegunIsOk(rows);
    } else {
      RunKeeps(rows, events[..|events| - 1]);
      NextKeeps(Run(Begun(rows), events[..|events| - 1]), events[|events| - 1]);
    }
  }

  lemma BegunIsOk(rows: map<string, TaskManager.Task>)
    ensures JointInv(Begun(rows))
  {
    hide TaskTheorems.Inv;
    TaskTheorems.FreshIsOk(rows);
  }

  // -------- one message --------

  lemma {:induction false} TwoReportsCount(reports: seq<TaskManager.Report>, i: nat, k: nat)
    requires i < k < |reports| && reports[i].taskId == reports[k].taskId
    ensures CountReports(reports, reports[i].taskId) >= 2
  {
    var front := reports[..|reports| - 1];
    if k < |reports| - 1 {
      TwoReportsCount(front, i, k);
    } else {
      assert front[i] == reports[i];
      ReportCounts(front, i);
    }
  }

  lemma {:induction false} ReportCounts(reports: seq<TaskManager.Report>, i: nat)
    requires i < |reports|
    ensures CountReports(reports, reports[i].taskId) >= 1
  {
    if i < |reports| - 1 {
      ReportCounts(reports[..|reports| - 1], i);
    }
  }

  /** Report k is the task's, and stored. */
  ghost predicate Owns(j: Joint, k: nat, id: string) {
    k < |j.stored| <= |j.tasks.reports| && j.tasks.reports[k].taskId == id
  }

  /** The message of turn t holds report k, which is the task's. */
  ghost predicate Tells(j: Joint, t: string, k: nat, id: string) {
    Owns(j, k, id) && ReportDelivery.SentIn(j.delivery, t, j.stored[k])
  }

  /**
   Whatever clients, agents and tasks do meanwhile: as long as marks succeed, a task that Fail did not
   reach while it ran, and whose delivery is not tried again after it stored the report, is told in
   one message at most; and once its report is marked delivered in exactly one if the batch that marked
   it was kept, and in none if that batch was merged into a client's.
   */
  lemma ToldInOneMessage(rows: map<string, TaskManager.Task>, events: seq<Event>, id: string)
    requires Feasible(Begun(rows), events)
    requires var j := Run(Begun(rows), events);
             !j.delivery.markFailed && id !in j.tasks.hit && NoneAfterStoredFor(j.tasks.deliveries, id)
    ensures var j := Run(Begun(rows), events);
            && (forall t, u, k: nat, l: nat :: Tells(j, t, k, id) && Tells(j, u, l, id) ==> t == u && k == l && Distinct(j.delivery.accepted[t]))
            && (forall k: nat :: Owns(j, k, id) && j.stored[k] in j.delivery.delivered ==>
                  ((exists t :: Tells(j, t, k, id)) <==> ReportLoss.MarkedByKept(Deliveries(events), j.stored[k])))
  {
    hide Run, Feasible, CountReports, CountDeliveries, StoredFor, NoneAfterStoredFor, EachRetried;
    hide ReportDelivery.After, ReportDelivery.Feasible, ReportDelivery.Sent, Deliveries, ReportLoss.MarkedByKept;
    RunKeeps(rows, events);
    DeliveryRuns(rows, events);
    var j := Run(Begun(rows), events);
    OnlyOneReport(j, id);
    forall t, u, k: nat, l: nat | Tells(j, t, k, id) && Tells(j, u, l, id)
      ensures t == u && k == l && Distinct(j.delivery.accepted[t])
    {
      ReportResend.NoReportIsSentTwice(Deliveries(events), t, u, j.stored[k]);
    }
    forall k: nat | Owns(j, k, id) && j.stored[k] in j.delivery.delivered
      ensures (exists t :: Tells(j, t, k, id)) <==> ReportLoss.MarkedByKept(Deliveries(events), j.stored[k])
    {
      ReportLoss.SentExactlyWhenKept(Deliveries(events), j.stored[k]);
      SentMeansTold(j, k, id);
    }
  }

  /** So with clients that submit no batch while one is prepared, a marked report is told in exactly one message. */
  lemma ToldWhenLeftAlone(rows: map<string, TaskManager.Task>, events: seq<Event>, id: string)
    requires Feasible(Begun(rows), events) && ReportLoss.ClientsLeaveBatchesAlone(Deliveries(events))
    requires var j := Run(Begun(rows), events);
             !j.delivery.markFailed && id !in j.tasks.hit && NoneAfterStoredFor(j.tasks.deliveries, id)
    ensures var j := Run(Begun(rows), events);
            forall k: nat :: Owns(j, k, id) && j.stored[k] in j.delivery.delivered ==>
              exists t :: Tells(j, t, k, id) && forall u, l: nat :: Tells(j, u, l, id) ==> u == t && l == k
  {
    hide Run, Feasible, NoneAfterStoredFor, Deliveries, ReportDelivery.After, ReportDelivery.Feasible;
    hide ReportLoss.ClientsLeaveBatchesAlone, ReportLoss.MarkedByKept;
    ToldInOneMessage(rows, events, id);
    DeliveryRuns(rows, events);
    var j := Run(Begun(rows), events);
    forall k: nat | Owns(j, k, id) && j.stored[k] in j.delivery.delivered
      ensures exists t :: Tells(j, t, k, id) && forall u, l: nat :: Tells(j, u, l, id) ==> u == t && l == k
    {
      ReportLoss.KeptWhenLeftAlone(Deliveries(events), j.stored[k]);
      var t :| Tells(j, t, k, id);
    }
  }

  lemma SentMeansTold(j: Joint, k: nat, id: string)
    requires Owns(j, k, id)
    ensures ReportDelivery.Sent(j.delivery, j.stored[k]) <==> exists t :: Tells(j, t, k, id)
  {
    if t :| ReportDelivery.SentIn(j.delivery, t, j.stored[k]) {
      assert Tells(j, t, k, id);
    }
  }

  lemma OnlyOneReport(j: Joint, id: string)
    requires JointInv(j) && id !in j.tasks.hit && NoneAfterStoredFor(j.tasks.deliveries, id)
    ensures forall k: nat, l: nat :: Owns(j, k, id) && Owns(j, l, id) ==> k == l
  {
    hide CountReports, CountDeliveries, StoredFor, NoneAfterStoredFor, EachRetried, TaskTheorems.Inv;
    DeliveredOnce(j.tasks, id);
    StoredForAtMost(j.tasks.deliveries, id);
    forall k: nat, l: nat | Owns(j, k, id) && Owns(j, l, id) ensures k == l {
      if k < l {
        TwoReportsCount(j.tasks.reports, k, l);
      } else if l < k {
        TwoReportsCount(j.tasks.reports, l, k);
      }
    }
  }

  lemma DeliveredOnce(w: TaskManager.World, id: string)
    requires TaskTheorems.Inv(w) && id !in w.hit
    ensures CountReports(w.reports, id) == StoredFor(w.deliveries, id) && CountDeliveries(w.deliveries, id) <= 1
  {
    InvAt(w, id);
    hide CountReports, StoredFor, CountDeliveries, CountRuns, CountLive;
  }
}
