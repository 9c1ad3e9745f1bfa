// The report service's methods, which make only steps of ReportDelivery, with the queries
// that may fail and the manager that may be missing (internal/v2/reports/service.go).
module ReportService {
  import opened Basics
  import opened Text
  import opened SessionQueue
  import opened SessionRuns
  import opened ReportDelivery
  import SessionManager

  predicate Busy(s: State) {
    s.active.Some? || s.counters.depth > 0 || s.counters.reportBatches > 0
  }

  function Elements(ids: seq<string>): (s: set<string>)
    ensures forall id :: id in s <==> id in ids
  {
    set id | id in ids
  }

  lemma IdleStarts(s: State, turn: Turn)
    requires !Busy(s)
    ensures SubmitTurn(s, turn) == (Activate(s, turn), turn.id)
  {
  }

  // -------- one session, as values --------

  /** How the queries of one SubmitQueued go: errors of the list and of the turn's insert, whether a refused turn's row can be marked failed, how many marks succeed before one fails, and with which error. */
  datatype Queries = Queries(listed: Option<StoreError>, created: Option<StoreError>, undone: bool, marks: nat, marking: StoreError)

  /** A session as the service finds it: whether the manager knows it and would take turns for it, its queue, its reports, and all reports marked delivered. */
  datatype Desk = Desk(known: bool, registered: bool, session: State, reports: seq<string>, delivered: set<string>)

  /** SubmitQueued goes on to its queries. */
  predicate Open(desk: Desk) {
    desk.known && !Busy(desk.session)
  }

  function Batch(desk: Desk): seq<string> {
    Undelivered(desk.reports, desk.delivered)
  }

  function Marked(batch: seq<string>, marks: nat): seq<string> {
    if |batch| <= marks then batch else batch[..marks]
  }

  /** SubmitQueued: what it leaves, and its error. */
  function Submitted(desk: Desk, turnId: string, q: Queries): (Desk, Option<StoreError>) {
    if !Open(desk) then (desk, None)
    else if q.listed.Some? then (desk, q.listed)
    else if Batch(desk) == [] then (desk, None)
    else if q.created.Some? then (desk, q.created)
    else if !desk.registered then (desk, Some(OtherError))
    else (desk.(session := Activate(desk.session, Turn(turnId, ReportBatch)),
                delivered := desk.delivered + Elements(Marked(Batch(desk), q.marks))),
          if |Batch(desk)| <= q.marks then None else Some(q.marking))
  }

  /** DeliverTaskReport: the report is stored first, if it can be, and stays whatever follows. */
  function Filed(desk: Desk, reportId: string, stored: Option<StoreError>, turnId: string, q: Queries): (Desk, Option<StoreError>) {
    if stored.Some? then (desk, stored) else Submitted(desk.(reports := desk.reports + [reportId]), turnId, q)
  }

  lemma Listed(reports: seq<string>, delivered: set<string>, id: string)
    requires id !in delivered
    ensures Undelivered(reports + [id], delivered) == Undelivered(reports, delivered) + [id]
  {
    assert (reports + [id])[..|reports|] == reports;
  }

  /** Without an error, a report filed for an idle session that takes turns is delivered. */
  lemma FiledIsDelivered(desk: Desk, reportId: string, stored: Option<StoreError>, turnId: string, q: Queries)
    requires Open(desk) && reportId !in desk.delivered && Filed(desk, reportId, stored, turnId, q).1.None?
    ensures reportId in Filed(desk, reportId, stored, turnId, q).0.delivered
  {
    hide Busy, Activate, Undelivered;
    Listed(desk.reports, desk.delivered, reportId);
    var batch := Undelivered(desk.reports, desk.delivered) + [reportId];
    assert batch[|batch| - 1] == reportId;
  }

  // -------- the service --------

  class Service {
    const manager: SessionManager.Manager?
    var reports: map<string, seq<string>>
    var delivered: set<string>
    var turns: map<string, string>

    /** The report ids of a session, in the order they were created. */
    function OfSession(sessionId: string): seq<string>
      reads this
    {
      if sessionId in reports then reports[sessionId] else []
    }

    function Session(sessionId: string): State
      reads this, manager, if manager == null then {} else manager.runtime.Values
    {
      if manager != null && sessionId in manager.runtime then manager.runtime[sessionId].Value() else Idle
    }

    function DeskOf(sessionId: string): Desk
      reads this, manager, if manager == null then {} else manager.runtime.Values
    {
      Desk(manager != null && !IsBlank(sessionId) && sessionId in manager.runtime,
           manager != null && sessionId in manager.sessions,
           Session(sessionId), OfSession(sessionId), delivered)
    }

    ghost predicate Valid()
      reads this, manager, if manager == null then {} else manager.runtime.Values
    {
      manager != null ==> manager.Valid()
    }

    constructor (sessionMgr: SessionManager.Manager?)
      ensures manager == sessionMgr && reports == map[] && delivered == {} && turns == map[]
    {
      manager := sessionMgr;
      reports, delivered, turns := map[], {}, map[];
    }

    method ListUndelivered(sessionId: string) returns (queued: seq<string>)
      ensures queued == Undelivered(OfSession(sessionId), delivered)
    {
      var all := OfSession(sessionId);
      queued := [];
      assert all[..|all|] == all;
      for i := 0 to |all|
        invariant queued == Undelivered(all[..i], delivered)
      {
        assert all[..i + 1][..i] == all[..i];
        if all[i] !in delivered {
          queued := queued + [all[i]];
        }
      }
    }

    /** Marks the batch one report after the other, until the store fails to. */
    method MarkAll(batch: seq<string>, q: Queries) returns (error: Option<StoreError>)
      modifies this`delivered
      ensures error == if |batch| <= q.marks then None else Some(q.marking)
      ensures delivered == old(delivered) + Elements(Marked(batch, q.marks))
    {
      for i := 0 to |batch|
        invariant i <= q.marks && delivered == old(delivered) + Elements(batch[..i])
      {
        if i == q.marks {
          return Some(q.marking);
        }
        delivered := delivered + {batch[i]};
        assert batch[..i + 1] == batch[..i] + [batch[i]];
      }
      assert batch[..|batch|] == batch;
      return None;
    }

    /** The batch's turn is created and submitted, and its reports are marked; a turn that is refused is marked failed. */
    method SubmitBatchTurn(sessionId: string, turnId: string, batch: seq<string>, q: Queries) returns (error: Option<StoreError>)
      requires manager != null && manager.Valid() && !IsBlank(turnId) && !Busy(Session(sessionId))
      modifies this`delivered, this`turns, if sessionId in manager.sessions then {manager.runtime[sessionId]} else {}
      ensures manager.Valid() && manager.OnlyTouches(sessionId)
      ensures if sessionId in manager.sessions then
                && Session(sessionId) == Activate(old(Session(sessionId)), Turn(turnId, ReportBatch))
                && error == (if |batch| <= q.marks then None else Some(q.marking))
                && delivered == old(delivered) + Elements(Marked(batch, q.marks))
                && turns == old(turns)[turnId := "created"]
              else
                && error == Some(OtherError) && Session(sessionId) == old(Session(sessionId)) && delivered == old(delivered)
                && turns == old(turns)[turnId := if q.undone then "failed" else "created"]
    {
      hide IsBlank, Activate, SessionQueue.SubmitTurn, Recount, Elements, Marked;
      IdleStarts(Session(sessionId), Turn(turnId, ReportBatch));
      turns := turns[turnId := "created"];
      var submitted := manager.SubmitTurn(sessionId, turnId, "report_batch", turnId);
      if submitted.Err? {
        if q.undone {
          turns := turns[turnId := "failed"];
        }
        return Some(OtherError);
      }
      label Submitted:
      error := MarkAll(batch, q);
      assert manager.OnlyTouches(sessionId);
    }

    /** turnId is the turn's generated id. A session that is no longer registered refuses the turn, whose row is then marked failed. */
    method SubmitQueued(sessionId: string, turnId: string, q: Queries) returns (error: Option<StoreError>)
      requires Valid() && !IsBlank(turnId)
      modifies this`delivered, this`turns,
        if manager != null && sessionId in manager.sessions && sessionId in manager.runtime then {manager.runtime[sessionId]} else {}
      ensures Valid() && (manager != null ==> manager.OnlyTouches(sessionId))
      ensures (DeskOf(sessionId), error) == Submitted(old(DeskOf(sessionId)), turnId, q)
      ensures var desk := old(DeskOf(sessionId));
              turns == if Open(desk) && q.listed.None? && Batch(desk) != [] && q.created.None?
                       then old(turns)[turnId := if desk.registered || !q.undone then "created" else "failed"] else old(turns)
    {
      hide IsBlank, Activate, Undelivered, Elements, Marked;
      if manager == null || IsBlank(sessionId) {
        return None;
      }
      var queue := manager.QueuePayload(sessionId);
      if queue.None? {
        return None;
      }
      var (activeId, _, counters) := queue.value;
      if activeId != "" || counters.depth > 0 || counters.reportBatches > 0 {
        return None;
      }
      if q.listed.Some? {
        return q.listed;
      }
      var batch := ListUndelivered(sessionId);
      if |batch| == 0 {
        return None;
      }
      if q.created.Some? {
        return q.created;
      }
      error := SubmitBatchTurn(sessionId, turnId, batch, q);
    }

    /** The report goes to the session the task names for it, or to the task's own; stored is the error of its insert. */
    method DeliverTaskReport(reportSessionId: string, taskSessionId: string, reportId: string, stored: Option<StoreError>,
            turnId: string, q: Queries)
      returns (error: Option<StoreError>)
      requires Valid() && !IsBlank(turnId)
      modifies this`reports, this`delivered, this`turns,
        (var target := if reportSessionId != "" then reportSessionId else taskSessionId;
         if manager != null && target in manager.sessions && target in manager.runtime then {manager.runtime[target]} else {})
      ensures var target := if reportSessionId != "" then reportSessionId else taskSessionId;
              && Valid() && (manager != null ==> manager.OnlyTouches(target))
              && (DeskOf(target), error) == Filed(old(DeskOf(target)), reportId, stored, turnId, q)
              && (forall other :: other != target ==> OfSession(other) == old(OfSession(other)))
    {
      hide IsBlank, Submitted;
      if stored.Some? {
        return stored;
      }
      var target := if reportSessionId != "" then reportSessionId else taskSessionId;
      reports := reports[target := OfSession(target) + [reportId]];
      error := SubmitQueued(target, turnId, q);
    }
  }

  // -------- the methods make the steps of ReportDelivery --------

  lemma Grow(d: Delivery, events: seq<Event>, now: Delivery, e: Event) returns (events': seq<Event>, now': Delivery)
    requires Feasible(d, events) && now == After(d, events) && Possible(now, e)
    ensures now' == Next(now, e)
    ensures Feasible(d, events') && now' == After(d, events')
  {
    Extend(d, events, e);
    events', now' := events + [e], Next(now, e);
  }

  lemma MarkSteps(d: Delivery, before: seq<Event>, now: Delivery, marks: nat) returns (events: seq<Event>, later: Delivery)
    requires Feasible(d, before) && now == After(d, before)
    requires now.progress.Marking? && now.progress.next < |now.progress.batch| && now.progress.next <= marks
    ensures Feasible(d, events) && later == After(d, events)
    ensures later.progress == Unlocked && later.session == now.session && later.reports == now.reports && later.accepted == now.accepted
    ensures var p := now.progress;
            later.delivered == now.delivered + Elements(p.batch[p.next..if |p.batch| <= marks then |p.batch| else marks])
    decreases |now.progress.batch| - now.progress.next
  {
    hide Feasible, After;
    var p := now.progress;
    var n := if |p.batch| <= marks then |p.batch| else marks;
    if p.next == marks {
      events, later := Grow(d, before, now, MarkNext(false));
    } else {
      events, later := Grow(d, before, now, MarkNext(true));
      assert p.batch[p.next..n] == [p.batch[p.next]] + p.batch[p.next + 1..n];
      if p.next + 1 < |p.batch| {
        events, later := MarkSteps(d, events, later, marks);
      }
    }
  }

  /** What SubmitQueued does to a registered session when no one interferes, whichever query fails, is a run of the step machine. */
  lemma SubmitQueuedIsSteps(d: Delivery, turnId: string, q: Queries) returns (events: seq<Event>)
    requires d.progress.Unlocked? && turnId != "" && turnId !in d.session.submitted
    ensures Feasible(d, events)
    ensures var desk := Desk(true, true, d.session.state, d.reports, d.delivered);
            var (desk', _) := Submitted(desk, turnId, q);
            var d' := After(d, events);
            && Desk(true, true, d'.session.state, d'.reports, d'.delivered) == desk' && d'.progress == Unlocked
            && d'.accepted == (if Open(desk) && q.listed.None? && Batch(desk) != [] && q.created.None?
                               then d.accepted[turnId := Batch(desk)] else d.accepted)
  {
    var batch := Undelivered(d.reports, d.delivered);
    assert Feasible(d, []) && After(d, []) == d;
    hide Feasible, After, Activate, Undelivered, Elements;
    var now := d;
    events := [];
    if !Busy(d.session.state) {
      events, now := Grow(d, [], now, CheckQueue);
      events, now := Grow(d, events, now, ListReports(q.listed.None?));
      if q.listed.None? && batch != [] {
        events, now := Grow(d, events, now, CreateTurn(turnId, q.created.None?));
        if q.created.None? {
          events, now := Grow(d, events, now, SubmitBatch);
          events, now := MarkSteps(d, events, now, q.marks);
          assert batch[0..] == batch && batch[..|batch|] == batch;
        }
      }
    }
  }

  /** Once the session is idle, one call that no failing query disturbs tells every report left over, and marks it. */
  lemma NextBatchTellsIt(d: Delivery, turnId: string, id: string) returns (events: seq<Event>)
    requires d.progress.Unlocked? && turnId != "" && turnId !in d.session.submitted
    requires !Busy(d.session.state) && id in d.reports && id !in d.delivered
    ensures Feasible(d, events)
    ensures var d' := After(d, events);
            && turnId in d'.accepted && id in d'.accepted[turnId] && id in d'.delivered
            && (forall t :: t in d.accepted && t != turnId ==> t in d'.accepted && d'.accepted[t] == d.accepted[t])
            && (forall later :: later in d.reports ==> later in d'.delivered)
  {
    var batch := Undelivered(d.reports, d.delivered);
    hide Feasible, After, Busy, Activate, Undelivered;
    events := SubmitQueuedIsSteps(d, turnId, Queries(None, None, true, |batch|, OtherError));
  }
}
