/** A finished task told to the report service (internal/v2/reports/service.go). */
module TaskDelivery {
  import opened Basics
  import opened TaskManager
  import opened TaskTheorems
  import opened TaskReports
  import SessionQueue
  import ReportDelivery
  import ReportService

  type Desk = ReportService.Desk
  type Queries = ReportService.Queries

  /** One call of DeliverTaskReport: the session as it is then, and how the queries go. */
  datatype Call = Call(desk: Desk, reportId: string, stored: Option<StoreError>, turnId: string, q: Queries)

  /** Report ids are fresh. */
  predicate Fresh(c: Call) {
    c.reportId !in c.desk.delivered
  }

  function AttemptOf(c: Call): Attempt {
    Attempt(c.stored.None?, ReportService.Filed(c.desk, c.reportId, c.stored, c.turnId, c.q).1)
  }

  /** The queries of an open session: the list of its reports, the turn's insert, or a mark is busy. */
  predicate RunsIntoBusy(c: Call) {
    || c.q.listed == Some(DatabaseBusy)
    || (c.q.listed.None? && c.q.created == Some(DatabaseBusy))
    || (c.q.listed.None? && c.q.created.None? && c.desk.registered && c.q.marking == DatabaseBusy
        && c.q.marks <= |ReportService.Batch(c.desk)|)
  }

  /** A call stores its report and ends busy exactly if the insert works, the session is open, and a later query is busy. */
  lemma StoredButBusyExactlyWhen(c: Call)
    requires Fresh(c)
    ensures StoredButBusy(AttemptOf(c)) <==> c.stored.None? && ReportService.Open(c.desk) && RunsIntoBusy(c)
  {
    hide ReportService.Busy, SessionQueue.Activate, ReportDelivery.Undelivered;
    ReportService.Listed(c.desk.reports, c.desk.delivered, c.reportId);
  }

  // -------- which sessions are told once --------

  /** The attempts that calls of a kind make. */
  ghost predicate Happens(kind: Call -> bool, a: Attempt) {
    exists c :: kind(c) && Fresh(c) && a == AttemptOf(c)
  }

  /**
   Over all runs of all tasks, with calls of a kind, no task is reported more than once, or twice if
   Fail reached its run - exactly if no such call finds an open session and runs into a busy query
   behind the insert of the report.
   */
  lemma ToldOnceExactlyWhen(kind: Call -> bool)
    ensures AlwaysBounded(a => Happens(kind, a))
            <==> forall c :: kind(c) && Fresh(c) && c.stored.None? && ReportService.Open(c.desk) ==> !RunsIntoBusy(c)
  {
    hide AlwaysBounded, StoredButBusy, AttemptOf, RunsIntoBusy, ReportService.Open, Fresh;
    BoundedExactlyWhenNoneIsStoredButBusy(a => Happens(kind, a));
    forall c | kind(c) && Fresh(c)
      ensures StoredButBusy(AttemptOf(c)) <==> c.stored.None? && ReportService.Open(c.desk) && RunsIntoBusy(c)
      ensures Happens(kind, AttemptOf(c))
    {
      StoredButBusyExactlyWhen(c);
    }
  }

  predicate Closed(c: Call) {
    !ReportService.Open(c.desk)
  }

  /** A session that is unknown, busy or has something queued is told once, whatever fails. */
  lemma ClosedSessionIsToldOnce()
    ensures AlwaysBounded(a => Happens(Closed, a))
  {
    hide AlwaysBounded;
    ToldOnceExactlyWhen(Closed);
  }

  // -------- one session, left alone between the attempts --------

  /** The reports' and turns' ids and the queries of each attempt. */
  datatype Oracle = Oracle(reportId: string, stored: Option<StoreError>, turnId: string, q: Queries)

  function DeskAt(desk: Desk, oracles: nat -> Oracle, n: nat): Desk {
    if n == 0 then desk
    else
      var o := oracles(n - 1);
      ReportService.Filed(DeskAt(desk, oracles, n - 1), o.reportId, o.stored, o.turnId, o.q).0
  }

  function CallAt(desk: Desk, oracles: nat -> Oracle, n: nat): Call {
    var o := oracles(n);
    Call(DeskAt(desk, oracles, n), o.reportId, o.stored, o.turnId, o.q)
  }

  function Undisturbed(desk: Desk, oracles: nat -> Oracle): nat -> Attempt {
    (n: nat) => AttemptOf(CallAt(desk, oracles, n))
  }

  /** The store is busy when the report is to be inserted: nothing is stored, and the report is filed again. */
  predicate InsertBusy(o: Oracle) {
    o.stored == Some(DatabaseBusy)
  }

  /** An open session stays open, and the report is filed again: the insert, the list or the turn's insert is busy. */
  predicate LeavesOpen(o: Oracle) {
    InsertBusy(o) || (o.stored.None? && (o.q.listed == Some(DatabaseBusy) || (o.q.listed.None? && o.q.created == Some(DatabaseBusy))))
  }

  /** How many attempts in from..to store a report. */
  function Filings(oracles: nat -> Oracle, from: nat, to: nat): nat
    requires from <= to
  {
    if from == to then 0 else Filings(oracles, from, to - 1) + One(oracles(to - 1).stored.None?)
  }

  /** The first attempt from n on that is the last one, or does not leave an open session open to be filed again. */
  function LastOpen(oracles: nat -> Oracle, n: nat): (last: nat)
    requires n <= BUSY_RETRY_LIMIT
    ensures n <= last <= BUSY_RETRY_LIMIT
    decreases BUSY_RETRY_LIMIT - n
  {
    if n == BUSY_RETRY_LIMIT || !LeavesOpen(oracles(n)) then n else LastOpen(oracles, n + 1)
  }

  /** Attempt n submits the batch, and one of its marks is busy. */
  predicate MarkBusy(desk: Desk, oracles: nat -> Oracle, n: nat) {
    var o := oracles(n);
    && o.stored.None? && o.q.listed.None? && o.q.created.None? && desk.registered
    && o.q.marking == DatabaseBusy && o.q.marks <= |ReportService.Batch(desk)| + Filings(oracles, 0, n)
  }

  /** What a closed session gets from attempt n on: one report, if one can be inserted in time. */
  function FiledClosed(oracles: nat -> Oracle, n: nat): (filed: nat)
    ensures filed <= 1
    decreases BUSY_RETRY_LIMIT + 1 - n
  {
    if n > BUSY_RETRY_LIMIT then 0
    else if InsertBusy(oracles(n)) then FiledClosed(oracles, n + 1)
    else One(oracles(n).stored.None?)
  }

  /** The reports of one delivery to a session that nobody else touches. */
  function FiledReports(desk: Desk, oracles: nat -> Oracle): nat {
    if !ReportService.Open(desk) then FiledClosed(oracles, 0)
    else
      var last := LastOpen(oracles, 0);
      Filings(oracles, 0, last + 1)
      + if last < BUSY_RETRY_LIMIT && MarkBusy(desk, oracles, last) then FiledClosed(oracles, last + 1) else 0
  }

  ghost predicate FreshIds(desk: Desk, oracles: nat -> Oracle) {
    forall k :: oracles(k).reportId !in desk.delivered
  }

  lemma {:induction false} StoredJoined(a: seq<Attempt>, b: seq<Attempt>)
    ensures Stored(a + b) == Stored(a) + Stored(b)
  {
    if b == [] {
      assert a + b == a;
    } else {
      StoredJoined(a, b[..|b| - 1]);
      assert (a + b)[..|a + b| - 1] == a + b[..|b| - 1];
    }
  }

  lemma StoredOne(a: Attempt)
    ensures Stored([a]) == One(a.stored)
  {
    assert [a][..0] == [];
    assert Stored([]) == 0;
  }

  /** One more attempt: what it stores, and what follows if it ends busy. */
  lemma StoredFromNext(delivery: nat -> Attempt, n: nat)
    requires n <= BUSY_RETRY_LIMIT
    ensures Stored(Made(delivery, n))
            == One(delivery(n).stored)
               + if delivery(n).error == Some(DatabaseBusy) && n < BUSY_RETRY_LIMIT then Stored(Made(delivery, n + 1)) else 0
  {
    StoredOne(delivery(n));
    if delivery(n).error == Some(DatabaseBusy) && n < BUSY_RETRY_LIMIT {
      StoredJoined([delivery(n)], Made(delivery, n + 1));
    }
    hide Stored;
  }

  /** A closed session stays closed, and an attempt on it ends as its insert does. */
  lemma ClosedAttempt(desk: Desk, oracles: nat -> Oracle, n: nat)
    requires !ReportService.Open(DeskAt(desk, oracles, n))
    ensures Undisturbed(desk, oracles)(n) == Attempt(oracles(n).stored.None?, oracles(n).stored)
    ensures !ReportService.Open(DeskAt(desk, oracles, n + 1))
  {
    hide ReportService.Busy, ReportDelivery.Undelivered;
  }

  lemma {:induction false} ClosedReports(desk: Desk, oracles: nat -> Oracle, n: nat)
    requires n <= BUSY_RETRY_LIMIT && !ReportService.Open(DeskAt(desk, oracles, n))
    ensures Stored(Made(Undisturbed(desk, oracles), n)) == FiledClosed(oracles, n)
    decreases BUSY_RETRY_LIMIT - n
  {
    hide ReportService.Open, DeskAt, Undisturbed, Stored, Made;
    StoredFromNext(Undisturbed(desk, oracles), n);
    ClosedAttempt(desk, oracles, n);
    if InsertBusy(oracles(n)) && n < BUSY_RETRY_LIMIT {
      ClosedReports(desk, oracles, n + 1);
    }
  }

  /** Up to attempt n the session is as it was, but for the reports filed. */
  ghost predicate OnlyFiled(desk: Desk, oracles: nat -> Oracle, n: nat) {
    var now := DeskAt(desk, oracles, n);
    && ReportService.Open(now) && now.registered == desk.registered && now.delivered == desk.delivered
    && |ReportService.Batch(now)| == |ReportService.Batch(desk)| + Filings(oracles, 0, n)
  }

  /** An attempt on an open session, by how its queries go. */
  lemma OpenAttempt(desk: Desk, oracles: nat -> Oracle, n: nat)
    requires FreshIds(desk, oracles) && OnlyFiled(desk, oracles, n)
    ensures var a := Undisturbed(desk, oracles)(n);
            && a.stored == oracles(n).stored.None?
            && (a.error == Some(DatabaseBusy) <==> LeavesOpen(oracles(n)) || MarkBusy(desk, oracles, n))
    ensures LeavesOpen(oracles(n)) ==> OnlyFiled(desk, oracles, n + 1)
    ensures MarkBusy(desk, oracles, n) ==> !ReportService.Open(DeskAt(desk, oracles, n + 1))
  {
    hide ReportDelivery.Undelivered, ReportService.Busy, DeskAt;
    var now, o := DeskAt(desk, oracles, n), oracles(n);
    ReportService.Listed(now.reports, now.delivered, o.reportId);
    NextDesk(desk, oracles, n);
    ActiveIsBusy(now, o.turnId);
  }

  lemma NextDesk(desk: Desk, oracles: nat -> Oracle, n: nat)
    ensures var o := oracles(n);
            DeskAt(desk, oracles, n + 1) == ReportService.Filed(DeskAt(desk, oracles, n), o.reportId, o.stored, o.turnId, o.q).0
  {
    hide ReportService.Filed;
  }

  lemma ActiveIsBusy(desk: Desk, turnId: string)
    ensures ReportService.Busy(SessionQueue.Activate(desk.session, SessionQueue.Turn(turnId, SessionQueue.ReportBatch)))
  {
  }

  lemma {:induction false} OpenReports(desk: Desk, oracles: nat -> Oracle, n: nat)
    requires n <= BUSY_RETRY_LIMIT && FreshIds(desk, oracles) && OnlyFiled(desk, oracles, n)
    ensures var last := LastOpen(oracles, n);
            Filings(oracles, 0, n) + Stored(Made(Undisturbed(desk, oracles), n))
            == Filings(oracles, 0, last + 1)
               + if last < BUSY_RETRY_LIMIT && MarkBusy(desk, oracles, last) then FiledClosed(oracles, last + 1) else 0
    decreases BUSY_RETRY_LIMIT - n
  {
    hide OnlyFiled, Undisturbed, Stored, Made, DeskAt, MarkBusy, FreshIds, ReportService.Open;
    StoredFromNext(Undisturbed(desk, oracles), n);
    OpenAttempt(desk, oracles, n);
    if n < BUSY_RETRY_LIMIT && LeavesOpen(oracles(n)) {
      OpenReports(desk, oracles, n + 1);
    } else if n < BUSY_RETRY_LIMIT && MarkBusy(desk, oracles, n) {
      ClosedReports(desk, oracles, n + 1);
    }
  }

  /**
   For all queries: the retried delivery of a task to a session that nobody else touches stores exactly
   FiledReports reports - one for each insert that works while the session is open, and after a busy
   mark at most one more.
   */
  lemma DeliveryFiles(desk: Desk, oracles: nat -> Oracle)
    requires FreshIds(desk, oracles)
    ensures Stored(Made(Undisturbed(desk, oracles), 0)) == FiledReports(desk, oracles)
  {
    hide Undisturbed, Stored, Made, MarkBusy, FreshIds, ReportService.Open, ReportService.Batch;
    if ReportService.Open(desk) {
      OpenReports(desk, oracles, 0);
    } else {
      ClosedReports(desk, oracles, 0);
    }
  }

  /** It stores two or more exactly if the session is open and an attempt that stored one is followed by another that does. */
  lemma FiledAgainExactlyWhen(desk: Desk, oracles: nat -> Oracle)
    requires FreshIds(desk, oracles)
    ensures Stored(Made(Undisturbed(desk, oracles), 0)) >= 2
            <==> && ReportService.Open(desk)
                 && var last := LastOpen(oracles, 0);
                    || Filings(oracles, 0, last + 1) >= 2
                    || (last < BUSY_RETRY_LIMIT && MarkBusy(desk, oracles, last) && FiledClosed(oracles, last + 1) == 1)
  {
    hide Undisturbed, Stored, Made, FreshIds, ReportService.Open, ReportService.Batch;
    DeliveryFiles(desk, oracles);
    var last := LastOpen(oracles, 0);
    if MarkBusy(desk, oracles, last) {
      FiledLast(oracles, last);
    }
  }

  lemma FiledLast(oracles: nat -> Oracle, n: nat)
    requires oracles(n).stored.None?
    ensures Filings(oracles, 0, n + 1) >= 1
  {
  }

  // -------- two ways to be told again --------

  lemma {:induction false} AlwaysOpen(oracles: nat -> Oracle, n: nat)
    requires n <= BUSY_RETRY_LIMIT && forall k :: oracles(k).stored.None? && oracles(k).q.listed == Some(DatabaseBusy)
    ensures LastOpen(oracles, n) == BUSY_RETRY_LIMIT && Filings(oracles, 0, n) == n
    decreases BUSY_RETRY_LIMIT - n
  {
    FilesEachTime(oracles, n);
    if n < BUSY_RETRY_LIMIT {
      AlwaysOpen(oracles, n + 1);
    }
  }

  lemma {:induction false} FilesEachTime(oracles: nat -> Oracle, n: nat)
    requires forall k :: oracles(k).stored.None?
    ensures Filings(oracles, 0, n) == n
  {
    if n > 0 {
      FilesEachTime(oracles, n - 1);
    }
  }

  /**
   A task that names an open session, and that Fail never touches, runs and is finished: it gets
   FiledReports reports. With a busy mark these are two, with a list that stays busy twenty-one.
   */
  lemma BusyQueryReportsAgain(id: string, desk: Desk, oracles: nat -> Oracle)
    requires FreshIds(desk, oracles)
    ensures var w := After(TaskTheorems.Fresh(map[]), OrdinaryRun(id, Undisturbed(desk, oracles)));
            && w.hit == {} && CountReports(w.reports, id) == FiledReports(desk, oracles)
            && (ReportService.Open(desk) && (forall k :: oracles(k).stored.None?) ==>
                  && (MarkBusy(desk, oracles, 0) ==> FiledReports(desk, oracles) == 2)
                  && ((forall k :: oracles(k).q.listed == Some(DatabaseBusy)) ==> FiledReports(desk, oracles) == BUSY_RETRY_LIMIT + 1))
  {
    hide After, Made, Stored, CountReports, OrdinaryRun, ReportService.Open, ReportService.Batch, Undisturbed, FreshIds;
    OrdinaryRunReports(id, Undisturbed(desk, oracles));
    DeliveryFiles(desk, oracles);
    if forall k :: oracles(k).stored.None? {
      FilesEachTime(oracles, 1);
      if forall k :: oracles(k).q.listed == Some(DatabaseBusy) {
        AlwaysOpen(oracles, 0);
        FilesEachTime(oracles, BUSY_RETRY_LIMIT + 1);
      }
    }
  }
}
