/** Delivery of task reports to one session (internal/v2/reports/service.go). */
module ReportDelivery {
  import opened Basics
  import opened SessionQueue
  import opened SessionRuns
  import opened SessionInvariant

  /**
   How far the SubmitQueued call that holds the service's lock has got. It does not hold the
   session manager's, so between its steps clients submit turns of either kind and cancel them,
   agents return, and tasks create further reports.
   */
  datatype Progress =
    | Unlocked
    | SawIdle
    | Listed(batch: seq<string>)
    | TurnCreated(turnId: string, batch: seq<string>)
    | Marking(turnId: string, batch: seq<string>, next: nat)

  /**
   reports: ids as they are listed; delivered: those marked in the store;
   accepted: the reports in the message of each batch turn that the session
   manager took under the turn's own id; markFailed: a mark has failed.
   */
  datatype Delivery = Delivery(
    session: World,
    reports: seq<string>,
    delivered: set<string>,
    progress: Progress,
    accepted: map<string, seq<string>>,
    markFailed: bool)

  const Nothing := Delivery(Start, [], {}, Unlocked, map[], false)

  datatype Event =
    | ReportCreated(id: string, place: nat)   // the time a list is ordered by is read before the insert
    | User(action: Action)                    // a client's submission or cancel, or an agent's return
    | CheckQueue                              // SubmitQueued takes the lock and reads the queue payload
    | ListReports(ok: bool)
    | CreateTurn(id: string, ok: bool)
    | SubmitBatch
    | MarkNext(ok: bool)

  function Undelivered(reports: seq<string>, delivered: set<string>): (u: seq<string>)
    ensures forall id :: id in u <==> id in reports && id !in delivered
    ensures Distinct(reports) ==> Distinct(u)
  {
    if reports == [] then []
    else
      var rest := Undelivered(reports[..|reports| - 1], delivered);
      var last := reports[|reports| - 1];
      if last in delivered then rest else rest + [last]
  }

  predicate Possible(d: Delivery, e: Event) {
    match e
    case ReportCreated(id, place) => id !in d.reports && place <= |d.reports|
    case User(a) => Enabled(d.session, a) && (a.Submit? && d.progress.TurnCreated? ==> a.turn.id != d.progress.turnId)
    case CheckQueue => d.progress.Unlocked?
    case ListReports(_) => d.progress.SawIdle?
    case CreateTurn(id, _) => d.progress.Listed? && id != "" && id !in d.session.submitted
    case SubmitBatch => d.progress.TurnCreated? && Enabled(d.session, Submit(Turn(d.progress.turnId, ReportBatch)))
    case MarkNext(_) => d.progress.Marking? && d.progress.next < |d.progress.batch|
  }

  function Next(d: Delivery, e: Event): Delivery
    requires Possible(d, e)
  {
    match e
    case ReportCreated(id, place) => d.(reports := d.reports[..place] + [id] + d.reports[place..])
    case User(a) => d.(session := Step(d.session, a))
    case CheckQueue =>
      var s := d.session.state;
      if s.active.Some? || s.counters.depth > 0 || s.counters.reportBatches > 0 then d
      else d.(progress := SawIdle)
    case ListReports(ok) =>
      var batch := Undelivered(d.reports, d.delivered);
      if !ok || batch == [] then d.(progress := Unlocked) else d.(progress := Listed(batch))
    case CreateTurn(id, ok) =>
      if ok then d.(progress := TurnCreated(id, d.progress.batch)) else d.(progress := Unlocked)
    case SubmitBatch =>
      // The id that SubmitTurn returns is not looked at.
      var turn := Turn(d.progress.turnId, ReportBatch);
      var (_, id) := SubmitTurn(d.session.state, turn);
      d.(session := Step(d.session, Submit(turn)),
         progress := Marking(turn.id, d.progress.batch, 0),
         accepted := if id == turn.id then d.accepted[turn.id := d.progress.batch] else d.accepted)
    case MarkNext(ok) =>
      var p := d.progress;
      if !ok then d.(progress := Unlocked, markFailed := true)
      else d.(delivered := d.delivered + {p.batch[p.next]},
              progress := if p.next + 1 == |p.batch| then Unlocked else p.(next := p.next + 1))
  }

  ghost predicate Feasible(d: Delivery, events: seq<Event>)
    decreases |events|, 0
  {
    events == [] || (Feasible(d, events[..|events| - 1]) && Possible(After(d, events[..|events| - 1]), events[|events| - 1]))
  }

  ghost function After(d: Delivery, events: seq<Event>): Delivery
    requires Feasible(d, events)
    decreases |events|, 1
  {
    if events == [] then d else Next(After(d, events[..|events| - 1]), events[|events| - 1])
  }

  lemma Extend(d: Delivery, events: seq<Event>, e: Event)
    requires Feasible(d, events) && Possible(After(d, events), e)
    ensures Feasible(d, events + [e]) && After(d, events + [e]) == Next(After(d, events), e)
  {
    assert (events + [e])[..|events|] == events;
  }

  // -------- when a batch is merged --------

  /** A turn is active and a batch waits: a further batch is merged into that one. */
  predicate Merges(s: State) {
    s.active.Some? && CountKind(s.queue, ReportBatch) > 0
  }

  /** A submitted batch keeps its own id exactly if it is not merged into a waiting one. */
  lemma BatchKeepsItsIdExactlyWhen(s: State, id: string)
    requires forall i :: 0 <= i < |s.queue| ==> s.queue[i].id != id
    ensures SubmitTurn(s, Turn(id, ReportBatch)).1 == id <==> !Merges(s)
  {
    if QueuedBatch(s.queue).Some? {
      QueuedBatchCounts(s.queue);
    }
  }

  lemma {:induction false} QueuedBatchCounts(queue: seq<Turn>)
    requires QueuedBatch(queue).Some?
    ensures CountKind(queue, ReportBatch) > 0
  {
    if QueuedBatch(queue[..|queue| - 1]).Some? {
      QueuedBatchCounts(queue[..|queue| - 1]);
    }
  }

  ghost predicate BatchFree(s: State) {
    && (forall i :: 0 <= i < |s.queue| ==> s.queue[i].kind == UserMessage)
    && (s.active.Some? ==> s.active.value.kind == UserMessage)
  }

  /** Where no batch is queued or active, a client's or agent's step puts one there exactly if it submits one. */
  lemma StepAddsBatchExactlyWhen(w: World, a: Action)
    requires Enabled(w, a) && BatchFree(w.state)
    ensures BatchFree(Step(w, a).state) <==> !(a.Submit? && a.turn.kind == ReportBatch)
  {
    if a.Submit? && a.turn.kind == ReportBatch {
      SubmissionAddsBatch(w.state, a.turn);
      hide SubmitTurn, BatchFree;
    } else {
      OtherStepAddsNone(w, a);
    }
  }

  lemma OtherStepAddsNone(w: World, a: Action)
    requires Enabled(w, a) && BatchFree(w.state) && !(a.Submit? && a.turn.kind == ReportBatch)
    ensures BatchFree(Step(w, a).state)
  {
    hide CountKind, Recount;
  }

  lemma SubmissionAddsBatch(s: State, turn: Turn)
    requires BatchFree(s) && turn.kind == ReportBatch
    ensures !BatchFree(SubmitTurn(s, turn).0)
  {
    NoBatchQueued(s.queue);
    hide CountKind, QueuedBatch, CancelActiveRun, Recount;
    var s' := SubmitTurn(s, turn).0;
    if s.active.Some? {
      assert s'.queue == s.queue + [turn];
      assert s'.queue[|s.queue|] == turn;
    }
  }

  lemma {:induction false} NoBatchQueued(queue: seq<Turn>)
    requires forall i :: 0 <= i < |queue| ==> queue[i].kind == UserMessage
    ensures CountKind(queue, ReportBatch) == 0 && QueuedBatch(queue).None?
  {
    if queue != [] {
      NoBatchQueued(queue[..|queue| - 1]);
    }
  }

  // -------- the invariant --------

  predicate SentIn(d: Delivery, t: string, id: string) {
    t in d.accepted && id in d.accepted[t]
  }

  ghost predicate Sent(d: Delivery, id: string) {
    exists t :: SentIn(d, t, id)
  }

  /** Some report is in the messages of two accepted batches. */
  ghost predicate SentAgain(d: Delivery) {
    exists t, u, id :: t != u && SentIn(d, t, id) && SentIn(d, u, id)
  }

  /** A batch in preparation holds unmarked reports, all of those that were sent among them. */
  ghost predicate BatchesOk(d: Delivery) {
    && Distinct(d.reports)
    && (forall id :: id in d.delivered ==> id in d.reports)
    && (d.progress.Listed? || d.progress.TurnCreated? ==>
          && d.progress.batch != [] && Distinct(d.progress.batch)
          && (forall id :: id in d.progress.batch ==> id in d.reports && id !in d.delivered)
          && (forall t, id :: SentIn(d, t, id) && id !in d.delivered ==> id in d.progress.batch))
    && (d.progress.Marking? ==>
          && d.progress.next < |d.progress.batch| && Distinct(d.progress.batch)
          && forall k :: d.progress.next <= k < |d.progress.batch| ==> d.progress.batch[k] in d.reports && d.progress.batch[k] !in d.delivered)
  }

  ghost predicate AcceptedOk(d: Delivery) {
    && (forall t :: t in d.accepted ==> t in d.session.submitted && Distinct(d.accepted[t]))
    && (forall t, id :: SentIn(d, t, id) ==> id in d.reports)
    && (d.progress.Marking? && d.progress.turnId in d.accepted ==> d.accepted[d.progress.turnId] == d.progress.batch)
  }

  ghost predicate Pending(p: Progress, t: string, id: string) {
    p.Marking? && p.turnId == t && p.next <= |p.batch| && id in p.batch[p.next..]
  }

  /** While marks succeed, what was sent is marked, or about to be. */
  ghost predicate SentAreMarked(d: Delivery) {
    forall t, id :: SentIn(d, t, id) ==> id in d.delivered || Pending(d.progress, t, id)
  }

  ghost predicate DeliveryInv(d: Delivery) {
    && Inv(d.session)
    && BatchesOk(d)
    && AcceptedOk(d)
    && (!d.markFailed ==> SentAreMarked(d))
  }

  /** Before the session manager takes it, the batch's id is that of no queued turn. */
  lemma SubmittedBatch(d: Delivery)
    requires Inv(d.session) && Possible(d, SubmitBatch)
    ensures var p, d' := d.progress, Next(d, SubmitBatch);
            && p.turnId !in d.session.submitted && Inv(d'.session) && p.turnId in d'.session.submitted
            && (forall t :: t in d.session.submitted ==> t in d'.session.submitted)
            && d' == d.(session := d'.session, progress := Marking(p.turnId, p.batch, 0), accepted := d'.accepted)
            && d'.accepted == if Merges(d.session.state) then d.accepted else d.accepted[p.turnId := p.batch]
  {
    var a := Submit(Turn(d.progress.turnId, ReportBatch));
    StepKeepsInv(d.session, a);
    SubmittedGrows(d.session, a);
    QueuedWereSubmitted(d.session);
    BatchKeepsItsIdExactlyWhen(d.session.state, d.progress.turnId);
    hide Inv, Step, SubmitTurn, Merges;
  }

  lemma QueuedWereSubmitted(w: World)
    requires Inv(w)
    ensures forall i :: 0 <= i < |w.state.queue| ==> w.state.queue[i].id in w.submitted
  {
  }

  lemma SubmittedGrows(w: World, a: Action)
    requires Enabled(w, a)
    ensures forall id :: id in w.submitted ==> id in Step(w, a).submitted
    ensures a.Submit? ==> a.turn.id in Step(w, a).submitted
  {
  }

  lemma SubmitKeepsBatches(d: Delivery, d': Delivery)
    requires BatchesOk(d) && d.progress.TurnCreated?
    requires var p := d.progress; d' == d.(session := d'.session, progress := Marking(p.turnId, p.batch, 0), accepted := d'.accepted)
    ensures BatchesOk(d')
  {
  }

  lemma SubmitKeepsAccepted(d: Delivery, d': Delivery, merged: bool)
    requires AcceptedOk(d) && BatchesOk(d) && d.progress.TurnCreated? && d.progress.turnId !in d.accepted
    requires var p := d.progress;
             && d' == d.(session := d'.session, progress := Marking(p.turnId, p.batch, 0), accepted := d'.accepted)
             && d'.accepted == (if merged then d.accepted else d.accepted[p.turnId := p.batch])
             && p.turnId in d'.session.submitted && forall t :: t in d.session.submitted ==> t in d'.session.submitted
    ensures AcceptedOk(d')
    ensures SentAreMarked(d) ==> SentAreMarked(d')
  {
    var p := d.progress;
    assert p.batch[0..] == p.batch;
    forall t, id | SentIn(d', t, id)
      ensures id in d'.reports && (SentAreMarked(d) ==> id in d'.delivered || Pending(d'.progress, t, id))
    {
      if t != p.turnId {
        assert SentIn(d, t, id);
      }
    }
  }

  lemma SubmitKeepsInv(d: Delivery)
    requires DeliveryInv(d) && Possible(d, SubmitBatch)
    ensures DeliveryInv(Next(d, SubmitBatch))
  {
    SubmittedBatch(d);
    var d' := Next(d, SubmitBatch);
    hide Inv, Next, Merges, BatchesOk, SentAreMarked;
    assert d.progress.turnId !in d.accepted;
    hide AcceptedOk;
    SubmitKeepsBatches(d, d');
    SubmitKeepsAccepted(d, d', Merges(d.session.state));
  }

  lemma MarkKeepsInv(d: Delivery, ok: bool)
    requires DeliveryInv(d) && Possible(d, MarkNext(ok))
    ensures DeliveryInv(Next(d, MarkNext(ok)))
  {
    hide Inv;
    var p, d' := d.progress, Next(d, MarkNext(ok));
    assert p.batch[p.next..] == [p.batch[p.next]] + p.batch[p.next + 1..];
    forall t, id | SentIn(d', t, id) && !d'.markFailed ensures id in d'.delivered || Pending(d'.progress, t, id) {
      assert SentIn(d, t, id);
    }
    assert forall t, id :: SentIn(d', t, id) ==> SentIn(d, t, id);
  }

  lemma CreatedKeepsInv(d: Delivery, id: string, place: nat)
    requires DeliveryInv(d) && Possible(d, ReportCreated(id, place))
    ensures DeliveryInv(Next(d, ReportCreated(id, place)))
  {
    hide Inv;
    var d' := Next(d, ReportCreated(id, place));
    Inserted(d.reports, id, place);
    assert forall t, x :: SentIn(d', t, x) <==> SentIn(d, t, x);
  }

  lemma Inserted(reports: seq<string>, id: string, place: nat)
    requires Distinct(reports) && id !in reports && place <= |reports|
    ensures var more := reports[..place] + [id] + reports[place..];
            Distinct(more) && forall x :: x in more <==> x in reports || x == id
  {
    assert reports == reports[..place] + reports[place..];
  }

  lemma SessionKeepsRest(d: Delivery, session: World)
    requires DeliveryInv(d) && Inv(session) && forall t :: t in d.session.submitted ==> t in session.submitted
    ensures DeliveryInv(d.(session := session))
  {
    hide Inv;
    assert forall t, x :: SentIn(d.(session := session), t, x) <==> SentIn(d, t, x);
  }

  lemma UserKeepsInv(d: Delivery, a: Action)
    requires DeliveryInv(d) && Possible(d, User(a))
    ensures DeliveryInv(Next(d, User(a)))
  {
    hide BatchesOk, AcceptedOk, SentAreMarked;
    StepKeepsInv(d.session, a);
    SubmittedGrows(d.session, a);
    hide Inv, Step, Enabled;
    SessionKeepsRest(d, Step(d.session, a));
  }

  lemma PreparingKeepsInv(d: Delivery, e: Event)
    requires DeliveryInv(d) && Possible(d, e) && (e.CheckQueue? || e.ListReports? || e.CreateTurn?)
    ensures DeliveryInv(Next(d, e))
  {
    hide Inv, Step, Enabled, SubmitTurn, Undelivered;
    assert forall t, x :: SentIn(Next(d, e), t, x) <==> SentIn(d, t, x);
  }

  lemma NextKeepsInv(d: Delivery, e: Event)
    requires DeliveryInv(d) && Possible(d, e)
    ensures DeliveryInv(Next(d, e))
  {
    hide DeliveryInv, Possible, Next;
    match e
    case SubmitBatch => SubmitKeepsInv(d);
    case MarkNext(ok) => MarkKeepsInv(d, ok);
    case ReportCreated(id, place) => CreatedKeepsInv(d, id, place);
    case User(a) => UserKeepsInv(d, a);
    case _ => PreparingKeepsInv(d, e);
  }

  lemma {:induction false} AfterKeepsInv(d: Delivery, events: seq<Event>)
    requires DeliveryInv(d) && Feasible(d, events)
    ensures DeliveryInv(After(d, events))
    decreases |events|
  {
    hide DeliveryInv, Possible, Next;
    if events != [] {
      AfterKeepsInv(d, events[..|events| - 1]);
      NextKeepsInv(After(d, events[..|events| - 1]), events[|events| - 1]);
    }
  }

  lemma NothingSentYet()
    ensures DeliveryInv(Nothing) && !SentAgain(Nothing)
  {
  }

  // -------- the moments of a run --------

  /** The state before the event at place k, or behind the last one. */
  ghost function At(events: seq<Event>, k: nat): Delivery {
    if k <= |events| && Feasible(Nothing, events[..k]) then After(Nothing, events[..k]) else Nothing
  }

  lemma {:induction false} PrefixFeasible(events: seq<Event>, k: nat)
    requires Feasible(Nothing, events) && k <= |events|
    ensures Feasible(Nothing, events[..k])
    decreases |events|
  {
    hide Possible, Next;
    if k == |events| {
      assert events[..k] == events;
    } else {
      PrefixFeasible(events[..|events| - 1], k);
      assert events[..|events| - 1][..k] == events[..k];
    }
  }

  lemma Moment(events: seq<Event>, k: nat)
    requires Feasible(Nothing, events) && k <= |events|
    ensures DeliveryInv(At(events, k)) && At(events, 0) == Nothing
    ensures At(events, |events|) == After(Nothing, events)
    ensures k < |events| ==> Possible(At(events, k), events[k]) && At(events, k + 1) == Next(At(events, k), events[k])
  {
    hide Possible, Next, DeliveryInv;
    PrefixFeasible(events, k);
    NothingSentYet();
    AfterKeepsInv(Nothing, events[..k]);
    assert events[..|events|] == events;
    if k < |events| {
      PrefixFeasible(events, k + 1);
      assert events[..k + 1][..k] == events[..k];
    }
  }

  /** At place i a batch is submitted, and taken under its own id. */
  ghost predicate Kept(events: seq<Event>, i: nat) {
    i < |events| && events[i].SubmitBatch? && !Merges(At(events, i).session.state)
  }

  /** At place i a batch is submitted and merged into a waiting one. */
  ghost predicate Merged(events: seq<Event>, i: nat) {
    i < |events| && events[i].SubmitBatch? && Merges(At(events, i).session.state)
  }

  /** The batch at place i is kept and holds the report. */
  ghost predicate Sends(events: seq<Event>, i: nat, id: string) {
    Kept(events, i) && At(events, i).progress.TurnCreated? && id in At(events, i).progress.batch
  }

  /**
   At any moment a call of SubmitQueued goes on exactly if the session is idle, and then exactly
   if its list works and holds a report that is not delivered; it holds all of these.
   */
  lemma GoesOnExactlyWhen(events: seq<Event>, ok: bool)
    requires Feasible(Nothing, events)
    ensures var d := After(Nothing, events);
            && (d.progress.Unlocked? ==>
                  Next(d, CheckQueue) == if d.session.state.active.None? then d.(progress := SawIdle) else d)
            && (d.progress.SawIdle? ==>
                  var p := Next(d, ListReports(ok)).progress;
                  && (p.Listed? <==> ok && exists id :: id in d.reports && id !in d.delivered)
                  && (p.Listed? ==> forall id :: id in p.batch <==> id in d.reports && id !in d.delivered)
                  && (!p.Listed? ==> p.Unlocked?))
  {
    NothingSentYet();
    AfterKeepsInv(Nothing, events);
    var d := After(Nothing, events);
    IdleHasNoQueue(d);
    hide DeliveryInv, Feasible, After;
    if d.progress.SawIdle? {
      var batch := Undelivered(d.reports, d.delivered);
      if batch != [] {
        assert batch[0] in batch;
      }
      hide Undelivered;
    }
  }

  lemma IdleHasNoQueue(d: Delivery)
    requires DeliveryInv(d)
    ensures var s := d.session.state;
            s.active.None? ==> s.counters.depth == 0 && s.counters.reportBatches == 0
  {
    hide BatchesOk, AcceptedOk, SentAreMarked;
  }
}
