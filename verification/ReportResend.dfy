/** Exactly when a report is sent in two batches (internal/v2/reports/service.go). */
module ReportResend {
  import opened Basics
  import opened SessionQueue
  import opened SessionRuns
  import opened SessionInvariant
  import opened ReportDelivery

  // -------- one step --------

  /** An accepted message holds a report that is not marked. */
  ghost predicate Owing(d: Delivery) {
    exists id :: Sent(d, id) && id !in d.delivered
  }

  lemma SameAccepted(d: Delivery, d': Delivery)
    requires d'.accepted == d.accepted
    ensures SentAgain(d') <==> SentAgain(d)
    ensures forall id :: Sent(d', id) <==> Sent(d, id)
  {
    assert forall t, id :: SentIn(d', t, id) <==> SentIn(d, t, id);
    if SentAgain(d) {
      var t, u, id :| t != u && SentIn(d, t, id) && SentIn(d, u, id);
      assert SentIn(d', t, id) && SentIn(d', u, id);
    }
    forall id ensures Sent(d', id) <==> Sent(d, id) {
    }
  }

  lemma SentAgainBy(d: Delivery, t: string, u: string, id: string)
    requires t != u && SentIn(d, t, id) && SentIn(d, u, id)
    ensures SentAgain(d)
  {
  }

  /** What a batch adds to the accepted messages. */
  lemma BatchAccepted(d: Delivery)
    requires DeliveryInv(d) && Possible(d, SubmitBatch)
    ensures var p, d' := d.progress, Next(d, SubmitBatch);
            && p.turnId !in d.accepted
            && d'.accepted == (if Merges(d.session.state) then d.accepted else d.accepted[p.turnId := p.batch])
            && forall id :: id in p.batch ==> id !in d.delivered
    ensures forall id :: Sent(d, id) && id !in d.delivered ==> id in d.progress.batch
  {
    SubmittedBatch(d);
    hide Inv, Next, Merges, SentAreMarked;
  }

  lemma KeptBatch(d: Delivery)
    requires DeliveryInv(d) && Possible(d, SubmitBatch) && !Merges(d.session.state)
    ensures forall id :: Sent(Next(d, SubmitBatch), id) <==> Sent(d, id) || id in d.progress.batch
    ensures SentAgain(Next(d, SubmitBatch)) <==> SentAgain(d) || Owing(d)
  {
    BatchAccepted(d);
    hide DeliveryInv, Possible, Next, Merges;
    var p, d' := d.progress, Next(d, SubmitBatch);
    assert forall t, id :: SentIn(d', t, id) <==> SentIn(d, t, id) || (t == p.turnId && id in p.batch);
    forall id ensures Sent(d', id) <==> Sent(d, id) || id in p.batch {
      if id in p.batch {
        assert SentIn(d', p.turnId, id);
      } else if Sent(d, id) {
        var t :| SentIn(d, t, id);
        assert SentIn(d', t, id);
      }
    }
    if SentAgain(d) {
      var t, u, id :| t != u && SentIn(d, t, id) && SentIn(d, u, id);
      SentAgainBy(d', t, u, id);
    }
    if Owing(d) {
      var id :| Sent(d, id) && id !in d.delivered;
      var t :| SentIn(d, t, id);
      SentAgainBy(d', t, p.turnId, id);
    }
    if SentAgain(d') && !SentAgain(d) {
      var t, u, id :| t != u && SentIn(d', t, id) && SentIn(d', u, id);
      assert SentIn(d, if t == p.turnId then u else t, id);
      assert id in p.batch;
      assert Sent(d, id);
    }
  }

  lemma OtherKeepsAccepted(d: Delivery, e: Event)
    requires Possible(d, e) && !e.SubmitBatch?
    ensures Next(d, e).accepted == d.accepted
  {
    hide Step, SubmitTurn, Undelivered;
  }

  /** Each step: only a batch that is kept while an accepted message holds an unmarked report sends one again. */
  lemma StepSendsAgain(d: Delivery, e: Event)
    requires DeliveryInv(d) && Possible(d, e)
    ensures SentAgain(Next(d, e)) <==> SentAgain(d) || (e.SubmitBatch? && !Merges(d.session.state) && Owing(d))
    ensures forall id :: Sent(Next(d, e), id)
                         <==> Sent(d, id) || (e.SubmitBatch? && !Merges(d.session.state) && id in d.progress.batch)
  {
    hide DeliveryInv, Next, Merges, Sent, SentAgain, Owing;
    if !e.SubmitBatch? {
      OtherKeepsAccepted(d, e);
      SameAccepted(d, Next(d, e));
    } else if Merges(d.session.state) {
      BatchAccepted(d);
      SameAccepted(d, Next(d, e));
    } else {
      KeptBatch(d);
    }
  }

  // -------- over all runs --------

  /** The reports sent so far are those of the batches kept so far. */
  lemma {:induction false} SentMeans(events: seq<Event>, k: nat, id: string)
    requires Feasible(Nothing, events) && k <= |events|
    ensures Sent(At(events, k), id) <==> exists i :: 0 <= i < k && Sends(events, i, id)
  {
    hide Feasible, After, At, Next, Possible, DeliveryInv, Merges, Sent;
    if k == 0 {
      Moment(events, 0);
      NothingIsSent(id);
    } else {
      SentMeans(events, k - 1, id);
      Moment(events, k - 1);
      StepSendsAgain(At(events, k - 1), events[k - 1]);
      if events[k - 1].SubmitBatch? {
        SubmitsWhatItPrepared(events, k - 1);
        var d := At(events, k - 1);
        assert Sends(events, k - 1, id) <==> !Merges(d.session.state) && id in d.progress.batch;
      }
    }
  }

  lemma NothingIsSent(id: string)
    ensures !Sent(Nothing, id)
  {
  }

  lemma SubmitsWhatItPrepared(events: seq<Event>, i: nat)
    requires Feasible(Nothing, events) && i < |events| && events[i].SubmitBatch?
    ensures At(events, i).progress.TurnCreated?
  {
    hide Feasible, After, At, Next, DeliveryInv, Enabled;
    Moment(events, i);
  }

  lemma {:induction false} SentAgainSoFar(events: seq<Event>, k: nat)
    requires Feasible(Nothing, events) && k <= |events|
    ensures SentAgain(At(events, k)) <==> exists j :: 0 <= j < k && Kept(events, j) && Owing(At(events, j))
  {
    hide Feasible, After, At, Next, Possible, DeliveryInv, Merges, Sent, SentAgain, Owing;
    if k == 0 {
      Moment(events, 0);
      NothingSentYet();
    } else {
      SentAgainSoFar(events, k - 1);
      Moment(events, k - 1);
      StepSendsAgain(At(events, k - 1), events[k - 1]);
    }
  }

  /** A batch kept at place i holds a report that is still unmarked at place j. */
  ghost predicate LeavesUnmarked(events: seq<Event>, i: nat, j: nat) {
    exists id :: Sends(events, i, id) && id !in At(events, j).delivered
  }

  lemma OwingMeans(events: seq<Event>, j: nat)
    requires Feasible(Nothing, events) && j <= |events|
    ensures Owing(At(events, j)) <==> exists i :: 0 <= i < j && LeavesUnmarked(events, i, j)
  {
    hide Feasible, At, Sent, Sends;
    var d := At(events, j);
    if Owing(d) {
      var id :| Sent(d, id) && id !in d.delivered;
      SentMeans(events, j, id);
      var i :| 0 <= i < j && Sends(events, i, id);
      assert LeavesUnmarked(events, i, j);
    }
    if i :| 0 <= i < j && LeavesUnmarked(events, i, j) {
      var id :| Sends(events, i, id) && id !in d.delivered;
      SentMeans(events, j, id);
      assert Sent(d, id);
    }
  }

  /**
   Over every interleaving, with clients submitting batches of their own: some report is in two messages
   if and only if a batch is kept while a report of a batch kept before is still unmarked.
   */
  lemma SentAgainExactlyWhen(events: seq<Event>)
    requires Feasible(Nothing, events)
    ensures SentAgain(After(Nothing, events)) <==>
              exists i, j :: 0 <= i < j < |events| && Kept(events, i) && Kept(events, j) && LeavesUnmarked(events, i, j)
  {
    hide Feasible, After, At, SentAgain, Owing, Merges;
    Moment(events, |events|);
    SentAgainSoFar(events, |events|);
    forall j | 0 <= j < |events|
      ensures Owing(At(events, j)) <==> exists i :: 0 <= i < j && Kept(events, i) && LeavesUnmarked(events, i, j)
    {
      OwingMeans(events, j);
    }
  }

  // -------- while marks succeed --------

  lemma NotOwingWhilePreparing(d: Delivery)
    requires DeliveryInv(d) && !d.markFailed && !d.progress.Marking?
    ensures !Owing(d)
  {
    hide Inv, BatchesOk, AcceptedOk;
  }

  lemma {:induction false} FailuresSoFar(events: seq<Event>, k: nat)
    requires Feasible(Nothing, events) && k <= |events|
    ensures At(events, k).markFailed <==> MarkNext(false) in events[..k]
  {
    hide Feasible, After, At, Next, Possible, DeliveryInv;
    Moment(events, k);
    if k > 0 {
      FailuresSoFar(events, k - 1);
      Moment(events, k - 1);
      FailureIsRecorded(At(events, k - 1), events[k - 1]);
      assert events[..k] == events[..k - 1] + [events[k - 1]];
    }
  }

  lemma FailureIsRecorded(d: Delivery, e: Event)
    requires Possible(d, e)
    ensures Next(d, e).markFailed == (d.markFailed || e == MarkNext(false))
  {
    hide Step, SubmitTurn, Undelivered;
  }

  lemma NoFailureBefore(events: seq<Event>, k: nat)
    requires Feasible(Nothing, events) && k <= |events| && !After(Nothing, events).markFailed
    ensures !At(events, k).markFailed
  {
    hide Feasible, After, At;
    Moment(events, |events|);
    FailuresSoFar(events, |events|);
    FailuresSoFar(events, k);
    assert forall i :: 0 <= i < k ==> events[..k][i] == events[..|events|][i];
  }

  /** As long as marking succeeds no report is in the messages of two batches, nor twice in one. */
  lemma NoReportIsSentTwice(events: seq<Event>, t: string, u: string, id: string)
    requires Feasible(Nothing, events) && !After(Nothing, events).markFailed
    requires var d := After(Nothing, events); SentIn(d, t, id) && SentIn(d, u, id)
    ensures t == u && Distinct(After(Nothing, events).accepted[t])
  {
    hide Feasible, After, At, Next, Possible, Merges;
    Moment(events, |events|);
    SentAgainSoFar(events, |events|);
    if j :| 0 <= j < |events| && Kept(events, j) && Owing(At(events, j)) {
      Moment(events, j);
      SubmitsWhatItPrepared(events, j);
      NoFailureBefore(events, j);
      NotOwingWhilePreparing(At(events, j));
    }
    hide Inv, BatchesOk, SentAreMarked;
  }

  // -------- when no batch is merged --------

  lemma {:induction false} MarkingIsKept(events: seq<Event>, k: nat)
    requires Feasible(Nothing, events) && k <= |events| && forall j :: 0 <= j < k ==> !Merged(events, j)
    ensures var d := At(events, k); d.progress.Marking? ==> d.progress.turnId in d.accepted
  {
    hide Feasible, After, At, DeliveryInv, Merges;
    Moment(events, k);
    if k > 0 {
      Moment(events, k - 1);
      MarkingIsKept(events, k - 1);
      var d, e := At(events, k - 1), events[k - 1];
      assert !Merged(events, k - 1);
      if e.SubmitBatch? {
        BatchAccepted(d);
      } else {
        OtherKeepsAccepted(d, e);
      }
      hide Step, SubmitTurn, Undelivered, Possible;
    }
  }

  /** A failed mark leaves a report owed until a batch sends it again. */
  lemma {:induction false} FailureOwes(events: seq<Event>, k: nat)
    requires Feasible(Nothing, events) && k <= |events| && forall j :: 0 <= j < k ==> !Merged(events, j)
    ensures var d := At(events, k); d.markFailed ==> SentAgain(d) || (!d.progress.Marking? && Owing(d))
  {
    hide Feasible, After, At, DeliveryInv, Merges, Next, Enabled, SentAgain, Owing;
    Moment(events, k);
    if k > 0 {
      Moment(events, k - 1);
      FailureOwes(events, k - 1);
      MarkingIsKept(events, k - 1);
      assert !Merged(events, k - 1);
      var d, e := At(events, k - 1), events[k - 1];
      StepSendsAgain(d, e);
      if e == MarkNext(false) {
        FailedMarkOwes(d);
      } else if !SentAgain(Next(d, e)) {
        FailureIsRecorded(d, e);
        if d.markFailed {
          StillOwing(d, e);
        }
      }
    }
  }

  lemma FailedMarkOwes(d: Delivery)
    requires DeliveryInv(d) && Possible(d, MarkNext(false)) && d.progress.turnId in d.accepted
    ensures var d' := Next(d, MarkNext(false)); !d'.progress.Marking? && Owing(d')
  {
    hide Inv, SentAreMarked;
    var p, d' := d.progress, Next(d, MarkNext(false));
    assert SentIn(d', p.turnId, p.batch[p.next]);
    assert Sent(d', p.batch[p.next]);
  }

  lemma StillOwing(d: Delivery, e: Event)
    requires Possible(d, e) && !d.progress.Marking? && Owing(d) && !e.SubmitBatch?
    ensures var d' := Next(d, e); !d'.progress.Marking? && Owing(d')
  {
    OtherKeepsAccepted(d, e);
    SameAccepted(d, Next(d, e));
    hide Step, SubmitTurn, Undelivered, Sent;
    var id :| Sent(d, id) && id !in d.delivered;
    assert Sent(Next(d, e), id);
  }

  /** In runs in which no batch is merged: some report is in two messages if and only if a batch is submitted after a failed mark. */
  lemma SentAgainAfterFailure(events: seq<Event>)
    requires Feasible(Nothing, events) && forall j :: 0 <= j < |events| ==> !Merged(events, j)
    ensures SentAgain(After(Nothing, events)) <==>
              exists j :: 0 <= j < |events| && events[j].SubmitBatch? && MarkNext(false) in events[..j]
  {
    hide Feasible, After, At, Merges, Next, Possible, SentAgain, Owing, DeliveryInv;
    Moment(events, |events|);
    SentAgainSoFar(events, |events|);
    forall j | 0 <= j < |events| && events[j].SubmitBatch?
      ensures Kept(events, j) && (Owing(At(events, j)) ==> MarkNext(false) in events[..j])
      ensures MarkNext(false) in events[..j] ==> SentAgain(At(events, j)) || Owing(At(events, j))
    {
      Moment(events, j);
      SubmitsWhatItPrepared(events, j);
      FailuresSoFar(events, j);
      FailureOwes(events, j);
      assert !Merged(events, j);
      if !At(events, j).markFailed {
        NotOwingWhilePreparing(At(events, j));
      }
    }
    if j :| 0 <= j < |events| && events[j].SubmitBatch? && MarkNext(false) in events[..j] {
      SentAgainSoFar(events, j);
    }
  }

  // -------- a run that sends a report again --------

  lemma Do(events: seq<Event>, d: Delivery, e: Event) returns (events': seq<Event>, d': Delivery)
    requires Feasible(Nothing, events) && d == After(Nothing, events) && Possible(d, e)
    ensures d' == Next(d, e)
    ensures Feasible(Nothing, events') && d' == After(Nothing, events')
  {
    hide Possible, Next;
    Extend(Nothing, events, e);
    events', d' := events + [e], Next(d, e);
  }

  /** Once a mark fails the unmarked rest of the batch is sent again. */
  lemma FailedMarkSendsAgain() returns (events: seq<Event>)
    ensures Feasible(Nothing, events)
    ensures After(Nothing, events).accepted == map["a" := ["r"], "b" := ["r"]]
  {
    var d: Delivery;
    events, d := FailedMark();
    hide Feasible, After, Undelivered;
    events, d := Do(events, d, CheckQueue);
    events, d := Do(events, d, ListReports(true));
    events, d := Do(events, d, CreateTurn("b", true));
    var s := d.session.state;
    assert SubmitTurn(s, Turn("b", ReportBatch)) == (Activate(s, Turn("b", ReportBatch)), "b");
    events, d := Do(events, d, SubmitBatch);
  }

  lemma FailedMark() returns (events: seq<Event>, d: Delivery)
    ensures Feasible(Nothing, events) && d == After(Nothing, events)
    ensures d.session.state.active == None && d.session.state.counters == Counters(0, 0, 0) && d.session.submitted == ["a"]
    ensures d.reports == ["r"] && Undelivered(d.reports, d.delivered) == ["r"] && d.progress == Unlocked
    ensures d.accepted == map["a" := ["r"]]
  {
    events, d := FirstBatch();
    BatchRuns(d.session);
    hide *;
    ReturnsIdle(d);
    events, d := Do(events, d, MarkNext(false));
    events, d := Do(events, d, User(Return(0)));
  }

  /** What the two events do to the first batch. */
  lemma ReturnsIdle(d: Delivery)
    requires d.progress == Marking("a", ["r"], 0) && Enabled(d.session, Return(0))
    ensures Possible(d, MarkNext(false)) && Possible(Next(d, MarkNext(false)), User(Return(0)))
    ensures Next(Next(d, MarkNext(false)), User(Return(0))) == d.(session := Step(d.session, Return(0)), progress := Unlocked, markFailed := true)
  {
    hide Enabled, Step;
  }

  lemma FirstBatch() returns (events: seq<Event>, d: Delivery)
    ensures Feasible(Nothing, events) && d == After(Nothing, events)
    ensures d.session == Step(Start, Submit(Turn("a", ReportBatch)))
    ensures d.reports == ["r"] && d.delivered == {} && Undelivered(d.reports, d.delivered) == ["r"]
    ensures d.progress == Marking("a", ["r"], 0) && d.accepted == map["a" := ["r"]]
  {
    hide Feasible, After, Undelivered, Step, SubmitTurn;
    NothingYet();
    FirstIsKept();
    events, d := Do([], Nothing, ReportCreated("r", 0));
    events, d := Do(events, d, CheckQueue);
    events, d := Do(events, d, ListReports(true));
    events, d := Do(events, d, CreateTurn("a", true));
    events, d := Do(events, d, SubmitBatch);
  }

  lemma NothingYet()
    ensures Feasible(Nothing, []) && After(Nothing, []) == Nothing
    ensures Undelivered(["r"], {}) == ["r"]
  {
    assert ["r"][..0] == [];
  }

  lemma FirstIsKept()
    ensures SubmitTurn(Idle, Turn("a", ReportBatch)).1 == "a"
  {
    hide CountKind, QueuedBatch;
  }

  lemma BatchRuns(w: World)
    requires w == Step(Start, Submit(Turn("a", ReportBatch)))
    ensures Enabled(w, Return(0))
    ensures Step(w, Return(0)).submitted == ["a"]
    ensures Step(w, Return(0)).state.active == None && Step(w, Return(0)).state.counters == Counters(0, 0, 0)
  {
    assert Start.submitted + ["a"] == ["a"];
  }
}
