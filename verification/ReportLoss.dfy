/** Exactly when a report is marked delivered although no message holds it. */
module ReportLoss {
  import opened Basics
  import opened SessionQueue
  import opened SessionRuns
  import opened SessionInvariant
  import opened ReportDelivery
  import opened ReportResend

  // -------- which batch a mark belongs to --------

  /** The last batch submitted before place k is that of place j. */
  ghost predicate LastBatch(events: seq<Event>, j: nat, k: nat) {
    j < k <= |events| && events[j].SubmitBatch? && forall i :: j < i < k ==> !events[i].SubmitBatch?
  }

  /** At place k the report is marked, from the batch submitted at place j. */
  ghost predicate Marks(events: seq<Event>, j: nat, k: nat, id: string) {
    && k < |events| && LastBatch(events, j, k) && events[k] == MarkNext(true)
    && var p := At(events, k).progress; p.Marking? && p.next < |p.batch| && p.batch[p.next] == id
  }

  /** Marks are those of the batch submitted last. */
  lemma {:induction false} MarkingComesFrom(events: seq<Event>, k: nat) returns (j: nat)
    requires Feasible(Nothing, events) && k <= |events| && At(events, k).progress.Marking?
    ensures LastBatch(events, j, k) && At(events, j).progress.TurnCreated?
    ensures At(events, k).progress.batch == At(events, j).progress.batch
  {
    hide Feasible, After, At, DeliveryInv, Enabled, SubmitTurn, Step, Undelivered;
    Moment(events, k);
    assert k > 0 by {
      Moment(events, 0);
    }
    Moment(events, k - 1);
    if events[k - 1].SubmitBatch? {
      j := k - 1;
    } else {
      j := MarkingComesFrom(events, k - 1);
    }
  }

  /** Of two batches both submitted last there is only one. */
  lemma LastBatchIsUnique(events: seq<Event>, i: nat, j: nat, k: nat)
    requires LastBatch(events, i, k) && LastBatch(events, j, k)
    ensures i == j
  {
  }

  /** A report that is marked was marked at some place. */
  lemma {:induction false} MarkedAt(events: seq<Event>, n: nat, id: string) returns (j: nat, k: nat)
    requires Feasible(Nothing, events) && n <= |events| && id in At(events, n).delivered
    ensures k < n && Marks(events, j, k, id)
  {
    hide Feasible, After, At, DeliveryInv, Enabled, SubmitTurn, Step, Undelivered;
    Moment(events, n);
    assert n > 0 by {
      Moment(events, 0);
    }
    Moment(events, n - 1);
    if id in At(events, n - 1).delivered {
      j, k := MarkedAt(events, n - 1, id);
    } else {
      k := n - 1;
      j := MarkingComesFrom(events, k);
    }
  }

  // -------- whether a marked report was sent --------

  lemma {:induction false} MarkedForGood(events: seq<Event>, k: nat, n: nat, id: string)
    requires Feasible(Nothing, events) && k <= n <= |events| && id in At(events, k).delivered
    ensures id in At(events, n).delivered
  {
    hide Feasible, After, At, DeliveryInv, Enabled, SubmitTurn, Step, Undelivered;
    if k < n {
      MarkedForGood(events, k, n - 1, id);
      Moment(events, n - 1);
    }
  }

  /** What a batch holds is not marked when it is submitted. */
  lemma SubmittedUnmarked(events: seq<Event>, i: nat, id: string)
    requires Feasible(Nothing, events) && Sends(events, i, id)
    ensures id !in At(events, i).delivered
  {
    hide Feasible, After, At, Enabled, Inv, AcceptedOk, SentAreMarked, Merges;
    Moment(events, i);
  }

  /**
   A report that is marked delivered is in an accepted message if and only if the batch that marked it
   was kept, or a batch kept before held it.
   */
  lemma MarkedWasSentExactlyWhen(events: seq<Event>, j: nat, k: nat, id: string)
    requires Feasible(Nothing, events) && Marks(events, j, k, id)
    ensures Sent(After(Nothing, events), id) <==> Kept(events, j) || exists i :: 0 <= i < j && Sends(events, i, id)
  {
    hide Feasible, After, At, Sent, Merges, Next, Possible, DeliveryInv;
    var j' := MarkingComesFrom(events, k);
    LastBatchIsUnique(events, j, j', k);
    Moment(events, |events|);
    SentMeans(events, |events|, id);
    if Kept(events, j) {
      assert Sends(events, j, id);
    }
    if i :| 0 <= i < |events| && Sends(events, i, id) {
      if i > k {
        SubmittedUnmarked(events, i, id);
        JustMarked(events, j, k, id);
        MarkedForGood(events, k + 1, i, id);
      }
      assert i <= j;
    }
  }

  lemma JustMarked(events: seq<Event>, j: nat, k: nat, id: string)
    requires Feasible(Nothing, events) && Marks(events, j, k, id)
    ensures id in At(events, k + 1).delivered
  {
    hide Feasible, After, At, DeliveryInv, Possible;
    Moment(events, k);
  }

  /** A batch that is merged, and one of whose reports is then marked without having been sent before. */
  ghost predicate Loses(events: seq<Event>, j: nat, k: nat, id: string) {
    Marks(events, j, k, id) && Merged(events, j) && forall i :: 0 <= i < j ==> !Sends(events, i, id)
  }

  /** Over every interleaving: every report that is marked was sent if and only if no merged batch marks one that no batch before it sent. */
  lemma MarkedReportsWereSentExactlyWhen(events: seq<Event>)
    requires Feasible(Nothing, events)
    ensures (forall id :: id in After(Nothing, events).delivered ==> Sent(After(Nothing, events), id))
            <==> !exists j: nat, k: nat, id :: Loses(events, j, k, id)
  {
    hide Feasible, After, At, Sent, Merges, Sends;
    var d := After(Nothing, events);
    Moment(events, |events|);
    if id :| id in d.delivered && !Sent(d, id) {
      var j, k := MarkedAt(events, |events|, id);
      MarkedWasSentExactlyWhen(events, j, k, id);
      assert Loses(events, j, k, id);
    }
    if j: nat, k: nat, id :| Loses(events, j, k, id) {
      MarkedWasSentExactlyWhen(events, j, k, id);
      JustMarked(events, j, k, id);
      MarkedForGood(events, k + 1, |events|, id);
    }
  }

  /** At place k the batch of place j, which was merged, marks a report. */
  ghost predicate MarksMerged(events: seq<Event>, j: nat, k: nat) {
    k < |events| && LastBatch(events, j, k) && Merged(events, j) && events[k] == MarkNext(true)
  }

  /** While marks succeed: every report that is marked was sent if and only if no batch that was merged goes on to mark. */
  lemma MarkedReportsWereSent(events: seq<Event>)
    requires Feasible(Nothing, events) && !After(Nothing, events).markFailed
    ensures (forall id :: id in After(Nothing, events).delivered ==> Sent(After(Nothing, events), id))
            <==> !exists j: nat, k: nat :: MarksMerged(events, j, k)
  {
    hide Feasible, After, At, Sent, Merges, DeliveryInv, Sends;
    MarkedReportsWereSentExactlyWhen(events);
    if j: nat, k: nat, id :| Loses(events, j, k, id) {
      assert MarksMerged(events, j, k);
    }
    if j: nat, k: nat :| MarksMerged(events, j, k) {
      var id := MergedMark(events, j, k);
      assert Loses(events, j, k, id);
    }
  }

  lemma MergedMark(events: seq<Event>, j: nat, k: nat) returns (id: string)
    requires Feasible(Nothing, events) && !After(Nothing, events).markFailed && MarksMerged(events, j, k)
    ensures Loses(events, j, k, id)
  {
    hide Feasible, After, At, Sent, Merges, DeliveryInv, Enabled, Owing, Sends;
    Moment(events, k);
    var p := At(events, k).progress;
    id := p.batch[p.next];
    var j' := MarkingComesFrom(events, k);
    LastBatchIsUnique(events, j, j', k);
    NoFailureBefore(events, j);
    Moment(events, j);
    NotOwingWhilePreparing(At(events, j));
    UnmarkedInBatch(At(events, j), id);
    if i :| 0 <= i < j && Sends(events, i, id) {
      SentMeans(events, j, id);
      NotSent(At(events, j), id);
    }
  }

  /** A batch that was kept marks the report. */
  ghost predicate MarkedByKept(events: seq<Event>, id: string) {
    exists j: nat, k: nat :: Marks(events, j, k, id) && Kept(events, j)
  }

  /** While marks succeed: a marked report is in a message if and only if the batch that marked it was kept. */
  lemma SentExactlyWhenKept(events: seq<Event>, id: string)
    requires Feasible(Nothing, events) && !After(Nothing, events).markFailed && id in After(Nothing, events).delivered
    ensures Sent(After(Nothing, events), id) <==> MarkedByKept(events, id)
  {
    hide Feasible, After, At, Sent, Merges, Sends;
    Moment(events, |events|);
    var j, k := MarkedAt(events, |events|, id);
    MarkedWasSentExactlyWhen(events, j, k, id);
    if !Kept(events, j) {
      assert MarksMerged(events, j, k);
      var lost := MergedMark(events, j, k);
      assert lost == id;
    }
    if j': nat, k': nat :| Marks(events, j', k', id) && Kept(events, j') {
      MarkedWasSentExactlyWhen(events, j', k', id);
    }
  }

  lemma UnmarkedInBatch(d: Delivery, id: string)
    requires DeliveryInv(d) && d.progress.TurnCreated? && id in d.progress.batch
    ensures id !in d.delivered
  {
    hide Inv, AcceptedOk, SentAreMarked;
  }

  lemma NotSent(d: Delivery, id: string)
    requires !Owing(d) && id !in d.delivered
    ensures !Sent(d, id)
  {
  }

  // -------- when no batch is merged --------

  /** No client submits a batch while the service prepares one. */
  ghost predicate ClientsLeaveBatchesAlone(events: seq<Event>) {
    forall k :: 0 <= k < |events| && events[k].User? && events[k].action.Submit? && events[k].action.turn.kind == ReportBatch ==>
      At(events, k).progress.Unlocked? || At(events, k).progress.Marking?
  }

  predicate Preparing(p: Progress) {
    p.SawIdle? || p.Listed? || p.TurnCreated?
  }

  lemma {:induction false} PreparesAlone(events: seq<Event>, k: nat)
    requires Feasible(Nothing, events) && k <= |events| && ClientsLeaveBatchesAlone(events)
    ensures var d := At(events, k); Preparing(d.progress) ==> BatchFree(d.session.state)
  {
    hide Feasible, After, At, BatchFree, Next, Possible, DeliveryInv;
    Moment(events, k);
    if k == 0 {
      Moment(events, 0);
    } else {
      PreparesAlone(events, k - 1);
      Moment(events, k - 1);
      StepPrepares(At(events, k - 1), events[k - 1]);
    }
  }

  lemma StepPrepares(d: Delivery, e: Event)
    requires DeliveryInv(d) && Possible(d, e) && (Preparing(d.progress) ==> BatchFree(d.session.state))
    requires Preparing(d.progress) && e.User? && e.action.Submit? ==> e.action.turn.kind == UserMessage
    ensures Preparing(Next(d, e).progress) ==> BatchFree(Next(d, e).session.state)
  {
    if e.User? {
      hide DeliveryInv, BatchFree, Step;
      if Preparing(d.progress) {
        StepAddsBatchExactlyWhen(d.session, e.action);
      }
    } else {
      IdleIsFree(d);
      hide DeliveryInv, BatchFree, Step, SubmitTurn, Undelivered;
    }
  }

  lemma IdleIsFree(d: Delivery)
    requires DeliveryInv(d)
    ensures var s := d.session.state; s.active.None? ==> BatchFree(s)
  {
    hide BatchesOk, AcceptedOk, SentAreMarked;
  }

  /** Unless a client submits a batch while one is prepared, no batch is merged. */
  lemma BatchesAreKept(events: seq<Event>, j: nat)
    requires Feasible(Nothing, events) && ClientsLeaveBatchesAlone(events) && j < |events|
    ensures !Merged(events, j)
  {
    hide Feasible, After, At, DeliveryInv, BatchFree;
    if events[j].SubmitBatch? {
      SubmitsWhatItPrepared(events, j);
      PreparesAlone(events, j);
      FreeDoesNotMerge(At(events, j).session.state);
    }
  }

  lemma KeptWhenLeftAlone(events: seq<Event>, id: string)
    requires Feasible(Nothing, events) && ClientsLeaveBatchesAlone(events) && id in After(Nothing, events).delivered
    ensures MarkedByKept(events, id)
  {
    hide Feasible, After, At, ClientsLeaveBatchesAlone, Merges;
    Moment(events, |events|);
    var j, k := MarkedAt(events, |events|, id);
    BatchesAreKept(events, j);
    assert Marks(events, j, k, id) && Kept(events, j);
  }

  lemma FreeDoesNotMerge(s: State)
    requires BatchFree(s)
    ensures !Merges(s)
  {
    NoBatchQueued(s.queue);
  }

  /** Then, whether or not marks fail, each marked report was sent, and one is sent again exactly if a batch follows a failed mark. */
  lemma UndisturbedDelivery(events: seq<Event>)
    requires Feasible(Nothing, events) && ClientsLeaveBatchesAlone(events)
    ensures forall id :: id in After(Nothing, events).delivered ==> Sent(After(Nothing, events), id)
    ensures SentAgain(After(Nothing, events)) <==>
              exists j :: 0 <= j < |events| && events[j].SubmitBatch? && MarkNext(false) in events[..j]
  {
    hide Feasible, After, At, Sent, SentAgain, ClientsLeaveBatchesAlone, Merges;
    forall j | 0 <= j < |events| ensures !Merged(events, j) {
      BatchesAreKept(events, j);
    }
    MarkedReportsWereSentExactlyWhen(events);
    SentAgainAfterFailure(events);
  }

  // -------- a run that loses a report --------

  /** A client's turn and a client's batch arrive while the service prepares its own: that is merged, and its report is marked in no message. */
  lemma MergedBatchIsLost() returns (events: seq<Event>)
    ensures Feasible(Nothing, events)
    ensures var d := After(Nothing, events);
            && d.delivered == {"r"} && d.accepted == map[] && !d.markFailed
            && d.session.outcome == map["b" := Coalesced("x")]
  {
    NothingPrepared();
    hide Feasible, After, Undelivered, Step;
    var d: Delivery;
    events, d := Do([], Nothing, ReportCreated("r", 0));
    events, d := Do(events, d, CheckQueue);
    events, d := Do(events, d, ListReports(true));
    events, d := Do(events, d, CreateTurn("b", true));
    ClientsArrive();
    var u, x := Submit(Turn("u", UserMessage)), Submit(Turn("x", ReportBatch));
    events, d := Do(events, d, User(u));
    events, d := Do(events, d, User(x));
    events, d := Do(events, d, SubmitBatch);
    events, d := Do(events, d, MarkNext(true));
  }

  lemma NothingPrepared()
    ensures Feasible(Nothing, []) && After(Nothing, []) == Nothing
    ensures Undelivered(["r"], {}) == ["r"]
  {
    assert ["r"][..0] == [];
  }

  lemma ClientsArrive()
    ensures var w1 := Step(Start, Submit(Turn("u", UserMessage)));
            && Enabled(Start, Submit(Turn("u", UserMessage))) && Enabled(w1, Submit(Turn("x", ReportBatch)))
            && var w2 := Step(w1, Submit(Turn("x", ReportBatch)));
               && Enabled(w2, Submit(Turn("b", ReportBatch))) && SubmitTurn(w2.state, Turn("b", ReportBatch)).1 == "x"
               && Step(w2, Submit(Turn("b", ReportBatch))).outcome == map["b" := Coalesced("x")]
  {
    var w1 := Step(Start, Submit(Turn("u", UserMessage)));
    assert w1.state.queue == [] && w1.state.active == Some(Turn("u", UserMessage)) && w1.submitted == ["u"] && w1.outcome == map[];
    BatchWaits(w1);
  }

  lemma BatchWaits(w1: World)
    requires w1.state.queue == [] && w1.state.active == Some(Turn("u", UserMessage)) && w1.submitted == ["u"] && w1.outcome == map[]
    ensures Enabled(w1, Submit(Turn("x", ReportBatch)))
    ensures var w2 := Step(w1, Submit(Turn("x", ReportBatch)));
            && Enabled(w2, Submit(Turn("b", ReportBatch))) && SubmitTurn(w2.state, Turn("b", ReportBatch)).1 == "x"
            && Step(w2, Submit(Turn("b", ReportBatch))).outcome == map["b" := Coalesced("x")]
  {
    hide QueuedBatch, CountKind;
    assert QueuedBatch([]).None?;
    OneWaits("x");
    var w2 := Step(w1, Submit(Turn("x", ReportBatch)));
    assert w2.submitted == ["u", "x"] && w2.state.queue == [Turn("x", ReportBatch)] && w2.outcome == map[];
    hide Recount, CancelActiveRun, Activate;
  }

  lemma OneWaits(id: string)
    ensures QueuedBatch([Turn(id, ReportBatch)]) == Some(id)
  {
    assert [Turn(id, ReportBatch)][..0] == [];
  }
}
