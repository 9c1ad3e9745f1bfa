/** The turn queue of one session (internal/v2/session/manager.go). */
module SessionQueue {
  import opened Basics

  datatype Kind = UserMessage | ReportBatch

  datatype Turn = Turn(id: string, kind: Kind)

  datatype AgentRun = AgentRun(turnId: string, cancelled: bool, returned: bool) {
    predicate Running() {
      !cancelled && !returned
    }
  }

  datatype Counters = Counters(depth: nat, userTurns: nat, reportBatches: nat)

  /**
   What RuntimeState holds, plus every agent run ever started for the session: a run is live
   until its goroutine calls finishTurn, and its context may have been cancelled before that.
   */
  datatype State = State(
    active: Option<Turn>,
    queue: seq<Turn>,
    counters: Counters,
    cancel: Option<nat>,   // the run whose context the stored cancel function ends
    runs: seq<AgentRun>)

  const Idle := State(None, [], Counters(0, 0, 0), None, [])

  function NormalizeTurnKind(kind: string): (k: Kind)
    ensures k.ReportBatch? <==> kind == "report_batch"
  {
    if kind == "report_batch" then ReportBatch else UserMessage
  }

  function CountKind(queue: seq<Turn>, kind: Kind): nat {
    if queue == [] then 0
    else CountKind(queue[..|queue| - 1], kind) + if queue[|queue| - 1].kind == kind then 1 else 0
  }

  function Recount(queue: seq<Turn>): Counters {
    Counters(|queue|, CountKind(queue, UserMessage), CountKind(queue, ReportBatch))
  }

  // -------- the locked helpers --------

  function CancelActiveRun(s: State): State {
    if s.cancel.Some? && s.cancel.value < |s.runs| then
      var r := s.cancel.value;
      s.(runs := s.runs[r := s.runs[r].(cancelled := true)])
    else s
  }

  function ClearActive(s: State): State {
    s.(active := None, cancel := None, counters := Recount(s.queue))
  }

  function Activate(s: State, turn: Turn): State {
    s.(active := Some(turn), cancel := Some(|s.runs|), counters := Recount(s.queue),
       runs := s.runs + [AgentRun(turn.id, false, false)])
  }

  function DequeueAndActivate(s: State): State {
    if s.queue == [] then s.(counters := Recount(s.queue))
    else Activate(s.(queue := s.queue[1..]), s.queue[0])
  }

  /** The queued report batch that a further batch is merged into, if there is one. */
  function QueuedBatch(queue: seq<Turn>): (b: Option<string>)
    ensures b.None? ==> CountKind(queue, ReportBatch) == 0
    ensures b.Some? ==> exists i :: 0 <= i < |queue| && queue[i].kind == ReportBatch && queue[i].id == b.value
  {
    if queue == [] then None
    else
      var front := QueuedBatch(queue[..|queue| - 1]);
      if front.Some? then front
      else if queue[|queue| - 1].kind == ReportBatch then Some(queue[|queue| - 1].id) else None
  }

  function Enqueue(queue: seq<Turn>, turn: Turn): (seq<Turn>, string, bool) {
    if turn.kind == ReportBatch && QueuedBatch(queue).Some? then (queue, QueuedBatch(queue).value, false)
    else (queue + [turn], turn.id, true)
  }

  predicate IsActive(active: Option<Turn>, id: string) {
    active.Some? && active.value.id == id
  }

  predicate InQueue(queue: seq<Turn>, id: string) {
    exists i :: 0 <= i < |queue| && queue[i].id == id
  }

  function IndexOf(queue: seq<Turn>, id: string): (i: nat)
    requires InQueue(queue, id)
    ensures i < |queue| && queue[i].id == id
    ensures forall j :: 0 <= j < i ==> queue[j].id != id
  {
    if queue[0].id == id then 0
    else
      assert InQueue(queue[1..], id) by {
        var k :| 0 <= k < |queue| && queue[k].id == id;
        assert queue[1..][k - 1].id == id;
      }
      1 + IndexOf(queue[1..], id)
  }

  // -------- the public operations --------

  /** SubmitTurn: the new state and the turn id handed back to the caller. */
  function SubmitTurn(s: State, turn: Turn): (State, string) {
    if s.active.Some? then
      if s.active.value.kind == ReportBatch && turn.kind == UserMessage then
        (Activate(ClearActive(CancelActiveRun(s)), turn), turn.id)
      else
        var (queue, id, _) := Enqueue(s.queue, turn);
        (s.(queue := queue, counters := Recount(queue)), id)
    else (Activate(s, turn), turn.id)
  }

  /** CancelTurn for a non-blank id: the new state and whether a turn was cancelled. */
  function CancelTurn(s: State, id: string): (State, bool) {
    if s.active.Some? && s.active.value.id == id then
      (DequeueAndActivate(ClearActive(CancelActiveRun(s))), true)
    else if InQueue(s.queue, id) then
      var i := IndexOf(s.queue, id);
      var queue := s.queue[..i] + s.queue[i + 1..];
      (s.(queue := queue, counters := Recount(queue)), true)
    else (s, false)
  }

  function FinishTurn(s: State, id: string): State {
    if s.active.Some? && s.active.value.id == id then DequeueAndActivate(ClearActive(s)) else s
  }

  /** The goroutine of a run ends: RunTurn has returned and finishTurn takes the lock. */
  function AgentReturns(s: State, r: nat): State
    requires r < |s.runs|
  {
    FinishTurn(s.(runs := s.runs[r := s.runs[r].(returned := true)]), s.runs[r].turnId)
  }
}

/** Whole runs of the session queue: what holds after any sequence of operations. */
module SessionRuns {
  import opened Basics
  import opened SessionQueue

  datatype Action = Submit(turn: Turn) | Cancel(id: string) | Return(run: nat)

  datatype Outcome = Finished | Cancelled | Preempted | Coalesced(into: string)

  /** A state with its history: ids in submission order, ids that ever waited, how turns ended. */
  datatype World = World(state: State, submitted: seq<string>, waited: set<string>, outcome: map<string, Outcome>)

  const Start := World(Idle, [], {}, map[])

  /** Turn ids are never blank and never reused; only a live goroutine can return. */
  predicate Enabled(w: World, a: Action) {
    match a
    case Submit(turn) => turn.id != "" && turn.id !in w.submitted
    case Cancel(_) => true
    case Return(r) => r < |w.state.runs| && !w.state.runs[r].returned
  }

  function Ended(w: World, s: State, how: Outcome): World
    requires w.state.active.Some?
  {
    w.(state := s, outcome := w.outcome[w.state.active.value.id := how])
  }

  function NextState(s: State, a: Action): State {
    match a
    case Submit(turn) => SubmitTurn(s, turn).0
    case Cancel(id) => CancelTurn(s, id).0
    case Return(r) => if r < |s.runs| then AgentReturns(s, r) else s
  }

  function Step(w: World, a: Action): World
    requires Enabled(w, a)
  {
    var s, s' := w.state, NextState(w.state, a);
    match a
    case Submit(turn) =>
      var id := SubmitTurn(s, turn).1;
      var w' := w.(submitted := w.submitted + [turn.id]);
      if id != turn.id then w'.(state := s', outcome := w.outcome[turn.id := Coalesced(id)])
      else if s'.active != Some(turn) then w'.(state := s', waited := w.waited + {turn.id})
      else if s.active.Some? then Ended(w', s', Preempted)
      else w'.(state := s')
    case Cancel(id) =>
      if CancelTurn(s, id).1 then w.(state := s', outcome := w.outcome[id := Cancelled]) else w.(state := s')
    case Return(r) =>
      if s.active.Some? && s.active.value.id == s.runs[r].turnId then Ended(w, s', Finished) else w.(state := s')
  }

  ghost predicate Legal(w: World, actions: seq<Action>)
    decreases |actions|
  {
    actions == [] || (Enabled(w, actions[0]) && Legal(Step(w, actions[0]), actions[1..]))
  }

  ghost function Run(w: World, actions: seq<Action>): World
    requires Legal(w, actions)
    decreases |actions|
  {
    if actions == [] then w else Run(Step(w, actions[0]), actions[1..])
  }

  // -------- the invariant, in parts --------

  predicate Started(runs: seq<AgentRun>, id: string) {
    exists r :: 0 <= r < |runs| && runs[r].turnId == id
  }

  /** Ids of runs and of queued turns are submitted, distinct and disjoint. */
  ghost predicate IdsOk(submitted: seq<string>, queue: seq<Turn>, runs: seq<AgentRun>) {
    && Distinct(submitted)
    && "" !in submitted
    && (forall i :: 0 <= i < |queue| ==> queue[i].id in submitted)
    && (forall r :: 0 <= r < |runs| ==> runs[r].turnId in submitted)
    && (forall i, j :: 0 <= i < j < |queue| ==> queue[i].id != queue[j].id)
    && (forall r, t :: 0 <= r < t < |runs| ==> runs[r].turnId != runs[t].turnId)
    && (forall r, i :: 0 <= r < |runs| && 0 <= i < |queue| ==> runs[r].turnId != queue[i].id)
  }

  /** The one running agent is the active turn's. */
  ghost predicate ActiveOk(active: Option<Turn>, cancel: Option<nat>, runs: seq<AgentRun>) {
    && (active.Some? <==> cancel.Some?)
    && (active.Some? ==> cancel.value < |runs| && runs[cancel.value].turnId == active.value.id)
    && (forall r :: 0 <= r < |runs| ==> (runs[r].Running() <==> cancel == Some(r)))
  }

  /** An idle session has nothing queued, at most one batch waits, the counters are a recount. */
  ghost predicate QueueOk(s: State) {
    && (s.active.None? ==> s.queue == [])
    && CountKind(s.queue, ReportBatch) <= 1
    && s.counters == Recount(s.queue)
  }

  /** Every submitted id is active, queued or ended, and only one of these. */
  ghost predicate Conserved(submitted: seq<string>, outcome: map<string, Outcome>, active: Option<Turn>, queue: seq<Turn>) {
    && (forall id :: id in submitted <==> id in outcome || IsActive(active, id) || InQueue(queue, id))
    && (forall id :: id in outcome ==> !InQueue(queue, id) && !IsActive(active, id))
    && (forall id :: InQueue(queue, id) ==> !IsActive(active, id))
  }

  /** How a turn ended agrees with whether and how its agent ran. */
  ghost predicate OutcomesOk(submitted: seq<string>, outcome: map<string, Outcome>, runs: seq<AgentRun>) {
    && (forall id :: id in outcome && (outcome[id].Finished? || outcome[id].Preempted?) ==> Started(runs, id))
    && (forall id :: id in outcome && outcome[id].Coalesced? ==>
          !Started(runs, id) && outcome[id].into in submitted && outcome[id].into != id)
    && (forall r :: 0 <= r < |runs| && runs[r].turnId in outcome ==>
          (outcome[runs[r].turnId].Finished? <==> !runs[r].cancelled))
  }

  /** a was submitted before b. */
  ghost predicate Before(submitted: seq<string>, a: string, b: string) {
    a in submitted && b in submitted && Pos(submitted, a) < Pos(submitted, b)
  }

  /** The queue is in submission order and what waited was started in that order. */
  ghost predicate OrderOk(submitted: seq<string>, waited: set<string>, queue: seq<Turn>, runs: seq<AgentRun>) {
    && (forall i :: 0 <= i < |queue| ==> queue[i].id in waited)
    && (forall i, j :: 0 <= i < j < |queue| ==> Before(submitted, queue[i].id, queue[j].id))
    && (forall r, i :: 0 <= r < |runs| && runs[r].turnId in waited && 0 <= i < |queue| ==>
          Before(submitted, runs[r].turnId, queue[i].id))
    && (forall r, t :: 0 <= r < t < |runs| && runs[r].turnId in waited && runs[t].turnId in waited ==>
          Before(submitted, runs[r].turnId, runs[t].turnId))
    && (forall id :: id in waited ==> id in submitted)
  }

  /** How many turns submitted after id have been started so far. */
  ghost function Overtakes(runs: seq<AgentRun>, submitted: seq<string>, id: string): nat {
    if runs == [] then 0
    else Overtakes(runs[..|runs| - 1], submitted, id)
         + if Before(submitted, id, runs[|runs| - 1].turnId) then 1 else 0
  }

  function ActiveBatches(active: Option<Turn>): nat {
    if active.Some? && active.value.kind == ReportBatch then 1 else 0
  }

  /** The overtakes of the i-th queued turn plus the batches active or ahead of it. */
  ghost function Delay(w: World, i: nat): nat
    requires i < |w.state.queue|
  {
    Overtakes(w.state.runs, w.submitted, w.state.queue[i].id)
    + ActiveBatches(w.state.active) + CountKind(w.state.queue[..i], ReportBatch)
  }

  ghost predicate OvertakingOk(w: World) {
    forall i :: 0 <= i < |w.state.queue| ==> Delay(w, i) <= 1
  }

  ghost predicate Inv(w: World) {
    && IdsOk(w.submitted, w.state.queue, w.state.runs)
    && ActiveOk(w.state.active, w.state.cancel, w.state.runs)
    && QueueOk(w.state)
    && Conserved(w.submitted, w.outcome, w.state.active, w.state.queue)
    && OutcomesOk(w.submitted, w.outcome, w.state.runs)
    && OrderOk(w.submitted, w.waited, w.state.queue, w.state.runs)
    && OvertakingOk(w)
  }

  // -------- facts about counting --------

  lemma CountTail(queue: seq<Turn>, kind: Kind)
    requires queue != []
    ensures CountKind(queue, kind) == CountKind(queue[1..], kind) + if queue[0].kind == kind then 1 else 0
  {
    if |queue| > 1 {
      CountTail(queue[..|queue| - 1], kind);
      assert queue[..|queue| - 1][1..] == queue[1..][..|queue| - 2];
    }
  }

  /** Taking the i-th turn out leaves the others' counts as they were, and never raises one. */
  lemma CountRemove(queue: seq<Turn>, i: nat, j: nat, kind: Kind)
    requires i < |queue| && j < |queue|
    ensures CountKind((queue[..i] + queue[i + 1..])[..j], kind) <= CountKind(queue[..if j < i then j else j + 1], kind)
    decreases j
  {
    var removed := queue[..i] + queue[i + 1..];
    if j < i {
      assert removed[..j] == queue[..j];
    } else if j == i {
      assert removed[..j] == queue[..j];
      assert queue[..j + 1][..j] == queue[..j];
    } else {
      CountRemove(queue, i, j - 1, kind);
      assert removed[..j][..j - 1] == removed[..j - 1];
      assert queue[..j + 1][..j] == queue[..j];
    }
  }

  ghost predicate SameTurns(runs: seq<AgentRun>, runs': seq<AgentRun>) {
    |runs| == |runs'| && forall r :: 0 <= r < |runs| ==> runs'[r].turnId == runs[r].turnId
  }

  /** Turning flags of a run does not change which turns have been started. */
  lemma OvertakesSameTurns(runs: seq<AgentRun>, runs': seq<AgentRun>, submitted: seq<string>, id: string)
    requires SameTurns(runs, runs')
    ensures Overtakes(runs', submitted, id) == Overtakes(runs, submitted, id)
  {
    if runs != [] {
      OvertakesSameTurns(runs[..|runs| - 1], runs'[..|runs| - 1], submitted, id);
    }
  }

  lemma BeforeNewSubmission(submitted: seq<string>, next: string, a: string, b: string)
    requires a in submitted && b in submitted
    ensures Before(submitted + [next], a, b) == Before(submitted, a, b)
    ensures next !in submitted ==> Before(submitted + [next], a, next) && !Before(submitted + [next], next, a)
  {
    PosAppend(submitted, a, next);
    PosAppend(submitted, b, next);
  }

  /** A new submission overtakes nobody by being submitted, and nobody has overtaken it yet. */
  lemma OvertakesNewSubmission(runs: seq<AgentRun>, submitted: seq<string>, next: string, id: string)
    requires next !in submitted && (id in submitted || id == next)
    requires forall r :: 0 <= r < |runs| ==> runs[r].turnId in submitted
    ensures Overtakes(runs, submitted + [next], id) == if id == next then 0 else Overtakes(runs, submitted, id)
  {
    if runs != [] {
      OvertakesNewSubmission(runs[..|runs| - 1], submitted, next, id);
      var last := runs[|runs| - 1].turnId;
      if id == next {
        BeforeNewSubmission(submitted, next, last, last);
      } else {
        BeforeNewSubmission(submitted, next, id, last);
      }
    }
  }
}
