// The session manager as the program has it: per-session records updated in place
// under one lock (internal/v2/session/manager.go).
module SessionManager {
  import opened Basics
  import opened Text
  import opened SessionQueue

  datatype Error = SessionNotFound

  /** The queue's counters, by the loop over the queued turns. */
  method QueueCounters(queue: seq<Turn>) returns (depth: nat, users: nat, batches: nat)
    ensures Counters(depth, users, batches) == Recount(queue)
    ensures users + batches == depth
  {
    depth, users, batches := |queue|, 0, 0;
    for i := 0 to |queue|
      invariant users == CountKind(queue[..i], UserMessage)
      invariant batches == CountKind(queue[..i], ReportBatch)
      invariant users + batches == i
    {
      assert queue[..i + 1][..i] == queue[..i];
      if queue[i].kind == ReportBatch {
        batches := batches + 1;
      } else {
        users := users + 1;
      }
    }
    assert queue[..|queue|] == queue;
  }

  /** Appends the turn, or finds the report batch that a further batch is merged into. */
  method EnqueueQueuedTurn(queue: seq<Turn>, turn: Turn) returns (result: seq<Turn>, id: string, added: bool)
    ensures (result, id, added) == Enqueue(queue, turn)
    ensures added ==> id == turn.id && result == queue + [turn]
    ensures !added ==> result == queue && exists i :: 0 <= i < |queue| && queue[i] == Turn(id, ReportBatch)
  {
    if turn.kind == ReportBatch {
      for i := 0 to |queue|
        invariant QueuedBatch(queue[..i]).None?
      {
        assert queue[..i + 1][..i] == queue[..i];
        if queue[i].kind == ReportBatch {
          QueuedBatchOfPrefix(queue, i + 1);
          assert queue[i] == Turn(queue[i].id, ReportBatch);
          return queue, queue[i].id, false;
        }
      }
      assert queue[..|queue|] == queue;
    }
    return queue + [turn], turn.id, true;
  }

  /** The batch found in a prefix is the one found in the whole queue. */
  lemma QueuedBatchOfPrefix(queue: seq<Turn>, n: nat)
    requires n <= |queue| && QueuedBatch(queue[..n]).Some?
    ensures QueuedBatch(queue) == QueuedBatch(queue[..n])
    decreases |queue|
  {
    if n == |queue| {
      assert queue[..n] == queue;
    } else {
      assert queue[..|queue| - 1][..n] == queue[..n];
      QueuedBatchOfPrefix(queue[..|queue| - 1], n);
    }
  }

  /** RuntimeState, with the goroutines started for the session. */
  class RuntimeState {
    var activeTurnId: string
    var activeTurnKind: Kind
    var queueDepth: nat
    var queuedUserTurns: nat
    var queuedReportBatches: nat
    var queue: seq<Turn>
    var cancel: Option<nat>
    var runs: seq<AgentRun>

    /** The record as a value; an empty active id means that the session is idle. */
    function Value(): State
      reads this
    {
      State(if activeTurnId == "" then None else Some(Turn(activeTurnId, activeTurnKind)),
            queue, Counters(queueDepth, queuedUserTurns, queuedReportBatches), cancel, runs)
    }

    /** Turn ids are never blank, and the stored cancel function is that of a started run. */
    ghost predicate Valid()
      reads this
    {
      && (activeTurnId != "" ==> !IsBlank(activeTurnId))
      && (forall i :: 0 <= i < |queue| ==> !IsBlank(queue[i].id))
      && (cancel.Some? ==> cancel.value < |runs|)
    }

    constructor ()
      ensures Valid() && Value() == Idle
    {
      activeTurnId, activeTurnKind := "", UserMessage;
      queueDepth, queuedUserTurns, queuedReportBatches := 0, 0, 0;
      queue, cancel, runs := [], None, [];
    }

    method RefreshQueueCounters()
      modifies this`queueDepth, this`queuedUserTurns, this`queuedReportBatches
      ensures Value() == old(Value()).(counters := Recount(queue))
    {
      queueDepth, queuedUserTurns, queuedReportBatches := QueueCounters(queue);
    }

    method CallCancel()
      requires Valid()
      modifies this`runs
      ensures Valid() && Value() == CancelActiveRun(old(Value()))
    {
      if cancel.Some? {
        runs := runs[cancel.value := runs[cancel.value].(cancelled := true)];
      }
    }

    method ClearActiveTurn()
      requires Valid()
      modifies this
      ensures Valid() && Value() == ClearActive(old(Value()))
    {
      activeTurnId, activeTurnKind := "", UserMessage;
      cancel := None;
      RefreshQueueCounters();
    }

    /** Activates the turn; the goroutine that runs it is started with its fresh context. */
    method ActivateTurn(turn: Turn)
      requires Valid() && !IsBlank(turn.id)
      modifies this
      ensures Valid() && Value() == Activate(old(Value()), turn)
    {
      cancel := Some(|runs|);
      activeTurnId, activeTurnKind := turn.id, turn.kind;
      RefreshQueueCounters();
      runs := runs + [AgentRun(turn.id, false, false)];
    }

    method DequeueAndActivateNext()
      requires Valid()
      modifies this
      ensures Valid() && Value() == DequeueAndActivate(old(Value()))
    {
      if |queue| == 0 {
        RefreshQueueCounters();
      } else {
        var next := queue[0];
        queue := queue[1..];
        ActivateTurn(next);
      }
    }
  
    /** startTurn once the session is found. */
    method StartTurn(turn: Turn) returns (id: string)
      requires Valid() && !IsBlank(turn.id)
      modifies this
      ensures Valid()
      ensures (Value(), id) == SubmitTurn(old(Value()), turn)
    {
      if activeTurnId != "" {
        if activeTurnKind == ReportBatch && turn.kind == UserMessage {
          CallCancel();
          ClearActiveTurn();
          ActivateTurn(turn);
          return turn.id;
        }
        var added: bool;
        queue, id, added := EnqueueQueuedTurn(queue, turn);
        RefreshQueueCounters();
      } else {
        ActivateTurn(turn);
        id := turn.id;
      }
    }

    /** CancelTurn once the session is found. */
    method CancelTurn(turnId: string) returns (ok: bool)
      requires Valid()
      modifies this
      ensures Valid()
      ensures (Value(), ok) == SessionQueue.CancelTurn(old(Value()), turnId)
      ensures ok <==> IsActive(old(Value()).active, turnId) || InQueue(old(Value()).queue, turnId)
    {
      if IsBlank(turnId) {
        return false;
      }
      if activeTurnId == turnId {
        CallCancel();
        ClearActiveTurn();
        DequeueAndActivateNext();
        return true;
      }
      for i := 0 to |queue|
        invariant Valid() && Value() == old(Value())
        invariant forall j :: 0 <= j < i ==> queue[j].id != turnId
      {
        if queue[i].id == turnId {
          assert IndexOf(queue, turnId) == i;
          queue := queue[..i] + queue[i + 1..];
          RefreshQueueCounters();
          return true;
        }
      }
      return false;
    }

    /** finishTurn once the session is found. */
    method FinishTurn(turnId: string)
      requires Valid() && !IsBlank(turnId)
      modifies this
      ensures Valid() && Value() == SessionQueue.FinishTurn(old(Value()), turnId)
    {
      if activeTurnId == turnId {
        ClearActiveTurn();
        DequeueAndActivateNext();
      }
    }

    /** The goroutine of run r is done: RunTurn has returned, and finishTurn is called with its turn id. */
    method RunReturns(r: nat)
      requires Valid() && r < |runs| && !IsBlank(runs[r].turnId)
      modifies this
      ensures Valid() && Value() == AgentReturns(old(Value()), r)
    {
      runs := runs[r := runs[r].(returned := true)];
      FinishTurn(runs[r].turnId);
    }
  }

  class Manager {
    var sessions: set<string>
    var runtime: map<string, RuntimeState>

    /** Registered sessions have a record of their own. */
    ghost predicate Valid()
      reads this, runtime.Values
    {
      && sessions <= runtime.Keys
      && (forall id :: id in runtime ==> runtime[id].Valid())
      && (forall a, b :: a in runtime && b in runtime && a != b ==> runtime[a] != runtime[b])
    }

    /** Everything but one session's record is as it was. */
    twostate predicate OnlyTouches(sessionId: string)
      reads this, runtime.Values
    {
      && sessions == old(sessions) && runtime == old(runtime)
      && forall id :: id in runtime && id != sessionId ==> runtime[id].Value() == old(runtime[id].Value())
    }

    constructor ()
      ensures Valid() && sessions == {} && runtime == map[]
    {
      sessions, runtime := {}, map[];
    }

    method Register(sessionId: string)
      requires Valid()
      modifies this
      ensures Valid() && sessions == old(sessions) + {sessionId}
      ensures sessionId in old(runtime) ==> runtime == old(runtime)
      ensures sessionId !in old(runtime) ==>
                && runtime == old(runtime)[sessionId := runtime[sessionId]]
                && fresh(runtime[sessionId]) && runtime[sessionId].Value() == Idle
    {
      sessions := sessions + {sessionId};
      if sessionId !in runtime {
        var state := new RuntimeState();
        runtime := runtime[sessionId := state];
      }
    }

    /** SubmitTurn; generatedId is the id made up for a turn that comes without one. */
    method SubmitTurn(sessionId: string, id: string, kind: string, generatedId: string) returns (r: Result<string, Error>)
      requires Valid() && !IsBlank(generatedId)
      modifies if sessionId in sessions then {runtime[sessionId]} else {}
      ensures Valid() && OnlyTouches(sessionId)
      ensures sessionId !in sessions ==> r == Err(SessionNotFound)
      ensures sessionId in sessions ==>
                var turn := Turn(if IsBlank(id) then generatedId else id, NormalizeTurnKind(kind));
                var (s, returned) := SessionQueue.SubmitTurn(old(runtime[sessionId].Value()), turn);
                runtime[sessionId].Value() == s && r == Ok(returned)
    {
      if sessionId !in sessions {
        return Err(SessionNotFound);
      }
      var turn := Turn(if IsBlank(id) then generatedId else id, NormalizeTurnKind(kind));
      var returned := runtime[sessionId].StartTurn(turn);
      r := Ok(returned);
    }

    method CancelTurn(sessionId: string, turnId: string) returns (ok: bool)
      requires Valid()
      modifies if sessionId in runtime then {runtime[sessionId]} else {}
      ensures Valid() && OnlyTouches(sessionId)
      ensures sessionId !in runtime ==> !ok
      ensures sessionId in runtime ==>
                (runtime[sessionId].Value(), ok) == SessionQueue.CancelTurn(old(runtime[sessionId].Value()), turnId)
      ensures sessionId in runtime ==>
                var s := old(runtime[sessionId].Value()); ok <==> IsActive(s.active, turnId) || InQueue(s.queue, turnId)
    {
      if sessionId !in runtime {
        return false;
      }
      ok := runtime[sessionId].CancelTurn(turnId);
    }

    /** The active turn's id and kind, and the queue's counters. */
    method QueuePayload(sessionId: string) returns (r: Option<(string, Option<Kind>, Counters)>)
      requires Valid()
      ensures r.None? <==> sessionId !in runtime
      ensures r.Some? ==> var s := runtime[sessionId].Value();
                          && r.value.2 == s.counters && (r.value.0 == "" <==> s.active.None?)
                          && r.value.1 == (if s.active.Some? then Some(s.active.value.kind) else None)
                          && (s.active.Some? ==> r.value.0 == s.active.value.id)
    {
      if sessionId !in runtime {
        return None;
      }
      var state := runtime[sessionId];
      return Some((state.activeTurnId,
                   if state.activeTurnId == "" then None else Some(state.activeTurnKind),
                   Counters(state.queueDepth, state.queuedUserTurns, state.queuedReportBatches)));
    }
  }
}
