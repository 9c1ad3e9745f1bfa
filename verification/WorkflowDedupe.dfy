/** Workflow runs made once for each key (internal/v2/store/workflow_repo.go). */
module WorkflowDedupe {
  import opened Basics
  import opened Text

  datatype Run = Run(id: string, workflowId: string, dedupeRef: string, state: string, triggerRef: string)

  /** A row, and the caller whose insert made it, if one of ours. */
  datatype Row = Row(run: Run, owner: Option<nat>)

  datatype Conflict = DedupeTaken | OtherFailure

  function Normalized(run: Run): Run {
    Run(TrimSpace(run.id), TrimSpace(run.workflowId), TrimSpace(run.dedupeRef),
        if TrimSpace(run.state) == "" then "queued" else TrimSpace(run.state), TrimSpace(run.triggerRef))
  }

  predicate HasKey(run: Run, workflowId: string, dedupeRef: string) {
    run.workflowId == workflowId && run.dedupeRef == dedupeRef
  }

  // -------- the table --------

  function FindByKey(rows: seq<Row>, workflowId: string, dedupeRef: string): Option<Run> {
    if rows == [] then None
    else if HasKey(rows[0].run, workflowId, dedupeRef) then Some(rows[0].run)
    else FindByKey(rows[1..], workflowId, dedupeRef)
  }

  predicate IdTaken(rows: seq<Row>, id: string) {
    exists i :: 0 <= i < |rows| && rows[i].run.id == id
  }

  /**
   The insert, under the primary key and the unique index over keys that are not empty.
   If both are violated, either may be reported.
   */
  function Insert(rows: seq<Row>, row: Row, fails: bool, idFirst: bool): Result<seq<Row>, Conflict> {
    var keyTaken := row.run.dedupeRef != "" && FindByKey(rows, row.run.workflowId, row.run.dedupeRef).Some?;
    if fails then Err(OtherFailure)
    else if IdTaken(rows, row.run.id) && (idFirst || !keyTaken) then Err(OtherFailure)
    else if keyTaken then Err(DedupeTaken)
    else Ok(rows + [row])
  }

  class RunTable {
    var rows: seq<Row>

    constructor ()
      ensures rows == []
    {
      rows := [];
    }

    /** The query may fail; finding nothing is no failure here. */
    method GetRunByDedupeRef(workflowId: string, dedupeRef: string, fails: bool) returns (found: Result<Option<Run>, Conflict>)
      ensures found == if fails then Err(OtherFailure) else Ok(FindByKey(rows, TrimSpace(workflowId), TrimSpace(dedupeRef)))
    {
      hide HasKey, TrimSpace;
      if fails {
        return Err(OtherFailure);
      }
      assert rows[0..] == rows;
      for i := 0 to |rows|
        invariant FindByKey(rows, TrimSpace(workflowId), TrimSpace(dedupeRef)) == FindByKey(rows[i..], TrimSpace(workflowId), TrimSpace(dedupeRef))
      {
        assert rows[i..][1..] == rows[i + 1..];
        if HasKey(rows[i].run, TrimSpace(workflowId), TrimSpace(dedupeRef)) {
          return Ok(Some(rows[i].run));
        }
      }
      return Ok(None);
    }

    /** A run is stored exactly if neither its id nor its key is taken; then its key finds it, and no other row is touched. */
    method CreateRun(run: Run, caller: nat, fails: bool, idFirst: bool) returns (r: Result<(), Conflict>)
      modifies this
      ensures r.Err? ==> Insert(old(rows), Row(Normalized(run), Some(caller)), fails, idFirst) == Err(r.error)
      ensures var made := Normalized(run);
              r.Ok? <==> !fails && !IdTaken(old(rows), made.id)
                         && (made.dedupeRef != "" ==> FindByKey(old(rows), made.workflowId, made.dedupeRef).None?)
      ensures rows == if r.Ok? then old(rows) + [Row(Normalized(run), Some(caller))] else old(rows)
      ensures KeysUnique(old(rows)) ==> KeysUnique(rows)
      ensures var made := Normalized(run);
              r.Ok? && made.dedupeRef != "" ==> FindByKey(rows, made.workflowId, made.dedupeRef) == Some(made)
    {
      hide Normalized, FindByKey, IdTaken, KeysUnique;
      var row := Row(Normalized(run), Some(caller));
      ghost var before := rows;
      match Insert(rows, row, fails, idFirst)
      case Ok(after) =>
        rows := after;
        if KeysUnique(before) {
          InsertKeepsKeys(before, row, fails, idFirst);
        }
        if row.run.dedupeRef != "" {
          FoundLast(before, row);
        }
        return Ok(());
      case Err(c) =>
        return Err(c);
    }

    /** One caller; other writers add rows between its first look and its insert, and before it looks again. */
    method GetOrCreateRunByDedupeRef(given: Run, caller: nat, luck: Luck) returns (r: Result<(Run, bool), Conflict>)
      modifies this
      ensures (rows, r) == GotOrCreated(old(rows), given, caller, luck)
    {
      NormalizedTwice(given);
      NormalizedIsTrimmed(given);
      hide Normalized, FindByKey, IdTaken, KeysUnique, TrimSpace;
      var run := Normalized(given);
      if run.dedupeRef == "" {
        var created := CreateRun(run, caller, luck.insertFails, luck.idFirst);
        return if created.Err? then Err(created.error) else Ok((run, true));
      }
      var existing := GetRunByDedupeRef(run.workflowId, run.dedupeRef, luck.lookFails);
      if existing.Err? {
        return Err(existing.error);
      }
      if existing.value.Some? {
        return Ok((existing.value.value, false));
      }
      rows := rows + luck.meanwhile;
      var created := CreateRun(run, caller, luck.insertFails, luck.idFirst);
      if created.Err? {
        if created.error != DedupeTaken {
          return Err(created.error);
        }
        rows := rows + luck.afterwards;
        existing := GetRunByDedupeRef(run.workflowId, run.dedupeRef, luck.lookAgainFails);
        return if existing.Err? then Err(existing.error)
               else if existing.value.None? then Err(OtherFailure)
               else Ok((existing.value.value, false));
      }
      return Ok((run, true));
    }
  }

  /** What happens around a call: rows others add in between, and which of its queries fail. */
  datatype Luck = Luck(lookFails: bool, meanwhile: seq<Row>, insertFails: bool, idFirst: bool, afterwards: seq<Row>, lookAgainFails: bool)

  lemma {:induction false} FoundLast(rows: seq<Row>, row: Row)
    requires FindByKey(rows, row.run.workflowId, row.run.dedupeRef).None?
    ensures FindByKey(rows + [row], row.run.workflowId, row.run.dedupeRef) == Some(row.run)
  {
    if rows == [] {
      assert [] + [row] == [row];
    } else {
      assert (rows + [row])[0] == rows[0] && (rows + [row])[1..] == rows[1..] + [row];
      FoundLast(rows[1..], row);
    }
  }

  lemma NormalizedIsTrimmed(run: Run)
    ensures TrimSpace(Normalized(run).workflowId) == Normalized(run).workflowId
    ensures TrimSpace(Normalized(run).dedupeRef) == Normalized(run).dedupeRef
  {
    NormalizedTwice(run);
    hide TrimSpace;
    var once := Normalized(run);
    assert Normalized(once).workflowId == TrimSpace(once.workflowId);
    assert Normalized(once).dedupeRef == TrimSpace(once.dedupeRef);
  }

  lemma NormalizedTwice(run: Run)
    ensures Normalized(Normalized(run)) == Normalized(run)
  {
    TrimSpaceTrims(run.id);
    TrimSpaceTrims(TrimSpace(run.id));
    TrimSpaceTrims(run.workflowId);
    TrimSpaceTrims(TrimSpace(run.workflowId));
    TrimSpaceTrims(run.dedupeRef);
    TrimSpaceTrims(TrimSpace(run.dedupeRef));
    TrimSpaceTrims(run.state);
    TrimSpaceTrims(TrimSpace(run.state));
    TrimSpaceTrims(run.triggerRef);
    TrimSpaceTrims(TrimSpace(run.triggerRef));
    var queued := "queued";
    assert !IsSpace(queued[0]) && !IsSpace(queued[|queued| - 1]);
    TrimSpaceTrims(queued);
    hide TrimSpace;
  }

  // -------- one step at a time --------

  datatype Progress = Begun | Missed | Beaten | Returned(run: Run, created: bool) | Failed

  datatype Caller = Caller(run: Run, at: Progress)

  datatype World = World(rows: seq<Row>, callers: seq<Caller>)

  /** A caller calls, or moves on by its next query, which may fail; or someone else inserts a run. */
  datatype Action = Call(given: Run) | Move(caller: nat, fails: bool, idFirst: bool) | Elsewhere(run: Run, idFirst: bool)

  /** The caller's next query on the table as it is now. */
  function Advance(rows: seq<Row>, i: nat, c: Caller, fails: bool, idFirst: bool): (seq<Row>, Progress) {
    var run := c.run;
    var found := FindByKey(rows, run.workflowId, run.dedupeRef);
    match c.at
    case Begun =>
      if run.dedupeRef == "" then
        match Insert(rows, Row(run, Some(i)), fails, idFirst)
        case Ok(after) => (after, Returned(run, true))
        case Err(_) => (rows, Failed)
      else if fails then (rows, Failed)
      else if found.Some? then (rows, Returned(found.value, false))
      else (rows, Missed)
    case Missed =>
      (match Insert(rows, Row(run, Some(i)), fails, idFirst)
       case Ok(after) => (after, Returned(run, true))
       case Err(DedupeTaken) => (rows, Beaten)
       case Err(OtherFailure) => (rows, Failed))
    case Beaten =>
      if fails || found.None? then (rows, Failed) else (rows, Returned(found.value, false))
    case _ => (rows, c.at)
  }

  function Step(w: World, a: Action): World {
    match a
    case Call(given) => w.(callers := w.callers + [Caller(Normalized(given), Begun)])
    case Move(i, fails, idFirst) =>
      if i >= |w.callers| then w
      else
        var r := Advance(w.rows, i, w.callers[i], fails, idFirst);
        World(r.0, w.callers[i := w.callers[i].(at := r.1)])
    case Elsewhere(run, idFirst) =>
      match Insert(w.rows, Row(Normalized(run), None), false, idFirst)
      case Ok(after) => w.(rows := after)
      case Err(_) => w
  }

  function After(w: World, actions: seq<Action>): World {
    if actions == [] then w else Step(After(w, actions[..|actions| - 1]), actions[|actions| - 1])
  }

  /** A call during which others add rows, behind the first look and before the second. */
  function GotOrCreated(rows: seq<Row>, given: Run, caller: nat, luck: Luck): (seq<Row>, Result<(Run, bool), Conflict>) {
    var run := Normalized(given);
    var found := FindByKey(rows, run.workflowId, run.dedupeRef);
    if run.dedupeRef == "" then
      match Insert(rows, Row(run, Some(caller)), luck.insertFails, luck.idFirst)
      case Ok(after) => (after, Ok((run, true)))
      case Err(c) => (rows, Err(c))
    else if luck.lookFails then (rows, Err(OtherFailure))
    else if found.Some? then (rows, Ok((found.value, false)))
    else
      var later := rows + luck.meanwhile;
      match Insert(later, Row(run, Some(caller)), luck.insertFails, luck.idFirst)
      case Ok(after) => (after, Ok((run, true)))
      case Err(OtherFailure) => (later, Err(OtherFailure))
      case Err(DedupeTaken) =>
        var last := later + luck.afterwards;
        var winner := FindByKey(last, run.workflowId, run.dedupeRef);
        (last, if luck.lookAgainFails || winner.None? then Err(OtherFailure) else Ok((winner.value, false)))
  }

  // -------- the invariant --------

  /** The unique index. */
  ghost predicate KeysUnique(rows: seq<Row>) {
    forall i, j :: 0 <= i < j < |rows| && rows[i].run.dedupeRef != ""
                   ==> !HasKey(rows[j].run, rows[i].run.workflowId, rows[i].run.dedupeRef)
  }

  ghost predicate CallerOk(rows: seq<Row>, i: nat, c: Caller) {
    c.run.dedupeRef != "" ==>
      // what was returned is in the table, under the caller's key
      && (c.at.Returned? ==> HasKey(c.at.run, c.run.workflowId, c.run.dedupeRef)
                             && exists k :: 0 <= k < |rows| && rows[k].run == c.at.run && (c.at.created ==> rows[k].owner == Some(i)))
      // a caller beaten was beaten to its key
      && (c.at.Beaten? ==> FindByKey(rows, c.run.workflowId, c.run.dedupeRef).Some?)
  }

  ghost predicate Inv(w: World) {
    && KeysUnique(w.rows)
    && (forall i :: 0 <= i < |w.callers| ==> CallerOk(w.rows, i, w.callers[i]))
    && (forall k :: 0 <= k < |w.rows| && w.rows[k].owner.Some? ==>
          var i := w.rows[k].owner.value;
          i < |w.callers| && w.callers[i].at == Returned(w.rows[k].run, true) && w.callers[i].run == w.rows[k].run)
  }

  lemma {:induction false} FoundIsThere(rows: seq<Row>, workflowId: string, dedupeRef: string)
    ensures var f := FindByKey(rows, workflowId, dedupeRef);
            if f.Some? then HasKey(f.value, workflowId, dedupeRef) && exists k :: 0 <= k < |rows| && rows[k].run == f.value
            else forall k :: 0 <= k < |rows| ==> !HasKey(rows[k].run, workflowId, dedupeRef)
  {
    if rows != [] && !HasKey(rows[0].run, workflowId, dedupeRef) {
      FoundIsThere(rows[1..], workflowId, dedupeRef);
      var f := FindByKey(rows[1..], workflowId, dedupeRef);
      if f.Some? {
        var k :| 0 <= k < |rows| - 1 && rows[1..][k].run == f.value;
        assert rows[k + 1].run == f.value;
      } else {
        assert forall k :: 0 < k < |rows| ==> rows[k] == rows[1..][k - 1];
      }
    }
  }

  /** A row inserted breaks no key and hides no row. */
  lemma InsertKeepsKeys(rows: seq<Row>, row: Row, fails: bool, idFirst: bool)
    requires KeysUnique(rows) && Insert(rows, row, fails, idFirst).Ok?
    ensures Insert(rows, row, fails, idFirst).value == rows + [row] && KeysUnique(rows + [row])
  {
    hide HasKey, FindByKey, IdTaken;
    if row.run.dedupeRef != "" {
      FoundIsThere(rows, row.run.workflowId, row.run.dedupeRef);
    }
    NewKeyIsUnique(rows, row);
  }

  lemma NewKeyIsUnique(rows: seq<Row>, row: Row)
    requires KeysUnique(rows)
    requires row.run.dedupeRef != "" ==> forall k :: 0 <= k < |rows| ==> !HasKey(rows[k].run, row.run.workflowId, row.run.dedupeRef)
    ensures KeysUnique(rows + [row])
  {
    var all := rows + [row];
    assert forall k :: 0 <= k < |rows| ==> all[k] == rows[k];
  }

  lemma GrowingKeepsCaller(rows: seq<Row>, row: Row, i: nat, c: Caller)
    requires CallerOk(rows, i, c)
    ensures CallerOk(rows + [row], i, c)
  {
    hide HasKey, FindByKey;
    if c.run.dedupeRef != "" {
      if c.at.Returned? {
        var k :| 0 <= k < |rows| && rows[k].run == c.at.run && (c.at.created ==> rows[k].owner == Some(i));
        assert (rows + [row])[k] == rows[k];
      }
      if c.at.Beaten? {
        StillFound(rows, row, c.run.workflowId, c.run.dedupeRef);
      }
    }
  }

  lemma {:induction false} StillFound(rows: seq<Row>, row: Row, workflowId: string, dedupeRef: string)
    requires FindByKey(rows, workflowId, dedupeRef).Some?
    ensures FindByKey(rows + [row], workflowId, dedupeRef) == FindByKey(rows, workflowId, dedupeRef)
  {
    hide HasKey;
    assert (rows + [row])[1..] == rows[1..] + [row];
    if !HasKey(rows[0].run, workflowId, dedupeRef) {
      StillFound(rows[1..], row, workflowId, dedupeRef);
    }
  }

  /** A step of a caller: the rows as they were or with its own row added, and the caller in order. */
  lemma AdvanceKeeps(rows: seq<Row>, i: nat, c: Caller, fails: bool, idFirst: bool)
    requires KeysUnique(rows) && CallerOk(rows, i, c)
    ensures var r := Advance(rows, i, c, fails, idFirst);
            && KeysUnique(r.0) && CallerOk(r.0, i, c.(at := r.1))
            && (r.0 == rows || (r.0 == rows + [Row(c.run, Some(i))] && r.1 == Returned(c.run, true)))
            && (c.at.Returned? ==> r == (rows, c.at))
  {
    hide FindByKey, IdTaken;
    FoundIsThere(rows, c.run.workflowId, c.run.dedupeRef);
    var row := Row(c.run, Some(i));
    if Insert(rows, row, fails, idFirst).Ok? {
      InsertKeepsKeys(rows, row, fails, idFirst);
      assert (rows + [row])[|rows|] == row;
    }
    hide KeysUnique;
  }

  lemma StepKeepsInv(w: World, a: Action)
    requires Inv(w)
    ensures Inv(Step(w, a))
  {
    hide CallerOk, KeysUnique, Normalized, Insert, Advance;
    match a
    case Call(given) =>
      NewCallerIsOk(w.rows, |w.callers|, Normalized(given));
    case Move(i, fails, idFirst) =>
      if i < |w.callers| {
        MoveKeepsInv(w, i, fails, idFirst);
      }
    case Elsewhere(run, idFirst) =>
      var row := Row(Normalized(run), None);
      if Insert(w.rows, row, false, idFirst).Ok? {
        InsertKeepsKeys(w.rows, row, false, idFirst);
        forall i | 0 <= i < |w.callers| ensures CallerOk(w.rows + [row], i, w.callers[i]) {
          GrowingKeepsCaller(w.rows, row, i, w.callers[i]);
        }
      }
  }

  lemma NewCallerIsOk(rows: seq<Row>, i: nat, run: Run)
    ensures CallerOk(rows, i, Caller(run, Begun))
  {
  }

  lemma MoveKeepsInv(w: World, i: nat, fails: bool, idFirst: bool)
    requires Inv(w) && i < |w.callers|
    ensures Inv(Step(w, Move(i, fails, idFirst)))
  {
    hide CallerOk, KeysUnique, Insert, Advance;
    var c := w.callers[i];
    AdvanceKeeps(w.rows, i, c, fails, idFirst);
    var r := Advance(w.rows, i, c, fails, idFirst);
    if r.0 != w.rows {
      forall j | 0 <= j < |w.callers| ensures CallerOk(r.0, j, w.callers[j]) {
        GrowingKeepsCaller(w.rows, Row(c.run, Some(i)), j, w.callers[j]);
      }
    }
  }

  lemma {:induction false} AfterKeepsInv(rows: seq<Row>, actions: seq<Action>)
    requires KeysUnique(rows) && forall k :: 0 <= k < |rows| ==> rows[k].owner.None?
    ensures Inv(After(World(rows, []), actions))
  {
    hide Step, KeysUnique, CallerOk;
    if actions != [] {
      AfterKeepsInv(rows, actions[..|actions| - 1]);
      StepKeepsInv(After(World(rows, []), actions[..|actions| - 1]), actions[|actions| - 1]);
    }
  }

  // -------- what callers can rely on --------

  /** Rows the table held before, none of them under a caller of ours. */
  ghost predicate Before(rows: seq<Row>) {
    KeysUnique(rows) && forall k :: 0 <= k < |rows| ==> rows[k].owner.None?
  }

  /**
   Callers with the same workflow and the same non-empty key, however interleaved, are given
   the same run; at most one of them is told it created it; and the table never holds
   two rows with that key.
   */
  lemma SameRunForAll(rows: seq<Row>, actions: seq<Action>, i: nat, j: nat)
    requires Before(rows)
    requires var w := After(World(rows, []), actions);
             && i < |w.callers| && j < |w.callers| && w.callers[i].at.Returned? && w.callers[j].at.Returned?
             && w.callers[i].run.dedupeRef != ""
             && HasKey(w.callers[j].run, w.callers[i].run.workflowId, w.callers[i].run.dedupeRef)
    ensures var w := After(World(rows, []), actions);
            && KeysUnique(w.rows)
            && w.callers[i].at.run == w.callers[j].at.run
            && (w.callers[i].at.created && w.callers[j].at.created ==> i == j)
  {
    hide After;
    AfterKeepsInv(rows, actions);
    var w := After(World(rows, []), actions);
    var a, b := w.callers[i], w.callers[j];
    assert CallerOk(w.rows, i, a) && CallerOk(w.rows, j, b);
    var k :| 0 <= k < |w.rows| && w.rows[k].run == a.at.run && (a.at.created ==> w.rows[k].owner == Some(i));
    var l :| 0 <= l < |w.rows| && w.rows[l].run == b.at.run && (b.at.created ==> w.rows[l].owner == Some(j));
    hide Inv, CallerOk;
    OneRowPerKey(w.rows, k, l, a.run.workflowId, a.run.dedupeRef);
  }

  lemma OneRowPerKey(rows: seq<Row>, k: nat, l: nat, workflowId: string, dedupeRef: string)
    requires KeysUnique(rows) && dedupeRef != "" && k < |rows| && l < |rows|
    requires HasKey(rows[k].run, workflowId, dedupeRef) && HasKey(rows[l].run, workflowId, dedupeRef)
    ensures k == l
  {
  }

  /** Nobody else having inserted the key, the first to return created the run. */
  lemma SomeoneCreatedIt(rows: seq<Row>, actions: seq<Action>, i: nat)
    requires Before(rows)
    requires var w := After(World(rows, []), actions); i < |w.callers| && w.callers[i].at.Returned? && w.callers[i].run.dedupeRef != ""
    requires var w := After(World(rows, []), actions);
             var key := w.callers[i].run;
             forall k :: 0 <= k < |w.rows| && HasKey(w.rows[k].run, key.workflowId, key.dedupeRef) ==> w.rows[k].owner.Some?
    ensures var w := After(World(rows, []), actions);
            exists j :: 0 <= j < |w.callers| && w.callers[j].at == Returned(w.callers[i].at.run, true)
  {
    hide After;
    AfterKeepsInv(rows, actions);
    var w := After(World(rows, []), actions);
    assert CallerOk(w.rows, i, w.callers[i]);
    var k :| 0 <= k < |w.rows| && w.rows[k].run == w.callers[i].at.run;
    var j := w.rows[k].owner.value;
    assert w.callers[j].at == Returned(w.rows[k].run, true);
  }

  /** A call makes the caller's steps, one after the other, whichever of its queries fail. */
  lemma CallIsSteps(rows: seq<Row>, given: Run, i: nat, luck: Luck)
    ensures var run := Normalized(given);
            var first := Advance(rows, i, Caller(run, Begun), if run.dedupeRef == "" then luck.insertFails else luck.lookFails, luck.idFirst);
            var later := if first.1.Missed? then first.0 + luck.meanwhile else first.0;
            var second := Advance(later, i, Caller(run, first.1), luck.insertFails, luck.idFirst);
            var last := if second.1.Beaten? then second.0 + luck.afterwards else second.0;
            var third := Advance(last, i, Caller(run, second.1), luck.lookAgainFails, luck.idFirst);
            var call := GotOrCreated(rows, given, i, luck);
            && call.0 == third.0
            && (third.1.Returned? || third.1.Failed?)
            && (call.1.Ok? <==> third.1.Returned?)
            && (call.1.Ok? ==> third.1 == Returned(call.1.value.0, call.1.value.1))
  {
    hide Normalized, FindByKey, IdTaken;
  }

  // -------- how each query ends --------

  ghost predicate KeyThere(rows: seq<Row>, run: Run) {
    exists k :: 0 <= k < |rows| && HasKey(rows[k].run, run.workflowId, run.dedupeRef)
  }

  /**
   In every interleaving a caller that is not done fails exactly if its query does, or if the id it
   inserts is taken and that is what is reported; a key that is there is found, or beats the insert and
   is found by the next query; and a key that is not there is inserted by the second.
   */
  lemma EachQueryEndsAs(rows: seq<Row>, actions: seq<Action>, i: nat, fails: bool, idFirst: bool)
    requires Before(rows)
    requires var w := After(World(rows, []), actions);
             i < |w.callers| && w.callers[i].run.dedupeRef != "" && !w.callers[i].at.Returned? && !w.callers[i].at.Failed?
    ensures var w := After(World(rows, []), actions);
            var w', run, at := Step(w, Move(i, fails, idFirst)), w.callers[i].run, w.callers[i].at;
            && w'.callers[i].run == run
            && var at', there := w'.callers[i].at, KeyThere(w.rows, run);
               && (at'.Failed? <==> fails || (at.Missed? && IdTaken(w.rows, run.id) && (idFirst || !there)))
               && (!at'.Failed? ==>
                     && (at.Begun? ==> if there then at'.Returned? && !at'.created else at'.Missed?)
                     && (at.Missed? ==> if there then at'.Beaten? else at' == Returned(run, true) && w'.rows == w.rows + [Row(run, Some(i))])
                     && (at.Beaten? ==> at'.Returned? && !at'.created))
  {
    hide After;
    AfterKeepsInv(rows, actions);
    var w := After(World(rows, []), actions);
    var run := w.callers[i].run;
    assert CallerOk(w.rows, i, w.callers[i]);
    hide Inv, HasKey, IdTaken;
    FoundIsThere(w.rows, run.workflowId, run.dedupeRef);
    hide FindByKey;
  }

  /** A run is stored as it was given when that is trimmed and has a state, and waits as queued when it has none. */
  lemma NormalizedKeeps(run: Run)
    requires Trimmed(run.id) && Trimmed(run.workflowId) && Trimmed(run.dedupeRef) && Trimmed(run.state) && Trimmed(run.triggerRef)
    ensures Normalized(run) == if run.state == "" then run.(state := "queued") else run
  {
    TrimSpaceTrims(run.id);
    TrimSpaceTrims(run.workflowId);
    TrimSpaceTrims(run.dedupeRef);
    TrimSpaceTrims(run.state);
    TrimSpaceTrims(run.triggerRef);
    hide TrimSpace;
  }
}
