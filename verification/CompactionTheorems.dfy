/** What compaction keeps of table and transcript (internal/v2/agent/compaction.go). */
module CompactionTheorems {
  import opened Basics
  import opened Text
  import opened Transcript
  import opened ModelAdapter
  import opened MessageStore
  import opened ContextWindow
  import opened Compaction
  import opened Microcompact

  // -------- microcompacted copies --------

  predicate MaybeCleared(a: Message, b: Message) {
    b == a || (Clearable(a) && b == Cleared(a))
  }

  /** b is a with some clearable messages cleared. */
  ghost predicate SomeCleared(a: seq<Message>, b: seq<Message>) {
    |a| == |b| && forall i :: 0 <= i < |a| ==> MaybeCleared(a[i], b[i])
  }

  lemma CompactedIsSomeCleared(msgs: seq<Message>)
    ensures SomeCleared(msgs, Compacted(msgs))
  {
    hide Clearable, Cleared, ClearFirst;
    forall i | 0 <= i < |Compacted(msgs)|
      ensures i < |msgs| && MaybeCleared(msgs[i], Compacted(msgs)[i])
    {
      if CountClearable(msgs) > KEEP_RECENT_RESULTS {
        ClearFirstAt(msgs, CountClearable(msgs) - KEEP_RECENT_RESULTS, i);
      }
    }
  }

  /** Clearing moves no boundary. */
  lemma {:induction false} BoundaryStays(a: seq<Message>, b: seq<Message>)
    requires SomeCleared(a, b)
    ensures |AfterBoundary(a)| == |AfterBoundary(b)| && SomeCleared(AfterBoundary(a), AfterBoundary(b))
  {
    hide MaybeCleared, IsCompactBoundary;
    if a != [] {
      BoundaryStays(a[..|a| - 1], b[..|b| - 1]);
      ClearedIsTool(a[|a| - 1], b[|b| - 1]);
    }
  }

  lemma ClearedIsTool(a: Message, b: Message)
    requires MaybeCleared(a, b)
    ensures b.turnId == a.turnId && b.position == a.position && b.role == a.role
    ensures IsCompactBoundary(b) <==> IsCompactBoundary(a)
  {
    hide IsBlank, HasPrefix;
  }

  /** Clearing neither breaks nor repairs any part of a transcript. */
  lemma ClearingKeepsValidity(codec: Codec, a: seq<Message>, b: seq<Message>)
    requires SomeCleared(a, b)
    ensures Valid(ItemsOf(codec, a)) <==> Valid(ItemsOf(codec, b))
  {
    hide ItemsOf, OpenFrom, SomeCleared;
    ItemsOfSomeCleared(codec, a, b);
    OpenIgnoresContent({}, ItemsOf(codec, a), ItemsOf(codec, b));
  }

  lemma {:induction false} ItemsOfSomeCleared(codec: Codec, a: seq<Message>, b: seq<Message>)
    requires SomeCleared(a, b)
    ensures var x, y := ItemsOf(codec, a), ItemsOf(codec, b);
            |x| == |y| && forall i :: 0 <= i < |x| ==> SameExchange(x[i], y[i])
  {
    hide ToItem, Cleared, Clearable;
    if a != [] {
      assert MaybeCleared(a[|a| - 1], b[|b| - 1]);
      ItemsOfSomeCleared(codec, a[..|a| - 1], b[..|b| - 1]);
      if b[|b| - 1] != a[|a| - 1] {
        ItemOfCleared(codec, a[|a| - 1]);
      }
    }
  }

  lemma TurnsStay(a: seq<Message>, b: seq<Message>)
    requires SomeCleared(a, b)
    ensures forall i: nat :: i < |a| ==> (TurnStart(a, i) <==> TurnStart(b, i))
  {
    hide MaybeCleared, IsBlank, TrimSpace, Decimal, IsCompactBoundary;
    forall i | 0 <= i < |a| ensures a[i].turnId == b[i].turnId {
      ClearedIsTool(a[i], b[i]);
    }
  }

  /** Turns that are valid transcripts stay so when tool results are cleared. */
  lemma ClearingKeepsTurns(codec: Codec, a: seq<Message>, b: seq<Message>)
    requires SomeCleared(a, b) && TurnsValid(codec, a)
    ensures TurnsValid(codec, b)
  {
    hide SomeCleared, TurnStart, ItemsOf, Valid;
    forall s: nat, e: nat | IsTurn(b, s, e) ensures Valid(ItemsOf(codec, b[s..e])) {
      TurnStays(a, b, s, e);
      ClearingKeepsValidity(codec, a[s..e], b[s..e]);
    }
  }

  lemma TurnStays(a: seq<Message>, b: seq<Message>, s: nat, e: nat)
    requires SomeCleared(a, b) && IsTurn(b, s, e)
    ensures e <= |a| && IsTurn(a, s, e) && SomeCleared(a[s..e], b[s..e])
  {
    hide MaybeCleared, TurnStart;
    TurnsStay(a, b);
  }

  /** The turns behind the last boundary stay valid under microcompaction. */
  lemma ActiveTurnsStayValid(codec: Codec, stored: seq<Message>)
    requires TurnsValid(codec, AfterBoundary(stored))
    ensures TurnsValid(codec, AfterBoundary(Compacted(stored)))
  {
    hide AfterBoundary, Compacted, TurnsValid, SomeCleared;
    CompactedIsSomeCleared(stored);
    BoundaryStays(stored, Compacted(stored));
    ClearingKeepsTurns(codec, AfterBoundary(stored), AfterBoundary(Compacted(stored)));
  }

  /**
   A turn starts from a valid context: if every turn of the active messages is a valid
   transcript, so is what compaction leaves of them, in every outcome.
   */
  lemma TurnStartsValid(codec: Codec, job: Job, active: seq<Message>, k: nat, budget: int, summary: Result<string, Failure>,
                        before: Tables, after: Tables, r: Result<seq<Message>, Failure>)
    requires TurnsValid(codec, active) && k <= |active| && (k == 0 || IsSplit(active, budget, k))
    requires Outcome(job, active, k, summary, before, after, r)
    ensures r.Ok? ==> Valid(ItemsOf(codec, r.value))
  {
    hide TurnsValid, IsSplit, ItemsOf, Valid, CompactMessages, Summarised, IsBlank;
    if k > 0 && summary.Ok? && !IsBlank(summary.value) {
      var start, end, placed :| Summarised(job, active[..k], summary.value, start, end, before, after, placed)
                                && r == Continued(placed, active[k..]);
      if placed.Ok? {
        StoredReadsTheSame(codec, job, summary.value, 0 < start <= end, before.rows);
        SummarisedRows(job, active[..k], summary.value, start, end, before, after, placed);
        var id := if 0 < start <= end then job.snapshotId else "";
        SummaryAndKeptAreValid(codec, active, budget, k, job.turnId, summary.value, id);
        ItemsConcat(codec, placed.value, active[k..]);
        ItemsConcat(codec, CompactMessages(job.turnId, summary.value, id), active[k..]);
      }
    } else {
      WholeIsValid(codec, active);
    }
  }

  /** Placing the boundary and the summary in the table does not change what they read back as. */
  lemma StoredReadsTheSame(codec: Codec, job: Job, summary: string, saved: bool, rows: seq<Message>)
    ensures ItemsOf(codec, Stored(job, summary, saved, rows))
            == ItemsOf(codec, CompactMessages(job.turnId, summary, if saved then job.snapshotId else ""))
  {
    hide CompactMessages, ItemsOf, MaxPosition, OfSession;
    ItemsIgnorePlacing(codec, Stored(job, summary, saved, rows), CompactMessages(job.turnId, summary, if saved then job.snapshotId else ""));
  }

  lemma WholeIsValid(codec: Codec, msgs: seq<Message>)
    requires TurnsValid(codec, msgs)
    ensures Valid(ItemsOf(codec, msgs))
  {
    hide ItemsOf, Valid, TurnsValid, TurnKey;
    if msgs == [] {
      NoItems(codec);
    } else {
      SuffixIsValid(codec, msgs, 0);
      assert msgs[0..] == msgs;
    }
  }

  // -------- the snapshot --------

  /** Every message of the table was stored through appendMessages: each session's positions rise from one. */
  ghost predicate AllRising(rows: seq<Message>) {
    forall s :: Rising(OfSession(rows, s))
  }

  /** One call of appendMessages; messages not stored before have position zero. */
  datatype Write = Write(sessionId: string, turnId: string, messages: seq<Message>)

  ghost predicate FreshMessages(w: Write) {
    forall i :: 0 <= i < |w.messages| ==> w.messages[i].position == 0
  }

  function AfterWrite(rows: seq<Message>, w: Write): seq<Message> {
    rows + PlaceAll(w.messages, w.sessionId, w.turnId, MaxPosition(OfSession(rows, w.sessionId)) + 1)
  }

  function AfterWrites(rows: seq<Message>, writes: seq<Write>): seq<Message>
    decreases |writes|
  {
    if writes == [] then rows else AfterWrites(AfterWrite(rows, writes[0]), writes[1..])
  }

  lemma WriteKeepsRising(rows: seq<Message>, w: Write)
    requires AllRising(rows) && FreshMessages(w)
    ensures AllRising(AfterWrite(rows, w))
    ensures List(AfterWrite(rows, w), w.sessionId)
            == List(rows, w.sessionId) + PlaceAll(w.messages, w.sessionId, w.turnId, MaxPosition(OfSession(rows, w.sessionId)) + 1)
    ensures forall s :: s != w.sessionId ==> List(AfterWrite(rows, w), s) == List(rows, s)
  {
    hide OfSession, Rising, PlaceAll, MaxPosition, ByPosition;
    AppendExtendsList(rows, w.sessionId, w.turnId, w.messages);
  }

  /** Whatever is stored later, in any session, a session still lists first what it listed before. */
  lemma {:induction false} ListOnlyGrows(rows: seq<Message>, writes: seq<Write>, sessionId: string)
    requires AllRising(rows) && forall i :: 0 <= i < |writes| ==> FreshMessages(writes[i])
    ensures AllRising(AfterWrites(rows, writes))
    ensures List(rows, sessionId) <= List(AfterWrites(rows, writes), sessionId)
    decreases |writes|
  {
    hide AllRising, FreshMessages, List, AfterWrite;
    if writes != [] {
      WriteKeepsRising(rows, writes[0]);
      ListOnlyGrows(AfterWrite(rows, writes[0]), writes[1..], sessionId);
    }
  }

  /**
   The range compaction saves loads, then and after any later writes, exactly the stored
   messages that were summarised, in order and as they were stored, although the
   summariser was given microcompacted copies of them.
   */
  lemma SnapshotLoadsTheRawSegment(rows: seq<Message>, sessionId: string, k: nat, start: int, end: int, writes: seq<Write>)
    requires AllRising(rows) && forall i :: 0 <= i < |writes| ==> FreshMessages(writes[i])
    requires 0 < k <= |AfterBoundary(Compacted(List(rows, sessionId)))|
    requires IsRange(AfterBoundary(Compacted(List(rows, sessionId)))[..k], start, end)
    ensures 0 < start <= end && k <= |AfterBoundary(List(rows, sessionId))|
    ensures ByPosition(Between(OfSession(AfterWrites(rows, writes), sessionId), start, end)) == AfterBoundary(List(rows, sessionId))[..k]
  {
    hide OfSession, ByPosition, Between, AfterBoundary, Compacted, IsRange, AfterWrites, FreshMessages, IsCompactBoundary;
    var all := List(rows, sessionId);
    assert Rising(OfSession(rows, sessionId));
    RisingIsSorted(OfSession(rows, sessionId));
    RangeOfTheSegment(all, k, start, end);
    ListOnlyGrows(rows, writes, sessionId);
    SliceOfLater(AfterWrites(rows, writes), sessionId, all, |all| - |AfterBoundary(all)|, k);
  }

  lemma SliceOfLater(later: seq<Message>, sessionId: string, all: seq<Message>, from: nat, k: nat)
    requires AllRising(later) && all <= List(later, sessionId) && from < from + k <= |all|
    ensures ByPosition(Between(OfSession(later, sessionId), all[from].position, all[from + k - 1].position)) == all[from..from + k]
  {
    hide OfSession, ByPosition, Between, Rising;
    RangeIsSlice(later, sessionId, from, from + k);
  }

  /** The range of the first k messages behind the boundary is told from the raw rows and from their copies alike. */
  lemma RangeOfTheSegment(all: seq<Message>, k: nat, start: int, end: int)
    requires Rising(all) && 0 < k <= |AfterBoundary(Compacted(all))|
    requires IsRange(AfterBoundary(Compacted(all))[..k], start, end)
    ensures k <= |AfterBoundary(all)|
    ensures var from := |all| - |AfterBoundary(all)|;
            && 0 < start == all[from].position <= end == all[from + k - 1].position
            && AfterBoundary(all)[..k] == all[from..from + k]
  {
    hide AfterBoundary, Compacted, IsRange, SomeCleared, IsCompactBoundary, Rising;
    AfterBoundaryIsSuffix(all);
    CompactedIsSomeCleared(all);
    BoundaryStays(all, Compacted(all));
    RangeOfCopies(all, AfterBoundary(all), AfterBoundary(Compacted(all)), k, start, end);
  }

  lemma RangeOfCopies(all: seq<Message>, raw: seq<Message>, copies: seq<Message>, k: nat, start: int, end: int)
    requires Rising(all) && |raw| <= |all| && raw == all[|all| - |raw|..] && SomeCleared(raw, copies)
    requires 0 < k <= |copies| && IsRange(copies[..k], start, end)
    ensures k <= |raw|
    ensures var from := |all| - |raw|;
            0 < start == all[from].position <= end == all[from + k - 1].position && raw[..k] == all[from..from + k]
  {
    hide IsRange, SomeCleared, Rising;
    SamePositions(raw, copies);
    RisingSlice(all, copies[..k], |all| - |raw|);
    RangeOfRising(copies[..k], start, end);
    assert copies[..k][0] == copies[0] && copies[..k][k - 1] == copies[k - 1];
    assert all[|all| - |raw|] == raw[0] && all[|all| - |raw| + k - 1] == raw[k - 1];
  }

  lemma SamePositions(a: seq<Message>, b: seq<Message>)
    requires SomeCleared(a, b)
    ensures |a| == |b| && forall i :: 0 <= i < |a| ==> b[i].position == a[i].position
  {
    hide MaybeCleared, IsCompactBoundary;
    forall i | 0 <= i < |a| ensures b[i].position == a[i].position {
      ClearedIsTool(a[i], b[i]);
    }
  }

  lemma RisingSlice(all: seq<Message>, part: seq<Message>, from: nat)
    requires Rising(all) && from + |part| <= |all|
    requires forall i :: 0 <= i < |part| ==> part[i].position == all[from + i].position
    ensures Rising(part)
    ensures part != [] ==> part[0].position <= part[|part| - 1].position && part[0].position > 0
  {
  }

  /**
   The compaction of a session's stored messages saves a snapshot unless that write fails, and the
   snapshot is what was summarised for good, whether or not the later writes succeed.
   */
  lemma CompactionSavesWhatItSummarised(job: Job, k: nat, summary: string, start: int, end: int,
                                        before: Tables, after: Tables, placed: Result<seq<Message>, Failure>, writes: seq<Write>)
    requires AllRising(before.rows) && forall i :: 0 <= i < |writes| ==> FreshMessages(writes[i])
    requires 0 < k <= |AfterBoundary(Compacted(List(before.rows, job.sessionId)))|
    requires Summarised(job, AfterBoundary(Compacted(List(before.rows, job.sessionId)))[..k], summary, start, end, before, after, placed)
    ensures k <= |AfterBoundary(List(before.rows, job.sessionId))|
    ensures if job.writes.snapshotOk then
              Loaded(AfterWrites(after.rows, writes), after.snapshots, job.snapshotId)
              == Some(AfterBoundary(List(before.rows, job.sessionId))[..k])
            else placed.Err? && after == before
  {
    hide AfterBoundary, Compacted, List, AllRising, Summarised, OfSession, ByPosition, Between,
         AfterWrite, AfterWrites, FreshMessages, IsCompactBoundary, IsRange, CompactMessages;
    SummarisedIsRange(job, AfterBoundary(Compacted(List(before.rows, job.sessionId)))[..k], summary, start, end, before, after, placed);
    SnapshotLoadsTheRawSegment(before.rows, job.sessionId, k, start, end, []);
    var w := Write(job.sessionId, job.turnId, CompactMessages(job.turnId, summary, job.snapshotId));
    SummarisedWrites(job, AfterBoundary(Compacted(List(before.rows, job.sessionId)))[..k], summary, start, end, before, after, placed);
    if after.rows == before.rows {
      SnapshotLoadsTheRawSegment(before.rows, job.sessionId, k, start, end, writes);
    } else {
      CompactionIsFresh(job.sessionId, job.turnId, summary, job.snapshotId);
      FirstWrite(before.rows, w, writes);
      SnapshotLoadsTheRawSegment(before.rows, job.sessionId, k, start, end, [w] + writes);
    }
  }

  lemma FirstWrite(rows: seq<Message>, w: Write, writes: seq<Write>)
    ensures AfterWrites(rows, [w] + writes) == AfterWrites(AfterWrite(rows, w), writes)
  {
    hide AfterWrite;
    assert ([w] + writes)[1..] == writes;
  }

  lemma SummarisedIsRange(job: Job, summarize: seq<Message>, summary: string, start: int, end: int,
                          before: Tables, after: Tables, placed: Result<seq<Message>, Failure>)
    requires Summarised(job, summarize, summary, start, end, before, after, placed)
    ensures IsRange(summarize, start, end)
  {
  }

  lemma SummarisedWrites(job: Job, summarize: seq<Message>, summary: string, start: int, end: int,
                         before: Tables, after: Tables, placed: Result<seq<Message>, Failure>)
    requires Summarised(job, summarize, summary, start, end, before, after, placed) && 0 < start <= end
    ensures if job.writes.snapshotOk then
              && after.snapshots == before.snapshots[job.snapshotId := Snapshot(job.sessionId, start, end, summary)]
              && (after.rows == before.rows
                  || after.rows == AfterWrite(before.rows, Write(job.sessionId, job.turnId,
                                                                 CompactMessages(job.turnId, summary, job.snapshotId))))
            else placed.Err? && after == before
  {
    hide IsRange, CompactMessages, PlaceAll, OfSession, MaxPosition;
  }

  lemma CompactionIsFresh(sessionId: string, turnId: string, summary: string, snapshotId: string)
    ensures FreshMessages(Write(sessionId, turnId, CompactMessages(turnId, summary, snapshotId)))
  {
    hide CompactMessages;
    CompactMessagesAreFresh(turnId, summary, snapshotId);
  }

  lemma CompactMessagesAreFresh(turnId: string, summary: string, snapshotId: string)
    ensures var c := CompactMessages(turnId, summary, snapshotId); forall i :: 0 <= i < |c| ==> c[i].position == 0
  {
    hide TrimSpace, SummaryText;
  }

  // -------- what the next turn reads --------

  /**
   The kept messages lie before the stored boundary. The turn that compacted goes on with the
   summary and the kept messages; a turn that reads the table again gets the summary alone,
   so the two never agree.
   */
  lemma ReloadDropsTheKeptMessages(job: Job, active: seq<Message>, k: nat, budget: int, summary: string, start: int, end: int,
                                   before: Tables, after: Tables, placed: Result<seq<Message>, Failure>)
    requires AllRising(before.rows) && 0 < k <= |active| && IsSplit(active, budget, k) && NoBoundary(active)
    requires Summarised(job, active[..k], summary, start, end, before, after, placed) && placed.Ok?
    ensures |placed.value| == 2
    ensures AfterBoundary(placed.value + active[k..]) == [placed.value[1]] + active[k..]
    ensures AfterBoundary(List(after.rows, job.sessionId)) == [placed.value[1]]
    ensures AfterBoundary(placed.value + active[k..]) != AfterBoundary(List(after.rows, job.sessionId))
  {
    var id := if 0 < start <= end then job.snapshotId else "";
    var c := CompactMessages(job.turnId, summary, id);
    hide AfterBoundary, List, AllRising, Summarised, OfSession, MaxPosition, PlaceAll, CompactMessages, TurnStart, IsCompactBoundary;
    var w := Write(job.sessionId, job.turnId, c);
    assert FreshMessages(w) by { CompactMessagesAreFresh(job.turnId, summary, id); }
    SummarisedRows(job, active[..k], summary, start, end, before, after, placed);
    PlacedAreBoundaryAndSummary(c, placed.value, job.turnId, summary, id);
    assert after.rows == AfterWrite(before.rows, w);
    WriteKeepsRising(before.rows, w);
    assert NoBoundary(active[k..]);
    SummaryOnly(List(before.rows, job.sessionId), placed.value, active[k..]);
  }

  ghost predicate NoBoundary(msgs: seq<Message>) {
    forall i :: 0 <= i < |msgs| ==> !IsCompactBoundary(msgs[i])
  }

  lemma SummaryOnly(before: seq<Message>, placed: seq<Message>, kept: seq<Message>)
    requires |placed| == 2 && IsCompactBoundary(placed[0]) && !IsCompactBoundary(placed[1]) && NoBoundary(kept)
    ensures AfterBoundary(before + placed) == [placed[1]]
    ensures AfterBoundary(placed + kept) == [placed[1]] + kept
  {
    hide IsCompactBoundary, AfterBoundary;
    var boundary, summary := placed[0], placed[1];
    assert NoBoundary([summary]);
    BoundaryThen(before, boundary, [summary]);
    assert before + [boundary] + [summary] == before + placed;
    assert NoBoundary([summary] + kept);
    hide NoBoundary;
    BoundaryThen([], boundary, [summary] + kept);
    assert [] + [boundary] + ([summary] + kept) == placed + kept;
  }

  lemma BoundaryThen(before: seq<Message>, boundary: Message, after: seq<Message>)
    requires IsCompactBoundary(boundary) && NoBoundary(after)
    ensures AfterBoundary(before + [boundary] + after) == after
  {
    hide IsCompactBoundary, AfterBoundary;
    var all := before + [boundary] + after;
    assert all[|before|] == boundary && all[|before| + 1..] == after;
    BoundaryIsUnique(all, |before| + 1);
  }

  lemma PlacedAreBoundaryAndSummary(c: seq<Message>, placed: seq<Message>, turnId: string, summary: string, id: string)
    requires c == CompactMessages(turnId, summary, id)
    requires |c| == |placed| && forall i :: 0 <= i < |c| ==> SameForModel(placed[i], c[i])
    ensures |placed| == 2 && IsCompactBoundary(placed[0]) && !IsCompactBoundary(placed[1])
  {
    CompactMessagesRead(Codec((n, a) => "", s => None, (t, g) => "", s => None), turnId, summary, id);
    hide HasPrefix, TrimSpace, SummaryText;
  }

  /** A stored transcript that is valid stays valid when a compaction is stored behind it, or fails to be. */
  lemma StoredStaysValid(codec: Codec, job: Job, summarize: seq<Message>, summary: string, start: int, end: int,
                         before: Tables, after: Tables, placed: Result<seq<Message>, Failure>)
    requires AllRising(before.rows) && Valid(ItemsOf(codec, List(before.rows, job.sessionId)))
    requires Summarised(job, summarize, summary, start, end, before, after, placed)
    ensures AllRising(after.rows) && Valid(ItemsOf(codec, List(after.rows, job.sessionId)))
  {
    hide List, AllRising, IsRange, OfSession, MaxPosition, PlaceAll, CompactMessages, ItemsOf, Valid;
    var id := if 0 < start <= end then job.snapshotId else "";
    var c := CompactMessages(job.turnId, summary, id);
    var w := Write(job.sessionId, job.turnId, c);
    if after.rows != before.rows {
      assert FreshMessages(w) by { CompactMessagesAreFresh(job.turnId, summary, id); }
      WriteStaysValid(codec, before.rows, w, summary, id);
    }
  }

  lemma WriteStaysValid(codec: Codec, rows: seq<Message>, w: Write, summary: string, id: string)
    requires AllRising(rows) && Valid(ItemsOf(codec, List(rows, w.sessionId)))
    requires FreshMessages(w) && w.messages == CompactMessages(w.turnId, summary, id)
    ensures AllRising(AfterWrite(rows, w)) && Valid(ItemsOf(codec, List(AfterWrite(rows, w), w.sessionId)))
  {
    hide List, AllRising, OfSession, MaxPosition, CompactMessages, ItemsOf, Valid, FreshMessages;
    WriteKeepsRising(rows, w);
    CompactMessagesRead(codec, w.turnId, summary, id);
    var text :| ItemsOf(codec, w.messages) == [UserMessage(text, [])];
    OneUserMessage(text);
    var placed := PlaceAll(w.messages, w.sessionId, w.turnId, MaxPosition(OfSession(rows, w.sessionId)) + 1);
    ItemsIgnorePlacing(codec, placed, w.messages);
    ItemsConcat(codec, List(rows, w.sessionId), placed);
    ValidConcat(ItemsOf(codec, List(rows, w.sessionId)), ItemsOf(codec, placed));
  }

  lemma SummarisedRows(job: Job, summarize: seq<Message>, summary: string, start: int, end: int,
                       before: Tables, after: Tables, placed: Result<seq<Message>, Failure>)
    requires Summarised(job, summarize, summary, start, end, before, after, placed) && placed.Ok?
    ensures var c := CompactMessages(job.turnId, summary, if 0 < start <= end then job.snapshotId else "");
            && placed.value == PlaceAll(c, job.sessionId, job.turnId, MaxPosition(OfSession(before.rows, job.sessionId)) + 1)
            && after.rows == before.rows + placed.value
  {
    hide TrimSpace, SummaryText, CompactMessages, PlaceAll, MaxPosition, OfSession, IsRange;
  }
}
