/** Compacting the earlier conversation before a turn (internal/v2/agent/compaction.go). */
module Compaction {
  import opened Basics
  import opened Text
  import opened Transcript
  import opened ModelAdapter
  import opened MessageStore
  import opened ContextBudget
  import opened ContextWindow
  import Microcompact

  // -------- splitting by turns --------

  /** The turn a message belongs to; a message without a turn id is a turn of its own. */
  function TurnKey(msgs: seq<Message>, i: nat): string
    requires i < |msgs|
  {
    if IsBlank(msgs[i].turnId) then "message:" + Decimal(i) else TrimSpace(msgs[i].turnId)
  }

  predicate TurnStart(msgs: seq<Message>, i: nat)
    requires i < |msgs|
  {
    i == 0 || TurnKey(msgs, i) != TurnKey(msgs, i - 1)
  }

  /** From s on there is only one turn. */
  ghost predicate SingleTurn(msgs: seq<Message>, s: nat) {
    forall i :: s < i < |msgs| ==> !TurnStart(msgs, i)
  }

  /** A message starts a turn if its turn id differs, or if both have none; the rest is a message without one beside a turn that is called like its place. */
  lemma TurnStartsExactlyWhen(msgs: seq<Message>, i: nat)
    requires 0 < i < |msgs|
    ensures var a, b := msgs[i - 1].turnId, msgs[i].turnId;
            TurnStart(msgs, i) <==>
              || (IsBlank(a) && IsBlank(b))
              || (!IsBlank(a) && !IsBlank(b) && TrimSpace(a) != TrimSpace(b))
              || (IsBlank(a) && !IsBlank(b) && TrimSpace(b) != "message:" + Decimal(i - 1))
              || (!IsBlank(a) && IsBlank(b) && TrimSpace(a) != "message:" + Decimal(i))
  {
    DecimalsDiffer(i - 1, i);
    SameBehindMessage(Decimal(i - 1), Decimal(i));
    hide IsBlank, TrimSpace, Decimal;
  }

  lemma SameBehindMessage(a: string, b: string)
    ensures "message:" + a == "message:" + b ==> a == b
  {
    assert ("message:" + a)[8..] == a && ("message:" + b)[8..] == b;
  }

  function KeepBudget(keepTokens: int): (budget: int)
    ensures budget > 0 && (keepTokens > 0 ==> budget == keepTokens)
  {
    if keepTokens <= 0 then KEEP_RECENT_TOKENS else keepTokens
  }

  /**
   k splits the messages for compaction: what is kept starts a turn, fits the
   budget or is one turn, and no longer suffix that starts a turn fits.
   */
  ghost predicate IsSplit(msgs: seq<Message>, budget: int, k: nat) {
    && (msgs == [] ==> k == 0)
    && (msgs != [] ==>
          && k < |msgs| && TurnStart(msgs, k)
          && (MessageTokens(msgs[k..]) <= budget || SingleTurn(msgs, k))
          && (forall s :: 0 <= s < k && TurnStart(msgs, s) ==> MessageTokens(msgs[s..]) > budget))
  }

  method SplitMessagesForCompaction(msgs: seq<Message>, keepTokens: int) returns (summarize: seq<Message>, keep: seq<Message>)
    ensures summarize + keep == msgs
    ensures IsSplit(msgs, KeepBudget(keepTokens), |summarize|)
  {
    hide TurnKey, MessageTokens, OneMessage;
    if |msgs| <= 1 {
      return [], msgs;
    }
    var budget := KeepBudget(keepTokens);
    var turnStarts := TurnStarts(msgs);
    var keepStart := |msgs|;
    var used := 0;
    NoTokens();
    assert msgs[|msgs|..] == [];
    for i := |turnStarts| downto 0
      invariant keepStart == if i < |turnStarts| then turnStarts[i] else |msgs|
      invariant used == MessageTokens(msgs[keepStart..])
      invariant i < |turnStarts| - 1 ==> used <= budget
    {
      var start := turnStarts[i];
      var end := if i + 1 < |turnStarts| then turnStarts[i + 1] else |msgs|;
      StartsRise(msgs, turnStarts, i);
      var cost := ApproximateMessageTokens(msgs[start..end]);
      SuffixTokens(msgs, start, end);
      var next := used + cost;
      if next > budget && keepStart < |msgs| {
        LongestSplit(msgs, turnStarts, i + 1, budget);
        return msgs[..keepStart], msgs[keepStart..];
      }
      used := next;
      keepStart := start;
    }
    LongestSplit(msgs, turnStarts, 0, budget);
    return [], msgs;
  }

  /** starts are the indexes of the messages that start a turn, in order. */
  ghost predicate AreStarts(msgs: seq<Message>, n: nat, starts: seq<nat>)
    requires n <= |msgs|
  {
    && (forall k :: 0 <= k < |starts| ==> starts[k] < n && TurnStart(msgs, starts[k]))
    && (forall j, k :: 0 <= j < k < |starts| ==> starts[j] < starts[k])
    && (forall i :: 0 <= i < n && TurnStart(msgs, i) ==> i in starts)
  }

  method TurnStarts(msgs: seq<Message>) returns (starts: seq<nat>)
    ensures AreStarts(msgs, |msgs|, starts)
    ensures msgs != [] ==> starts != [] && starts[0] == 0
  {
    hide TurnKey;
    starts := [];
    var lastKey := "";
    for i := 0 to |msgs|
      invariant AreStarts(msgs, i, starts)
      invariant i > 0 ==> lastKey == TurnKey(msgs, i - 1) && starts != [] && starts[0] == 0
    {
      var key := TurnKey(msgs, i);
      if i == 0 || key != lastKey {
        starts := starts + [i];
        lastKey := key;
      }
    }
  }

  lemma StartsRise(msgs: seq<Message>, starts: seq<nat>, i: nat)
    requires AreStarts(msgs, |msgs|, starts) && i < |starts|
    ensures starts[i] < |msgs|
    ensures i + 1 < |starts| ==> starts[i] < starts[i + 1] < |msgs|
  {
  }

  lemma LastIsGreatest(msgs: seq<Message>, starts: seq<nat>, j: nat)
    requires AreStarts(msgs, |msgs|, starts) && j in starts
    ensures j <= starts[|starts| - 1]
  {
  }

  /** The last turns from the i-th start on are the split, if they fit or are one turn and one turn more does not fit. */
  lemma LongestSplit(msgs: seq<Message>, starts: seq<nat>, i: nat, budget: int)
    requires AreStarts(msgs, |msgs|, starts) && starts != [] && starts[0] == 0 && i < |starts|
    requires i < |starts| - 1 ==> MessageTokens(msgs[starts[i]..]) <= budget
    requires i > 0 ==> MessageTokens(msgs[starts[i - 1]..]) > budget
    ensures IsSplit(msgs, budget, starts[i])
  {
    hide TurnKey, MessageTokens;
    var k := starts[i];
    if i == |starts| - 1 {
      forall j | k < j < |msgs| ensures !TurnStart(msgs, j) {
        if j in starts {
          LastIsGreatest(msgs, starts, j);
        }
      }
    }
    forall s | 0 <= s < k && TurnStart(msgs, s) ensures MessageTokens(msgs[s..]) > budget {
      var m :| 0 <= m < |starts| && starts[m] == s;
      assert m < i;
      assert m < i - 1 ==> s < starts[i - 1];
      SuffixTokens(msgs, s, starts[i - 1]);
    }
  }

  /** These properties single out one split. */
  lemma SplitIsUnique(msgs: seq<Message>, budget: int, k: nat, k': nat)
    requires IsSplit(msgs, budget, k) && IsSplit(msgs, budget, k')
    ensures k == k'
  {
    hide TurnKey, MessageTokens;
  }

  // -------- turns and validity --------

  /** The messages from s up to e are those of one turn. */
  ghost predicate IsTurn(msgs: seq<Message>, s: nat, e: nat) {
    && s < e <= |msgs|
    && TurnStart(msgs, s) && (e == |msgs| || TurnStart(msgs, e))
    && (forall i :: s < i < e ==> !TurnStart(msgs, i))
  }

  /** Each turn's messages are a valid transcript. */
  ghost predicate TurnsValid(codec: Codec, msgs: seq<Message>) {
    forall s: nat, e: nat :: IsTurn(msgs, s, e) ==> Valid(ItemsOf(codec, msgs[s..e]))
  }

  lemma NextStart(msgs: seq<Message>, s: nat) returns (e: nat)
    requires s < |msgs| && TurnStart(msgs, s)
    ensures IsTurn(msgs, s, e)
  {
    hide TurnKey;
    e := s + 1;
    while e < |msgs| && !TurnStart(msgs, e)
      invariant s < e <= |msgs| && forall i :: s < i < e ==> !TurnStart(msgs, i)
    {
      e := e + 1;
    }
  }

  /** A suffix that starts a turn is valid. */
  lemma {:induction false} SuffixIsValid(codec: Codec, msgs: seq<Message>, s: nat)
    requires TurnsValid(codec, msgs) && s < |msgs| && TurnStart(msgs, s)
    ensures Valid(ItemsOf(codec, msgs[s..]))
    decreases |msgs| - s
  {
    hide TurnKey, ItemsOf, Valid;
    var e := NextStart(msgs, s);
    assert msgs[s..] == msgs[s..e] + msgs[e..];
    ItemsConcat(codec, msgs[s..e], msgs[e..]);
    if e < |msgs| {
      SuffixIsValid(codec, msgs, e);
    } else {
      assert msgs[e..] == [];
      NoItems(codec);
    }
    ValidConcat(ItemsOf(codec, msgs[s..e]), ItemsOf(codec, msgs[e..]));
  }

  lemma NoItems(codec: Codec)
    ensures ItemsOf(codec, []) == [] && Valid([])
  {
  }

  /** What stands in front of a summary. */
  function Heading(snapshotId: string): (heading: string)
    ensures heading != "" && heading[0] == 'C'
  {
    "Compacted earlier conversation" +
    if IsBlank(snapshotId) then ":\n\n"
    else ". Full raw segment is available as message snapshot " + TrimSpace(snapshotId) + ".\n\n"
  }

  function SummaryText(summary: string, snapshotId: string): string {
    Heading(snapshotId) + TrimSpace(summary)
  }

  function CompactMessages(turnId: string, summary: string, snapshotId: string): seq<Message> {
    [Message("", turnId, "system", BOUNDARY_PREFIX + TrimSpace(snapshotId), "", 0),
     Message("", turnId, "system", SUMMARY_PREFIX + SummaryText(summary, snapshotId), "", 0)]
  }

  /** The boundary is not shown to the model; the summary is shown as a user message. */
  lemma CompactMessagesRead(codec: Codec, turnId: string, summary: string, snapshotId: string)
    ensures exists text :: ItemsOf(codec, CompactMessages(turnId, summary, snapshotId)) == [UserMessage(text, [])]
    ensures var c := CompactMessages(turnId, summary, snapshotId);
            IsCompactBoundary(c[0]) && !IsCompactBoundary(c[1]) && IsCompactSummary(c[1])
  {
    hide TrimSpace, SummaryText;
    var c := CompactMessages(turnId, summary, snapshotId);
    PrefixOfConcat(BOUNDARY_PREFIX, TrimSpace(snapshotId));
    PrefixOfConcat(SUMMARY_PREFIX, SummaryText(summary, snapshotId));
    assert c[0].content[10] == 'b' && SUMMARY_PREFIX[10] == 's' && c[1].content[10] == 's' && BOUNDARY_PREFIX[10] == 'b';
    assert !IsCompactSummary(c[0]) && ToItem(codec, c[0]) == None;
    assert c[..1] == [c[0]] && c[..1][..0] == [];
    var text := CompactSummaryContent(c[1]);
    assert ToItem(codec, c[1]) == Some(UserMessage(text, []));
    assert ItemsOf(codec, c[..1]) == [];
    assert ItemsOf(codec, c) == [UserMessage(text, [])];
  }

  /** The summary is shown in full, behind a heading. */
  lemma SummaryIsShown(codec: Codec, turnId: string, summary: string, snapshotId: string)
    requires !IsBlank(summary)
    ensures UserTexts(ItemsOf(codec, CompactMessages(turnId, summary, snapshotId))) == [Heading(snapshotId) + TrimSpace(summary)]
  {
    hide TrimSpace, ItemsOf, IsBlank, UserContents, UserTexts, Heading, CompactMessages;
    SummaryIsTrimmed(summary, snapshotId);
    UsersAndToolsAreRead(codec, CompactMessages(turnId, summary, snapshotId));
    UserContentsOfCompact(turnId, summary, snapshotId);
  }

  lemma UserContentsOfCompact(turnId: string, summary: string, snapshotId: string)
    ensures UserContents(CompactMessages(turnId, summary, snapshotId)) == [TrimSpace(SummaryText(summary, snapshotId))]
  {
    hide TrimSpace, SummaryText;
    var c := CompactMessages(turnId, summary, snapshotId);
    assert c[..1] == [c[0]] && c[..1][..0] == [];
    assert c[0].content[10] == 'b' && SUMMARY_PREFIX[10] == 's';
    assert UserContents(c[..1]) == [];
    assert c[1].content[|SUMMARY_PREFIX|..] == SummaryText(summary, snapshotId);
  }

  lemma SummaryIsTrimmed(summary: string, snapshotId: string)
    requires !IsBlank(summary)
    ensures var text := SummaryText(summary, snapshotId); TrimSpace(text) == text
  {
    hide TrimSpace, Heading;
    TrimSpaceTrims(summary);
    BlankIffTrimmedEmpty(summary);
    TrimmedBehind(Heading(snapshotId), TrimSpace(summary));
  }

  lemma TrimmedBehind(lead: string, said: string)
    requires lead != "" && lead[0] == 'C' && said != "" && Trimmed(said)
    ensures TrimSpace(lead + said) == lead + said
  {
    assert (lead + said)[0] == 'C' && (lead + said)[|lead + said| - 1] == said[|said| - 1];
    TrimSpaceTrims(lead + said);
  }

  lemma OneUserMessage(text: string)
    ensures Valid([UserMessage(text, [])])
  {
    assert [UserMessage(text, [])][..0] == [];
  }

  /** The summary followed by what is kept is a valid transcript if each turn is. */
  lemma SummaryAndKeptAreValid(codec: Codec, msgs: seq<Message>, budget: int, k: nat, turnId: string, summary: string, snapshotId: string)
    requires TurnsValid(codec, msgs) && IsSplit(msgs, budget, k)
    ensures Valid(ItemsOf(codec, CompactMessages(turnId, summary, snapshotId) + msgs[k..]))
  {
    hide TurnKey, ItemsOf, MessageTokens, TurnsValid, CompactMessages;
    var c := CompactMessages(turnId, summary, snapshotId);
    CompactMessagesRead(codec, turnId, summary, snapshotId);
    var text :| ItemsOf(codec, c) == [UserMessage(text, [])];
    ItemsConcat(codec, c, msgs[k..]);
    OneUserMessage(text);
    if msgs == [] {
      assert msgs[k..] == [];
      NoItems(codec);
    } else {
      SuffixIsValid(codec, msgs, k);
    }
    hide Valid;
    ValidConcat(ItemsOf(codec, c), ItemsOf(codec, msgs[k..]));
  }

  // -------- the range a snapshot saves --------

  /** The least and the greatest position above zero; zeroes when there is none. */
  ghost predicate IsRange(msgs: seq<Message>, start: int, end: int) {
    && (forall i :: 0 <= i < |msgs| && msgs[i].position > 0 ==> 0 < start <= msgs[i].position <= end)
    && (start == end == 0
        || ((exists i :: 0 <= i < |msgs| && msgs[i].position == start > 0)
            && (exists i :: 0 <= i < |msgs| && msgs[i].position == end > 0)))
  }

  method MessagePositionRange(msgs: seq<Message>) returns (start: int, end: int)
    ensures IsRange(msgs, start, end)
  {
    start, end := 0, 0;
    for i := 0 to |msgs|
      invariant IsRange(msgs[..i], start, end)
    {
      var msg := msgs[i];
      assert msgs[..i + 1][i] == msg && forall k :: 0 <= k < i ==> msgs[..i + 1][k] == msgs[..i][k];
      if msg.position > 0 {
        if start == 0 || msg.position < start {
          start := msg.position;
        }
        if msg.position > end {
          end := msg.position;
        }
      }
    }
    assert msgs[..|msgs|] == msgs;
  }

  /** The range of messages whose positions rise is given by the first and the last. */
  lemma RangeOfRising(msgs: seq<Message>, start: int, end: int)
    requires Rising(msgs) && msgs != [] && IsRange(msgs, start, end)
    ensures start == msgs[0].position && end == msgs[|msgs| - 1].position
  {
  }

  // -------- compactPriorIfNeeded --------

  function ContextTokens(systemPrompt: string, prior: seq<Message>, turn: seq<Message>): nat {
    TextTokens(systemPrompt) + MessageTokens(prior) + MessageTokens(turn)
  }

  /** What is compared with the threshold is what prompt, history and turn cost together. */
  lemma ContextCostsAll(systemPrompt: string, prior: seq<Message>, turn: seq<Message>)
    ensures ContextTokens(systemPrompt, prior, turn) == TextTokens(systemPrompt) + MessageTokens(prior + turn)
  {
    hide TextTokens, MessageTokens;
    TokensConcat(prior, turn);
  }

  datatype Failure = SummaryFailed | SnapshotFailed | AppendFailed | EmitFailed

  /** Which of the writes behind the summary succeed. */
  datatype Writes = Writes(snapshotOk: bool, appendOk: bool, emitOk: bool)

  /** The message table and the snapshots. */
  datatype Tables = Tables(rows: seq<Message>, snapshots: map<string, Snapshot>)

  /** A compaction: where it happens, the id of its snapshot, and how its writes go. */
  datatype Job = Job(sessionId: string, turnId: string, snapshotId: string, writes: Writes)

  /** The boundary and the summary as they are stored behind the session's messages. */
  function Stored(job: Job, summary: string, saved: bool, rows: seq<Message>): seq<Message> {
    PlaceAll(CompactMessages(job.turnId, summary, if saved then job.snapshotId else ""), job.sessionId, job.turnId,
             MaxPosition(OfSession(rows, job.sessionId)) + 1)
  }

  /**
   The snapshot of the summarised range is saved if the range is one, then the boundary and the
   summary are appended; a write that fails leaves what was written before it.
   */
  ghost predicate Summarised(job: Job, summarize: seq<Message>, summary: string, start: int, end: int,
                             before: Tables, after: Tables, placed: Result<seq<Message>, Failure>)
  {
    var saves := 0 < start <= end;
    var compact := Stored(job, summary, saves, before.rows);
    && IsRange(summarize, start, end)
    && if saves && !job.writes.snapshotOk then placed == Err(SnapshotFailed) && after == before
       else
         && after.snapshots == (if saves then before.snapshots[job.snapshotId := Snapshot(job.sessionId, start, end, summary)]
                                else before.snapshots)
         && if !job.writes.appendOk then placed == Err(AppendFailed) && after.rows == before.rows
            else after.rows == before.rows + compact && placed == if job.writes.emitOk then Ok(compact) else Err(EmitFailed)
  }

  method StoreSummary(table: MessageTable, job: Job, summarize: seq<Message>, summary: string)
    returns (placed: Result<seq<Message>, Failure>, ghost start: int, ghost end: int)
    requires job.snapshotId !in table.snapshots
    modifies table
    ensures Summarised(job, summarize, summary, start, end,
                       old(Tables(table.rows, table.snapshots)), Tables(table.rows, table.snapshots), placed)
  {
    hide TrimSpace, PlaceAll, OfSession, MaxPosition, CompactMessages, IsRange;
    var startPos, endPos := MessagePositionRange(summarize);
    start, end := startPos, endPos;
    var id := "";
    if 0 < startPos <= endPos {
      if !job.writes.snapshotOk {
        placed := Err(SnapshotFailed);
        return;
      }
      table.SaveSnapshot(job.sessionId, job.snapshotId, startPos, endPos, summary);
      id := job.snapshotId;
    }
    if !job.writes.appendOk {
      placed := Err(AppendFailed);
      return;
    }
    var stored := table.AppendMessages(job.sessionId, job.turnId, CompactMessages(job.turnId, summary, id));
    if !job.writes.emitOk {
      placed := Err(EmitFailed);
      return;
    }
    placed := Ok(stored);
  }

  /** The placed messages followed by those kept. */
  function Continued(placed: Result<seq<Message>, Failure>, keep: seq<Message>): Result<seq<Message>, Failure> {
    if placed.Err? then placed else Ok(placed.value + keep)
  }

  /**
   What compaction makes of the active messages when the first k are to be summarised:
   the context of the turn, and what it stored.
   */
  ghost predicate Outcome(job: Job, active: seq<Message>, k: nat, summary: Result<string, Failure>,
                          before: Tables, after: Tables, r: Result<seq<Message>, Failure>)
    requires k <= |active|
  {
    if k > 0 && summary.Ok? && !IsBlank(summary.value) then
      exists start, end, placed ::
        Summarised(job, active[..k], summary.value, start, end, before, after, placed) && r == Continued(placed, active[k..])
    else
      after == before && r == if k > 0 && summary.Err? then Err(summary.error) else Ok(active)
  }

  /** The summariser stands for the model's answer; the job's snapshot id is a fresh one. */
  method CompactPriorIfNeeded(table: MessageTable, job: Job, systemPrompt: string, prior: seq<Message>, turn: seq<Message>,
                              maxContextTokens: int, summarizer: seq<Message> -> Result<string, Failure>)
    returns (r: Result<seq<Message>, Failure>, ghost k: nat)
    requires job.snapshotId !in table.snapshots
    modifies table
    ensures k <= |AfterBoundary(prior)|
    ensures var active := AfterBoundary(prior);
            if ContextTokens(systemPrompt, active, turn) < AutoCompactThreshold(maxContextTokens) then k == 0
            else IsSplit(active, KeepBudget(KeepRecentTokensFor(maxContextTokens)), k)
    ensures var active := AfterBoundary(prior);
            Outcome(job, active, k, summarizer(active[..k]),
                    old(Tables(table.rows, table.snapshots)), Tables(table.rows, table.snapshots), r)
  {
    hide AfterBoundary, MessageTokens, TextTokens, IsBlank, IsSplit, Summarised;
    var active := MessagesAfterCompactBoundary(prior);
    var priorTokens := ApproximateMessageTokens(active);
    var turnTokens := ApproximateMessageTokens(turn);
    if TextTokens(systemPrompt) + priorTokens + turnTokens < AutoCompactThreshold(maxContextTokens) {
      return Ok(active), 0;
    }
    var summarize, keep := SplitMessagesForCompaction(active, KeepRecentTokensFor(maxContextTokens));
    k := |summarize|;
    assert active[..k] == summarize && active[k..] == keep;
    if |summarize| == 0 {
      return Ok(active), k;
    }
    var summary := summarizer(summarize);
    if summary.Err? {
      return Err(summary.error), k;
    }
    if IsBlank(summary.value) {
      return Ok(active), k;
    }
    var placed, start, end := StoreSummary(table, job, summarize, summary.value);
    r := Continued(placed, keep);
  }
}
