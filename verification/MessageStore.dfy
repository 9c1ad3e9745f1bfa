// The message table: rows in insertion order, read in position order, and what is
// guaranteed when messages are appended at the end (internal/v2/store/message_repo.go).
module MessageStore {
  import opened Basics
  import opened Text
  import opened ModelAdapter

  datatype Snapshot = Snapshot(sessionId: string, start: int, end: int, summary: string)

  // -------- queries --------

  function OfSession(rows: seq<Message>, sessionId: string): seq<Message> {
    if rows == [] then []
    else
      var last := rows[|rows| - 1];
      OfSession(rows[..|rows| - 1], sessionId) + if last.sessionId == sessionId then [last] else []
  }

  /** Puts a row after those whose position is not greater. */
  function InsertByPosition(sorted: seq<Message>, msg: Message): seq<Message> {
    if sorted == [] || sorted[|sorted| - 1].position <= msg.position then sorted + [msg]
    else InsertByPosition(sorted[..|sorted| - 1], msg) + [sorted[|sorted| - 1]]
  }

  /** ORDER BY position; rows with equal positions stay in insertion order. */
  function ByPosition(rows: seq<Message>): seq<Message> {
    if rows == [] then [] else InsertByPosition(ByPosition(rows[..|rows| - 1]), rows[|rows| - 1])
  }

  function Between(rows: seq<Message>, start: int, end: int): seq<Message> {
    if rows == [] then []
    else
      var last := rows[|rows| - 1];
      Between(rows[..|rows| - 1], start, end) + if start <= last.position <= end then [last] else []
  }

  function List(rows: seq<Message>, sessionId: string): seq<Message> {
    ByPosition(OfSession(rows, sessionId))
  }

  /** COALESCE(MAX(position), 0) */
  function MaxPosition(rows: seq<Message>): int {
    if rows == [] then 0
    else if |rows| == 1 then rows[0].position
    else
      var m := MaxPosition(rows[..|rows| - 1]);
      if rows[|rows| - 1].position > m then rows[|rows| - 1].position else m
  }

  // -------- appendMessages --------

  /** Gives a message its session, its turn and, unless it has one, the next position. */
  function Place(msg: Message, sessionId: string, turnId: string, next: int): Message {
    msg.(sessionId := sessionId,
         turnId := if IsBlank(msg.turnId) then turnId else msg.turnId,
         position := if msg.position == 0 then next else msg.position)
  }

  function PlaceAll(msgs: seq<Message>, sessionId: string, turnId: string, next: int): (placed: seq<Message>)
    ensures |placed| == |msgs|
    ensures forall i :: 0 <= i < |msgs| ==> placed[i].sessionId == sessionId && SameForModel(placed[i], msgs[i])
    ensures (forall i :: 0 <= i < |msgs| ==> msgs[i].position == 0) ==>
              forall i :: 0 <= i < |msgs| ==> placed[i].position == next + i
  {
    if msgs == [] then []
    else [Place(msgs[0], sessionId, turnId, next)]
         + PlaceAll(msgs[1..], sessionId, turnId, if msgs[0].position == 0 then next + 1 else next)
  }

  function CountUnplaced(msgs: seq<Message>): nat {
    if msgs == [] then 0 else CountUnplaced(msgs[..|msgs| - 1]) + if msgs[|msgs| - 1].position == 0 then 1 else 0
  }

  lemma {:induction false} UnplacedFront(msgs: seq<Message>, i: nat)
    requires 0 < i <= |msgs|
    ensures CountUnplaced(msgs[..i]) == CountUnplaced(msgs[1..][..i - 1]) + if msgs[0].position == 0 then 1 else 0
  {
    if i == 1 {
      assert msgs[..1][..0] == [] && msgs[1..][..0] == [];
    } else {
      UnplacedFront(msgs, i - 1);
      assert msgs[..i][..i - 1] == msgs[..i - 1] && msgs[1..][..i - 1][..i - 2] == msgs[1..][..i - 2];
    }
  }

  /** Each message keeps what it says; it gets the session, the turn unless it has one, and the next free position unless it has one. */
  lemma {:induction false} PlacedEach(msgs: seq<Message>, sessionId: string, turnId: string, next: int, i: nat)
    requires i < |msgs|
    ensures var placed := PlaceAll(msgs, sessionId, turnId, next)[i];
            && placed.role == msgs[i].role && placed.content == msgs[i].content && placed.toolCallId == msgs[i].toolCallId
            && placed.sessionId == sessionId
            && placed.turnId == (if IsBlank(msgs[i].turnId) then turnId else msgs[i].turnId)
            && placed.position == if msgs[i].position == 0 then next + CountUnplaced(msgs[..i]) else msgs[i].position
    decreases i
  {
    hide IsBlank;
    if i > 0 {
      PlacedEach(msgs[1..], sessionId, turnId, if msgs[0].position == 0 then next + 1 else next, i - 1);
      UnplacedFront(msgs, i);
    } else {
      assert msgs[..0] == [];
    }
  }

  method PlaceMessages(msgs: seq<Message>, sessionId: string, turnId: string, first: int) returns (placed: seq<Message>)
    ensures placed == PlaceAll(msgs, sessionId, turnId, first)
  {
    hide Place;
    ghost var whole := PlaceAll(msgs, sessionId, turnId, first);
    placed := [];
    var next := first;
    for i := 0 to |msgs|
      invariant placed == whole[..i]
      invariant whole[i..] == PlaceAll(msgs[i..], sessionId, turnId, next)
    {
      ghost var rest := whole[i..];
      assert msgs[i..][1..] == msgs[i + 1..];
      assert rest[0] == Place(msgs[i], sessionId, turnId, next);
      assert whole[i] == rest[0] && whole[i + 1..] == rest[1..];
      placed := placed + [Place(msgs[i], sessionId, turnId, next)];
      if msgs[i].position == 0 {
        next := next + 1;
      }
    }
  }

  /** The rows of one session have rising positions, starting above zero. */
  ghost predicate Rising(rows: seq<Message>) {
    && (forall i :: 0 <= i < |rows| ==> rows[i].position >= 1)
    && (forall i, j :: 0 <= i < j < |rows| ==> rows[i].position < rows[j].position)
  }

  class MessageTable {
    var rows: seq<Message>
    var snapshots: map<string, Snapshot>

    constructor ()
      ensures rows == [] && snapshots == map[]
    {
      rows, snapshots := [], map[];
    }

    method Append(messages: seq<Message>)
      modifies this`rows
      ensures rows == old(rows) + messages
    {
      for i := 0 to |messages|
        invariant rows == old(rows) + messages[..i]
      {
        rows := rows + [messages[i]];
      }
    }

    /** A limit that is not positive means no limit. */
    method ListMessages(sessionId: string, limit: int) returns (messages: seq<Message>)
      ensures var all := List(rows, sessionId);
              messages == if 0 < limit < |all| then all[..limit] else all
    {
      messages := ByPosition(OfSession(rows, sessionId));
      if 0 < limit < |messages| {
        messages := messages[..limit];
      }
    }

    method SaveSnapshot(sessionId: string, id: string, start: int, end: int, summary: string)
      requires id !in snapshots
      modifies this`snapshots
      ensures snapshots == old(snapshots)[id := Snapshot(sessionId, start, end, summary)]
    {
      snapshots := snapshots[id := Snapshot(sessionId, start, end, summary)];
    }

    method LoadSnapshot(id: string) returns (r: Option<seq<Message>>)
      ensures r == Loaded(rows, snapshots, id)
    {
      if id !in snapshots {
        return None;
      }
      var s := snapshots[id];
      return Some(ByPosition(Between(OfSession(rows, s.sessionId), s.start, s.end)));
    }

    /** Positions and stores the messages behind the session's last one; returns them as stored. */
    method AppendMessages(sessionId: string, turnId: string, messages: seq<Message>) returns (placed: seq<Message>)
      modifies this`rows
      ensures placed == PlaceAll(messages, sessionId, turnId, MaxPosition(OfSession(old(rows), sessionId)) + 1)
      ensures rows == old(rows) + placed
    {
      hide OfSession, MaxPosition, PlaceAll;
      if |messages| == 0 {
        return [];
      }
      placed := PlaceMessages(messages, sessionId, turnId, MaxPosition(OfSession(rows, sessionId)) + 1);
      Append(placed);
    }
  }

  function Loaded(rows: seq<Message>, snapshots: map<string, Snapshot>, id: string): Option<seq<Message>> {
    if id !in snapshots then None
    else
      var s := snapshots[id];
      Some(ByPosition(Between(OfSession(rows, s.sessionId), s.start, s.end)))
  }

  // -------- what the table guarantees when messages are stored through AppendMessages --------

  lemma OfSessionConcat(a: seq<Message>, b: seq<Message>, sessionId: string)
    ensures OfSession(a + b, sessionId) == OfSession(a, sessionId) + OfSession(b, sessionId)
  {
    if b == [] {
      assert a + b == a;
    } else {
      OfSessionConcat(a, b[..|b| - 1], sessionId);
      assert (a + b)[..|a + b| - 1] == a + b[..|b| - 1];
    }
  }

  lemma OfSessionAll(rows: seq<Message>, sessionId: string)
    requires forall i :: 0 <= i < |rows| ==> rows[i].sessionId == sessionId
    ensures OfSession(rows, sessionId) == rows
  {
    if rows != [] {
      OfSessionAll(rows[..|rows| - 1], sessionId);
    }
  }

  lemma OfSessionNone(rows: seq<Message>, sessionId: string)
    requires forall i :: 0 <= i < |rows| ==> rows[i].sessionId != sessionId
    ensures OfSession(rows, sessionId) == []
  {
  }

  /** The rows between the positions of two of them are the slice from one to the other. */
  lemma {:induction false} BetweenIsSlice(rows: seq<Message>, from: nat, to: nat, n: nat)
    requires Rising(rows) && from < to <= |rows| && n <= |rows|
    ensures Between(rows[..n], rows[from].position, rows[to - 1].position)
            == if n <= from then [] else if n <= to then rows[from..n] else rows[from..to]
  {
    if n > 0 {
      BetweenIsSlice(rows, from, to, n - 1);
      assert rows[..n][..n - 1] == rows[..n - 1];
      assert rows[n - 1].position >= rows[from].position <==> n - 1 >= from;
      assert rows[n - 1].position <= rows[to - 1].position <==> n - 1 <= to - 1;
    }
  }

  lemma MaxOfRising(rows: seq<Message>)
    requires Rising(rows)
    ensures MaxPosition(rows) == if rows == [] then 0 else rows[|rows| - 1].position
  {
  }

  /** Reading rows that are already in order changes nothing. */
  lemma RisingIsSorted(rows: seq<Message>)
    requires Rising(rows)
    ensures ByPosition(rows) == rows
  {
    if rows != [] {
      RisingIsSorted(rows[..|rows| - 1]);
    }
  }

  /** appendMessages adds its messages at the end of what the session lists, and touches no other session. */
  lemma AppendExtendsList(rows: seq<Message>, sessionId: string, turnId: string, msgs: seq<Message>)
    requires Rising(OfSession(rows, sessionId))
    requires forall i :: 0 <= i < |msgs| ==> msgs[i].position == 0
    ensures var placed := PlaceAll(msgs, sessionId, turnId, MaxPosition(OfSession(rows, sessionId)) + 1);
            && OfSession(rows + placed, sessionId) == OfSession(rows, sessionId) + placed
            && Rising(OfSession(rows + placed, sessionId))
            && List(rows + placed, sessionId) == List(rows, sessionId) + placed
            && (forall other :: other != sessionId ==> OfSession(rows + placed, other) == OfSession(rows, other))
  {
    hide OfSession, ByPosition, PlaceAll, MaxPosition;
    var mine := OfSession(rows, sessionId);
    var placed := PlaceAll(msgs, sessionId, turnId, MaxPosition(mine) + 1);
    MaxOfRising(mine);
    OfSessionConcat(rows, placed, sessionId);
    OfSessionAll(placed, sessionId);
    assert Rising(mine + placed);
    RisingIsSorted(mine);
    RisingIsSorted(mine + placed);
    forall other | other != sessionId ensures OfSession(rows + placed, other) == OfSession(rows, other) {
      OfSessionConcat(rows, placed, other);
      OfSessionNone(placed, other);
    }
  }

  /** A range of positions of a session holds exactly the rows listed from its first to its last. */
  lemma RangeIsSlice(rows: seq<Message>, sessionId: string, from: nat, to: nat)
    requires Rising(OfSession(rows, sessionId)) && from < to <= |List(rows, sessionId)|
    ensures var all := List(rows, sessionId);
            ByPosition(Between(OfSession(rows, sessionId), all[from].position, all[to - 1].position)) == all[from..to]
  {
    hide OfSession, ByPosition, Between;
    var all := OfSession(rows, sessionId);
    RisingIsSorted(all);
    BetweenIsSlice(all, from, to, |all|);
    assert all[..|all|] == all;
    RisingIsSorted(all[from..to]);
  }

  /** A saved range keeps loading the same rows, whatever is appended later to any session. */
  lemma SnapshotIsStable(rows: seq<Message>, sessionId: string, from: nat, to: nat, writer: string, turnId: string, msgs: seq<Message>)
    requires Rising(OfSession(rows, sessionId)) && from < to <= |List(rows, sessionId)|
    requires Rising(OfSession(rows, writer))
    requires forall i :: 0 <= i < |msgs| ==> msgs[i].position == 0
    ensures var all := List(rows, sessionId);
            var rows' := rows + PlaceAll(msgs, writer, turnId, MaxPosition(OfSession(rows, writer)) + 1);
            ByPosition(Between(OfSession(rows', sessionId), all[from].position, all[to - 1].position)) == all[from..to]
  {
    hide OfSession, ByPosition, Between, PlaceAll, MaxPosition;
    var placed := PlaceAll(msgs, writer, turnId, MaxPosition(OfSession(rows, writer)) + 1);
    AppendExtendsList(rows, writer, turnId, msgs);
    if writer == sessionId {
      var all := List(rows, sessionId);
      RangeIsSlice(rows + placed, sessionId, from, to);
      assert (all + placed)[from..to] == all[from..to];
    } else {
      RangeIsSlice(rows, sessionId, from, to);
    }
  }
}
