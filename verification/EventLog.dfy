// The event log: rows in the order of their numbers, which the table gives out
// (internal/v2/store/event_repo.go, internal/v2/schema/migration_001.go).
module EventLog {
  import opened Basics
  import opened EventFrames

  datatype Row = Row(sessionId: string, event: Event)

  /** Rows lie in the order of their primary key; last is the greatest key ever given out. */
  ghost predicate Ordered(rows: seq<Row>, last: int) {
    && last >= 0
    && (forall i :: 0 <= i < |rows| ==> 0 < rows[i].event.seqNo <= last)
    && (forall i, j :: 0 <= i < j < |rows| ==> rows[i].event.seqNo < rows[j].event.seqNo)
  }

  /** The events of a session behind a sequence number, in order. */
  function EventsAfter(rows: seq<Row>, sessionId: string, after: int): seq<Event> {
    if rows == [] then []
    else
      var r := rows[|rows| - 1];
      EventsAfter(rows[..|rows| - 1], sessionId, after)
      + if r.sessionId == sessionId && r.event.seqNo > after then [r.event] else []
  }

  /** The row a new event becomes: a key above all given out so far, unless it brings one. */
  function Keyed(item: Row, last: int): Row {
    if item.event.seqNo > 0 then item else item.(event := item.event.(seqNo := last + 1))
  }

  /** The rows that new events become, one behind the other. */
  function Numbered(items: seq<Row>, last: int): (numbered: seq<Row>)
    ensures |numbered| == |items|
  {
    if items == [] then []
    else
      var row := Keyed(items[0], last);
      [row] + Numbered(items[1..], if row.event.seqNo > last then row.event.seqNo else last)
  }

  predicate Upward(items: seq<Row>, last: int) {
    items == [] ||
    (var n := Keyed(items[0], last).event.seqNo;
     n > last && Upward(items[1..], n))
  }

  /** Where a key belongs. */
  function Place(rows: seq<Row>, key: int): (p: nat)
    ensures p <= |rows|
    ensures p < |rows| ==> rows[p].event.seqNo >= key
    ensures p > 0 ==> rows[p - 1].event.seqNo < key
  {
    if rows == [] || rows[|rows| - 1].event.seqNo < key then |rows| else Place(rows[..|rows| - 1], key)
  }

  lemma InsertedInOrder(rows: seq<Row>, last: int, row: Row, p: nat)
    requires Ordered(rows, last) && p <= |rows| && row.event.seqNo > 0
    requires forall i :: 0 <= i < p ==> rows[i].event.seqNo < row.event.seqNo
    requires forall i :: p <= i < |rows| ==> rows[i].event.seqNo > row.event.seqNo
    ensures var rows' := rows[..p] + [row] + rows[p..];
            && Ordered(rows', if row.event.seqNo > last then row.event.seqNo else last)
            && (forall r :: r in rows' <==> r in rows || r == row)
  {
    var rows' := rows[..p] + [row] + rows[p..];
    assert rows'[p] == row;
    forall r | r in rows ensures r in rows' {
      var i :| 0 <= i < |rows| && rows[i] == r;
      assert rows'[if i < p then i else i + 1] == r;
    }
  }

  class EventTable {
    var rows: seq<Row>
    var last: int

    ghost predicate Valid()
      reads this
    {
      Ordered(rows, last)
    }

    constructor ()
      ensures Valid() && rows == []
    {
      rows, last := [], 0;
    }

    /**
     Adds the rows of the first n items, each at its place; it stops at an item whose own key is
     taken. Keys above all before put the rows at the end.
     */
    method Append(items: seq<Row>) returns (ok: bool)
      requires Valid()
      modifies this
      ensures Valid() && last >= old(last)
      ensures var n := |rows| - |old(rows)|;
              && 0 <= n <= |items| && (ok <==> n == |items|)
              && (forall r :: r in rows <==> r in old(rows) || r in Numbered(items, old(last))[..n])
              && (!ok ==> exists r :: r in rows && r.event.seqNo == items[n].event.seqNo > 0)
      ensures Upward(items, old(last)) ==> ok && rows == old(rows) + Numbered(items, old(last))
    {
      hide Ordered;
      ghost var up := Upward(items, last);
      ghost var whole := Numbered(items, last);
      assert items[0..] == items;
      for i := 0 to |items|
        invariant Valid() && last >= old(last) && |rows| == |old(rows)| + i
        invariant whole[i..] == Numbered(items[i..], last)
        invariant forall r :: r in rows <==> r in old(rows) || r in whole[..i]
        invariant up ==> Upward(items[i..], last) && rows == old(rows) + whole[..i]
      {
        assert items[i..][0] == items[i] && items[i..][1..] == items[i + 1..];
        assert whole[i..][0] == whole[i] && whole[i..][1..] == whole[i + 1..] && whole[..i + 1] == whole[..i] + [whole[i]];
        var done := Insert(items[i]);
        if !done {
          return false;
        }
      }
      assert whole[..|items|] == whole;
      ok := true;
    }

    method Insert(item: Row) returns (ok: bool)
      requires Valid()
      modifies this
      ensures Valid()
      ensures var row := Keyed(item, old(last));
              if ok then
                && (forall r :: r in rows <==> r in old(rows) || r == row) && |rows| == |old(rows)| + 1
                && last == (if row.event.seqNo > old(last) then row.event.seqNo else old(last))
              else
                && rows == old(rows) && last == old(last)
                && exists r :: r in rows && r.event.seqNo == item.event.seqNo > 0
      ensures var row := Keyed(item, old(last)); row.event.seqNo > old(last) ==> ok && rows == old(rows) + [row]
    {
      var row := Keyed(item, last);
      var p := Place(rows, row.event.seqNo);
      if p < |rows| && rows[p].event.seqNo == row.event.seqNo {
        assert rows[p] in rows;
        return false;
      }
      InsertedInOrder(rows, last, row, p);
      rows := rows[..p] + [row] + rows[p..];
      if row.event.seqNo > last {
        last := row.event.seqNo;
      }
      return true;
    }

    /** A limit that is not positive means no limit. */
    method List(sessionId: string, after: int, limit: int) returns (events: seq<Event>)
      ensures events == FirstAfter(rows, sessionId, after, limit)
    {
      events := [];
      for i := 0 to |rows|
        invariant events == EventsAfter(rows[..i], sessionId, after)
      {
        assert rows[..i + 1][..i] == rows[..i];
        if rows[i].sessionId == sessionId && rows[i].event.seqNo > after {
          events := events + [rows[i].event];
        }
      }
      assert rows[..|rows|] == rows;
      if 0 < limit < |events| {
        events := events[..limit];
      }
    }
  }

  function FirstAfter(rows: seq<Row>, sessionId: string, after: int, limit: int): seq<Event> {
    var all := EventsAfter(rows, sessionId, after);
    if 0 < limit < |all| then all[..limit] else all
  }

  // -------- reading on --------

  ghost predicate Rising(events: seq<Event>, after: int) {
    && (forall i :: 0 <= i < |events| ==> events[i].seqNo > after)
    && (forall i, j :: 0 <= i < j < |events| ==> events[i].seqNo < events[j].seqNo)
  }

  lemma {:induction false} EventsRise(rows: seq<Row>, last: int, sessionId: string, after: int)
    requires Ordered(rows, last)
    ensures Rising(EventsAfter(rows, sessionId, after), after)
    ensures forall e :: e in EventsAfter(rows, sessionId, after) ==> e.seqNo <= last && Row(sessionId, e) in rows
  {
    if rows != [] {
      var front, r := rows[..|rows| - 1], rows[|rows| - 1];
      assert Ordered(front, r.event.seqNo - 1);
      EventsRise(front, r.event.seqNo - 1, sessionId, after);
      forall e | e in EventsAfter(rows, sessionId, after) ensures Row(sessionId, e) in rows {
        if e in EventsAfter(front, sessionId, after) {
          assert Row(sessionId, e) in front;
        } else {
          assert r == Row(sessionId, e);
        }
      }
    }
  }

  /** No event of the session behind the number is left out. */
  lemma {:induction false} NoneIsLeftOut(rows: seq<Row>, sessionId: string, after: int, r: Row)
    requires r in rows && r.sessionId == sessionId && r.event.seqNo > after
    ensures r.event in EventsAfter(rows, sessionId, after)
  {
    if r != rows[|rows| - 1] {
      var i :| 0 <= i < |rows| && rows[i] == r;
      assert rows[..|rows| - 1][i] == r;
      NoneIsLeftOut(rows[..|rows| - 1], sessionId, after, r);
    }
  }

  lemma LastRow(rows: seq<Row>, sessionId: string, after: int)
    requires rows != []
    ensures var r := rows[|rows| - 1];
            EventsAfter(rows, sessionId, after)
            == EventsAfter(rows[..|rows| - 1], sessionId, after)
               + if r.sessionId == sessionId && r.event.seqNo > after then [r.event] else []
  {
  }

  lemma NoRows(sessionId: string, after: int)
    ensures EventsAfter([], sessionId, after) == []
  {
  }

  /** Reading on behind a sequence number gives what is left of the list. */
  lemma {:induction false} ReadingOn(rows: seq<Row>, last: int, sessionId: string, after: int, k: nat)
    requires Ordered(rows, last) && 0 < k <= |EventsAfter(rows, sessionId, after)|
    ensures EventsAfter(rows, sessionId, EventsAfter(rows, sessionId, after)[k - 1].seqNo) == EventsAfter(rows, sessionId, after)[k..]
  {
    hide Ordered, EventsAfter;
    NoRows(sessionId, after);
    var front, r := rows[..|rows| - 1], rows[|rows| - 1];
    var before, all := EventsAfter(front, sessionId, after), EventsAfter(rows, sessionId, after);
    var seen := all[k - 1].seqNo;
    FrontOrdered(rows, last);
    LastRow(rows, sessionId, after);
    LastRow(rows, sessionId, seen);
    if k <= |before| {
      ReadingOn(front, r.event.seqNo - 1, sessionId, after, k);
      SeenIsBefore(front, r.event.seqNo - 1, sessionId, after, k);
    } else {
      NothingBehind(front, r.event.seqNo - 1, sessionId, r.event.seqNo);
    }
  }

  lemma SeenIsBefore(rows: seq<Row>, last: int, sessionId: string, after: int, k: nat)
    requires Ordered(rows, last) && 0 < k <= |EventsAfter(rows, sessionId, after)|
    ensures after < EventsAfter(rows, sessionId, after)[k - 1].seqNo <= last
  {
    hide Ordered, EventsAfter;
    EventsRise(rows, last, sessionId, after);
    assert EventsAfter(rows, sessionId, after)[k - 1] in EventsAfter(rows, sessionId, after);
  }

  lemma FrontOrdered(rows: seq<Row>, last: int)
    requires Ordered(rows, last) && rows != []
    ensures Ordered(rows[..|rows| - 1], rows[|rows| - 1].event.seqNo - 1)
  {
  }

  lemma NothingBehind(rows: seq<Row>, last: int, sessionId: string, after: int)
    requires Ordered(rows, last) && after >= last
    ensures EventsAfter(rows, sessionId, after) == []
  {
    if rows != [] {
      NothingBehind(rows[..|rows| - 1], last, sessionId, after);
    }
  }

  /** A log that has grown at its end lists first what it listed before. */
  lemma {:induction false} GrownLogExtends(rows: seq<Row>, grown: seq<Row>, sessionId: string, after: int)
    requires rows <= grown
    ensures EventsAfter(rows, sessionId, after) <= EventsAfter(grown, sessionId, after)
    decreases |grown|
  {
    if |rows| < |grown| {
      GrownLogExtends(rows, grown[..|grown| - 1], sessionId, after);
    } else {
      assert rows == grown;
    }
  }

  /** The greatest of the numbers given out before an item. */
  function Given(items: seq<Row>, last: int): int {
    if items == [] then last
    else
      var before, own := Given(items[..|items| - 1], last), items[|items| - 1].event.seqNo;
      if own <= 0 then before + 1 else if own > before then own else before
  }

  lemma {:induction false} GivenFront(items: seq<Row>, last: int)
    requires items != []
    ensures var n := Keyed(items[0], last).event.seqNo; Given(items, last) == Given(items[1..], if n > last then n else last)
  {
    if |items| == 1 {
      assert items[..0] == [] && items[1..] == [];
    } else {
      GivenFront(items[..|items| - 1], last);
      assert items[..|items| - 1][1..] == items[1..][..|items| - 2];
    }
  }

  /** An item that brings a number keeps it; another gets the next one above all given out before. */
  lemma {:induction false} NumberedEach(items: seq<Row>, last: int, i: nat)
    requires i < |items|
    ensures var row := Numbered(items, last)[i];
            && row == items[i].(event := items[i].event.(seqNo := row.event.seqNo))
            && row.event.seqNo == if items[i].event.seqNo > 0 then items[i].event.seqNo else Given(items[..i], last) + 1
    decreases i
  {
    if i > 0 {
      var n := Keyed(items[0], last).event.seqNo;
      NumberedEach(items[1..], if n > last then n else last, i - 1);
      GivenFront(items[..i], last);
      assert items[..i][1..] == items[1..][..i - 1];
    } else {
      assert items[..0] == [];
    }
  }
}
