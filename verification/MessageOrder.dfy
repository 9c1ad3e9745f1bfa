// What reading messages by position yields: the listing of a session as a stable sort, and
// the rows that a saved snapshot loads (internal/v2/store/message_repo.go).
module MessageOrder {
  import opened Basics
  import opened ModelAdapter
  import opened MessageStore

  /** The rows at a position, in the order they were inserted. */
  function At(rows: seq<Message>, position: int): seq<Message> {
    if rows == [] then []
    else
      var last := rows[|rows| - 1];
      At(rows[..|rows| - 1], position) + if last.position == position then [last] else []
  }

  ghost predicate Sorted(rows: seq<Message>) {
    forall i, j :: 0 <= i < j < |rows| ==> rows[i].position <= rows[j].position
  }

  /** The same rows by rising position, those at one position in the order they were inserted. */
  ghost predicate StablySorted(rows: seq<Message>, sorted: seq<Message>) {
    && multiset(sorted) == multiset(rows) && Sorted(sorted)
    && forall p: int :: At(sorted, p) == At(rows, p)
  }

  lemma AtAppend(rows: seq<Message>, msg: Message, p: int)
    ensures At(rows + [msg], p) == At(rows, p) + if msg.position == p then [msg] else []
  {
    assert (rows + [msg])[..|rows|] == rows;
  }

  lemma SortedAppend(rows: seq<Message>, msg: Message)
    ensures Sorted(rows + [msg]) <==> Sorted(rows) && forall m :: m in rows ==> m.position <= msg.position
  {
    var all := rows + [msg];
    assert all[|rows|] == msg && forall i :: 0 <= i < |rows| ==> all[i] == rows[i];
  }

  lemma {:induction false} InsertIsSorted(sorted: seq<Message>, msg: Message)
    requires Sorted(sorted)
    ensures Sorted(InsertByPosition(sorted, msg)) && multiset(InsertByPosition(sorted, msg)) == multiset(sorted + [msg])
  {
    hide Sorted;
    if sorted == [] {
      SortedAppend([], msg);
    } else {
      var front, last := sorted[..|sorted| - 1], sorted[|sorted| - 1];
      assert sorted == front + [last];
      SortedAppend(front, last);
      if last.position <= msg.position {
        SortedAppend(sorted, msg);
      } else {
        InsertIsSorted(front, msg);
        SortedAppend(InsertByPosition(front, msg), last);
        forall m | m in InsertByPosition(front, msg) ensures m.position <= last.position {
          assert m in multiset(front + [msg]);
        }
      }
    }
  }

  /** A row goes behind those at its own position and before those at greater ones. */
  lemma {:induction false} InsertIsStable(sorted: seq<Message>, msg: Message, p: int)
    requires Sorted(sorted)
    ensures At(InsertByPosition(sorted, msg), p) == At(sorted + [msg], p)
  {
    hide At, Sorted;
    if sorted != [] && sorted[|sorted| - 1].position > msg.position {
      var front, last := sorted[..|sorted| - 1], sorted[|sorted| - 1];
      assert sorted == front + [last];
      SortedAppend(front, last);
      InsertIsStable(front, msg, p);
      AtAppend(InsertByPosition(front, msg), last, p);
      AtAppend(front, msg, p);
      AtAppend(front, last, p);
      AtAppend(sorted, msg, p);
    }
  }

  lemma NoneSorted()
    ensures Sorted([]) && forall p :: At([], p) == []
  {
  }

  /** Reading by position is a stable sort. */
  lemma {:induction false} ByPositionIsStableSort(rows: seq<Message>)
    ensures StablySorted(rows, ByPosition(rows))
  {
    hide At, InsertByPosition, Sorted;
    if rows == [] {
      NoneSorted();
    } else {
      var front, last := rows[..|rows| - 1], rows[|rows| - 1];
      assert rows == front + [last];
      ByPositionIsStableSort(front);
      InsertIsSorted(ByPosition(front), last);
      forall p: int ensures At(ByPosition(rows), p) == At(rows, p) {
        InsertIsStable(ByPosition(front), last, p);
        AtAppend(ByPosition(front), last, p);
        AtAppend(front, last, p);
      }
    }
  }

  lemma {:induction false} AtIsThere(rows: seq<Message>, p: int)
    requires At(rows, p) != []
    ensures exists i :: 0 <= i < |rows| && rows[i].position == p
  {
    if rows[|rows| - 1].position != p {
      AtIsThere(rows[..|rows| - 1], p);
    }
  }

  lemma AtLast(rows: seq<Message>)
    requires rows != []
    ensures At(rows, rows[|rows| - 1].position) != []
  {
  }

  lemma NotAboveLast(rows: seq<Message>, i: nat)
    requires Sorted(rows) && i < |rows|
    ensures rows[i].position <= rows[|rows| - 1].position
  {
  }

  lemma LastNotBelow(a: seq<Message>, b: seq<Message>)
    requires Sorted(a) && b != [] && At(a, b[|b| - 1].position) == At(b, b[|b| - 1].position)
    ensures a != [] && b[|b| - 1].position <= a[|a| - 1].position
  {
    hide At, Sorted;
    AtLast(b);
    AtIsThere(a, b[|b| - 1].position);
    var i :| 0 <= i < |a| && a[i].position == b[|b| - 1].position;
    NotAboveLast(a, i);
  }

  /** There is only one such order. */
  lemma {:induction false} StableSortIsUnique(a: seq<Message>, b: seq<Message>)
    requires Sorted(a) && Sorted(b) && forall p: int :: At(a, p) == At(b, p)
    ensures a == b
    decreases |a|
  {
    hide At, Sorted;
    if b != [] {
      LastNotBelow(a, b);
      LastNotBelow(b, a);
      var x, y, front, front' := a[|a| - 1], b[|b| - 1], a[..|a| - 1], b[..|b| - 1];
      assert a == front + [x] && b == front' + [y];
      SortedAppend(front, x);
      SortedAppend(front', y);
      FrontsAgree(front, front', x, y);
      StableSortIsUnique(front, front');
    } else if a != [] {
      LastNotBelow(b, a);
    }
  }

  lemma FrontsAgree(a: seq<Message>, b: seq<Message>, x: Message, y: Message)
    requires x.position == y.position && forall p: int :: At(a + [x], p) == At(b + [y], p)
    ensures x == y && forall p: int :: At(a, p) == At(b, p)
  {
    hide At;
    AtAppend(a, x, x.position);
    AtAppend(b, y, x.position);
    LastOf(At(a, x.position), At(b, x.position), x, y);
    forall p: int ensures At(a, p) == At(b, p) {
      AtAppend(a, x, p);
      AtAppend(b, y, p);
      LastOf(At(a, p), At(b, p), x, y);
    }
  }

  lemma LastOf(s: seq<Message>, t: seq<Message>, x: Message, y: Message)
    ensures s + [x] == t + [y] ==> s == t && x == y
    ensures s + [] == s && t + [] == t
  {
    if s + [x] == t + [y] {
      var all := s + [x];
      assert |s| == |t| && all[..|s|] == s && all[..|t|] == t && all[|s|] == x && all[|t|] == y;
    }
  }

  // -------- listing and ranges --------

  lemma {:induction false} OfSessionAt(rows: seq<Message>, sessionId: string, p: int)
    ensures At(OfSession(rows, sessionId), p) == OfSession(At(rows, p), sessionId)
  {
    hide OfSession, At;
    if rows == [] {
      NothingAt(sessionId, p);
    } else {
      var front, last := rows[..|rows| - 1], rows[|rows| - 1];
      assert rows == front + [last];
      OfSessionAt(front, sessionId, p);
      AtAppend(front, last, p);
      AtAppend(OfSession(front, sessionId), last, p);
      OfSessionAppend(front, last, sessionId);
      OfSessionAppend(At(front, p), last, sessionId);
      assert At(front, p) + [] == At(front, p) && OfSession(front, sessionId) + [] == OfSession(front, sessionId);
      assert OfSession(At(front, p), sessionId) + [] == OfSession(At(front, p), sessionId);
    }
  }

  lemma NothingAt(sessionId: string, p: int)
    ensures At([], p) == [] && OfSession([], sessionId) == []
  {
  }

  lemma OfSessionAppend(rows: seq<Message>, msg: Message, sessionId: string)
    ensures OfSession(rows + [msg], sessionId) == OfSession(rows, sessionId) + if msg.sessionId == sessionId then [msg] else []
  {
    assert (rows + [msg])[..|rows|] == rows;
  }

  /** The session's rows by rising position, those at one position in the order they were inserted. */
  ghost predicate IsListing(rows: seq<Message>, sessionId: string, listed: seq<Message>) {
    Sorted(listed) && forall p: int :: At(listed, p) == OfSession(At(rows, p), sessionId)
  }

  /** The session's rows at the positions of the range, and no others, in that order. */
  ghost predicate IsRange(rows: seq<Message>, s: Snapshot, listed: seq<Message>) {
    Sorted(listed) && forall p: int :: At(listed, p) == if s.start <= p <= s.end then OfSession(At(rows, p), s.sessionId) else []
  }

  lemma ListIsListing(rows: seq<Message>, sessionId: string)
    ensures IsListing(rows, sessionId, List(rows, sessionId))
  {
    hide OfSession, ByPosition, Sorted;
    var mine := OfSession(rows, sessionId);
    ByPositionIsStableSort(mine);
    forall p: int ensures At(ByPosition(mine), p) == OfSession(At(rows, p), sessionId) {
      OfSessionAt(rows, sessionId, p);
    }
  }

  /** Whatever positions the rows have, listing a session yields this order and no other. */
  lemma ListIsStableSort(rows: seq<Message>, sessionId: string, listed: seq<Message>)
    ensures List(rows, sessionId) == listed <==> IsListing(rows, sessionId, listed)
  {
    ListIsListing(rows, sessionId);
    if IsListing(rows, sessionId, listed) {
      hide OfSession, ByPosition, Sorted, List;
      StableSortIsUnique(List(rows, sessionId), listed);
    }
  }

  lemma {:induction false} BetweenAt(rows: seq<Message>, start: int, end: int, p: int)
    ensures At(Between(rows, start, end), p) == if start <= p <= end then At(rows, p) else []
  {
    hide At;
    if rows == [] {
      NothingAt("", p);
    } else {
      var front, last := rows[..|rows| - 1], rows[|rows| - 1];
      assert rows == front + [last];
      BetweenAt(front, start, end, p);
      AtAppend(front, last, p);
      AtAppend(Between(front, start, end), last, p);
      assert Between(front, start, end) + [] == Between(front, start, end) && At(front, p) + [] == At(front, p);
    }
  }

  lemma LoadedIsRange(rows: seq<Message>, s: Snapshot)
    ensures IsRange(rows, s, ByPosition(Between(OfSession(rows, s.sessionId), s.start, s.end)))
  {
    hide OfSession, ByPosition, Sorted, Between;
    var mine := OfSession(rows, s.sessionId);
    var range := Between(mine, s.start, s.end);
    ByPositionIsStableSort(range);
    forall p: int ensures At(ByPosition(range), p) == if s.start <= p <= s.end then OfSession(At(rows, p), s.sessionId) else [] {
      BetweenAt(mine, s.start, s.end, p);
      OfSessionAt(rows, s.sessionId, p);
    }
  }

  /**
   A saved snapshot loads the rows its session has in its range by then - these and no others, in
   order - whatever positions the rows have; the other snapshots load as before.
   */
  lemma SavedRangeIsLoaded(rows: seq<Message>, snapshots: map<string, Snapshot>, id: string, s: Snapshot, listed: seq<Message>)
    ensures Loaded(rows, snapshots[id := s], id) == Some(listed) <==> IsRange(rows, s, listed)
    ensures forall other :: other != id ==> Loaded(rows, snapshots[id := s], other) == Loaded(rows, snapshots, other)
  {
    LoadedIsRange(rows, s);
    if IsRange(rows, s, listed) {
      hide OfSession, ByPosition, Sorted, Between;
      StableSortIsUnique(ByPosition(Between(OfSession(rows, s.sessionId), s.start, s.end)), listed);
    }
  }
}
