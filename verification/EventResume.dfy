/** Resuming an event stream (internal/v2/app/routes.go, internal/v2/tui/stream.go). */
module EventResume {
  import opened Basics
  import opened EventFrames
  import opened EventCuts
  import opened EventLog

  const PAGE := 100

  /** One look of the server at the log: its rows, or a failed read. */
  type Poll = Option<seq<Row>>

  function Latest(after: int, events: seq<Event>): int {
    if events == [] then after else events[|events| - 1].seqNo
  }

  // -------- the server --------

  /** What the server reads of the log at once. */
  function Page(poll: Poll, sessionId: string, after: int): seq<Event> {
    if poll.None? then [] else FirstAfter(poll.value, sessionId, after, PAGE)
  }

  method WriteAvailableEvents(text: string, poll: Poll, sessionId: string, afterSeq: int) returns (out: string, next: int)
    ensures var page := Page(poll, sessionId, afterSeq);
            out == text + Frames(page) && next == Latest(afterSeq, page)
  {
    hide Frame, EventsAfter;
    if poll.None? {
      assert text + Frames([]) == text;
      return text, afterSeq;
    }
    var page := FirstAfter(poll.value, sessionId, afterSeq, PAGE);
    out, next := text, afterSeq;
    for i := 0 to |page|
      invariant out + Frames(page[i..]) == text + Frames(page)
      invariant next == Latest(afterSeq, page[..i])
    {
      assert page[i..][1..] == page[i + 1..];
      out := out + Frame(page[i]);
      next := page[i].seqNo;
    }
    assert page[|page|..] == [] && page[..|page|] == page;
  }

  /** The events the server prints over its polls. */
  function Polled(sessionId: string, after: int, polls: seq<Poll>): seq<Event>
    decreases |polls|
  {
    if polls == [] then []
    else
      var page := Page(polls[0], sessionId, after);
      page + Polled(sessionId, Latest(after, page), polls[1..])
  }

  lemma {:induction false} FramesConcat(a: seq<Event>, b: seq<Event>)
    ensures Frames(a + b) == Frames(a) + Frames(b)
  {
    hide Frame;
    if a == [] {
      assert a + b == b;
    } else {
      assert (a + b)[1..] == a[1..] + b;
      FramesConcat(a[1..], b);
    }
  }

  lemma PrintPage(text: string, sessionId: string, after: int, polls: seq<Poll>, i: nat)
    requires i < |polls|
    ensures var page := Page(polls[i], sessionId, after);
            text + Frames(Polled(sessionId, after, polls[i..]))
            == (text + Frames(page)) + Frames(Polled(sessionId, Latest(after, page), polls[i + 1..]))
  {
    hide Frame, EventsAfter, FirstAfter, Frames, Latest;
    var page := Page(polls[i], sessionId, after);
    assert polls[i..][1..] == polls[i + 1..];
    FramesConcat(page, Polled(sessionId, Latest(after, page), polls[i + 1..]));
  }

  method StreamSession(sessionId: string, afterSeq: int, polls: seq<Poll>) returns (text: string)
    ensures text == Frames(Polled(sessionId, afterSeq, polls))
  {
    hide Frame, EventsAfter, FirstAfter, Page, Latest;
    text := "";
    var after := afterSeq;
    assert polls[0..] == polls;
    for i := 0 to |polls|
      invariant text + Frames(Polled(sessionId, after, polls[i..])) == Frames(Polled(sessionId, afterSeq, polls))
    {
      PrintPage(text, sessionId, after, polls, i);
      text, after := WriteAvailableEvents(text, polls[i], sessionId, after);
    }
    assert polls[|polls|..] == [];
  }

  /** Every poll saw a state of the log that the final one extends. */
  ghost predicate Earlier(polls: seq<Poll>, log: seq<Row>) {
    forall i :: 0 <= i < |polls| && polls[i].Some? ==> polls[i].value <= log
  }

  lemma PageIsPrefix(rows: seq<Row>, log: seq<Row>, sessionId: string, after: int)
    requires rows <= log
    ensures FirstAfter(rows, sessionId, after, PAGE) <= EventsAfter(log, sessionId, after)
  {
    hide EventsAfter;
    GrownLogExtends(rows, log, sessionId, after);
  }

  /** Behind what was read, the log holds what was not. */
  lemma Behind(log: seq<Row>, last: int, sessionId: string, after: int, read: seq<Event>)
    requires Ordered(log, last) && read <= EventsAfter(log, sessionId, after)
    ensures EventsAfter(log, sessionId, after) == read + EventsAfter(log, sessionId, Latest(after, read))
  {
    hide EventsAfter, Ordered;
    if read != [] {
      ReadingOn(log, last, sessionId, after, |read|);
    }
  }

  /** What the server prints over any polls of a growing log is the beginning of the session's events. */
  lemma {:induction false} PolledIsPrefix(log: seq<Row>, last: int, sessionId: string, after: int, polls: seq<Poll>)
    requires Ordered(log, last) && Earlier(polls, log)
    ensures Polled(sessionId, after, polls) <= EventsAfter(log, sessionId, after)
    decreases |polls|
  {
    hide EventsAfter, FirstAfter, Ordered;
    if polls != [] {
      var page := Page(polls[0], sessionId, after);
      if polls[0].Some? {
        PageIsPrefix(polls[0].value, log, sessionId, after);
      }
      Behind(log, last, sessionId, after, page);
      PolledIsPrefix(log, last, sessionId, Latest(after, page), polls[1..]);
    }
  }

  /** Each look at the final log brings a page, until all is read. */
  lemma {:induction false} PollsCatchUp(log: seq<Row>, last: int, sessionId: string, after: int, polls: seq<Poll>)
    requires Ordered(log, last) && forall i :: 0 <= i < |polls| ==> polls[i] == Some(log)
    ensures var all := EventsAfter(log, sessionId, after);
            Polled(sessionId, after, polls) == all[..if PAGE * |polls| < |all| then PAGE * |polls| else |all|]
    decreases |polls|
  {
    hide EventsAfter, Ordered;
    if polls != [] {
      var all := EventsAfter(log, sessionId, after);
      var page := FirstAfter(log, sessionId, after, PAGE);
      Behind(log, last, sessionId, after, page);
      PollsCatchUp(log, last, sessionId, Latest(after, page), polls[1..]);
    }
  }

  // -------- the streamer --------

  /** A connection is refused, or brings the first characters of what the server printed and breaks or is closed. */
  datatype Connection = Refused | Streamed(polls: seq<Poll>, cut: nat, closed: bool)

  /** What the client reads of the characters that arrive. */
  function Received(sessionId: string, after: int, c: Connection): seq<Event> {
    if c.Refused? then []
    else
      var text := Frames(Polled(sessionId, after, c.polls));
      Read(text[..if c.cut < |text| then c.cut else |text|], "", c.closed)
  }

  /** The greatest of after and the numbers received. */
  function Advanced(after: int, events: seq<Event>): int
    decreases |events|
  {
    if events == [] then after else Advanced(if events[0].seqNo > after then events[0].seqNo else after, events[1..])
  }

  lemma {:induction false} AdvancedIsGreatest(after: int, events: seq<Event>)
    ensures var n := Advanced(after, events);
            && n >= after && (forall i :: 0 <= i < |events| ==> events[i].seqNo <= n)
            && (n == after || exists i :: 0 <= i < |events| && events[i].seqNo == n)
    decreases |events|
  {
    if events != [] {
      AdvancedIsGreatest(if events[0].seqNo > after then events[0].seqNo else after, events[1..]);
      assert forall i :: 0 < i < |events| ==> events[i] == events[1..][i - 1];
      var n := Advanced(after, events);
      if exists i :: 0 <= i < |events| - 1 && events[1..][i].seqNo == n {
        var i :| 0 <= i < |events| - 1 && events[1..][i].seqNo == n;
        assert events[i + 1].seqNo == n;
      }
    }
  }

  /** All events the streamer gets over its connections, each asked for behind the last number seen. */
  function AllReceived(sessionId: string, after: int, cs: seq<Connection>): seq<Event>
    decreases |cs|
  {
    if cs == [] then []
    else
      var got := Received(sessionId, after, cs[0]);
      got + AllReceived(sessionId, Advanced(after, got), cs[1..])
  }

  function LastSeen(sessionId: string, after: int, cs: seq<Connection>): int
    decreases |cs|
  {
    if cs == [] then after else LastSeen(sessionId, Advanced(after, Received(sessionId, after, cs[0])), cs[1..])
  }

  ghost predicate SessionPrintable(log: seq<Row>, sessionId: string) {
    forall i :: 0 <= i < |log| && log[i].sessionId == sessionId ==> Printable(log[i].event)
  }

  ghost predicate AllEarlier(cs: seq<Connection>, log: seq<Row>) {
    forall i :: 0 <= i < |cs| && cs[i].Streamed? ==> Earlier(cs[i].polls, log)
  }

  lemma PolledArePrintable(log: seq<Row>, last: int, sessionId: string, after: int, polls: seq<Poll>)
    requires Ordered(log, last) && Earlier(polls, log) && SessionPrintable(log, sessionId)
    ensures AllPrintable(Polled(sessionId, after, polls))
  {
    hide Printable, EventsAfter, Polled, Earlier;
    PolledIsPrefix(log, last, sessionId, after, polls);
    EventsRise(log, last, sessionId, after);
    var es := Polled(sessionId, after, polls);
    forall i | 0 <= i < |es| ensures Printable(es[i]) {
      assert es[i] == EventsAfter(log, sessionId, after)[i];
      assert Row(sessionId, es[i]) in log;
    }
  }

  lemma RunStep(sessionId: string, after: int, cs: seq<Connection>, i: nat)
    requires i < |cs|
    ensures var got := Received(sessionId, after, cs[i]);
            var next := Advanced(after, got);
            && AllReceived(sessionId, after, cs[i..]) == got + AllReceived(sessionId, next, cs[i + 1..])
            && LastSeen(sessionId, after, cs[i..]) == LastSeen(sessionId, next, cs[i + 1..])
  {
    hide Received, Advanced;
    assert cs[i..][1..] == cs[i + 1..];
  }

  lemma RefusedBringsNothing(sessionId: string, after: int)
    ensures Received(sessionId, after, Refused) == [] && Advanced(after, []) == after
  {
  }

  /** The loop of Streamer.run over the connections it gets. */
  method Run(sessionId: string, afterSeq: int, cs: seq<Connection>) returns (out: seq<Event>, lastSeq: int)
    ensures out == AllReceived(sessionId, afterSeq, cs) && lastSeq == LastSeen(sessionId, afterSeq, cs)
  {
    hide *;
    out, lastSeq := [], afterSeq;
    assert cs[0..] == cs;
    for i := 0 to |cs|
      invariant out + AllReceived(sessionId, lastSeq, cs[i..]) == AllReceived(sessionId, afterSeq, cs)
      invariant LastSeen(sessionId, lastSeq, cs[i..]) == LastSeen(sessionId, afterSeq, cs)
    {
      RunStep(sessionId, lastSeq, cs, i);
      if cs[i].Streamed? {
        var events := Connect(sessionId, lastSeq, cs[i]);
        out := out + events;
        lastSeq := ForwardAll(events, lastSeq);
      } else {
        RefusedBringsNothing(sessionId, lastSeq);
      }
    }
    assert cs[|cs|..] == [];
    RunEnds(sessionId, lastSeq);
  }

  lemma RunEnds(sessionId: string, after: int)
    ensures AllReceived(sessionId, after, []) == [] && LastSeen(sessionId, after, []) == after
  {
  }

  /** One connection, from the server's polls to the client's events. */
  method Connect(sessionId: string, after: int, c: Connection) returns (events: seq<Event>)
    requires c.Streamed?
    ensures events == Received(sessionId, after, c)
  {
    hide Polled, Frames, Read;
    var text := StreamSession(sessionId, after, c.polls);
    var n := if c.cut < |text| then c.cut else |text|;
    events := StreamEvents(text[..n], c.closed);
  }

  /** forwardEvents raises the last number seen by each event. */
  method ForwardAll(events: seq<Event>, after: int) returns (lastSeq: int)
    ensures lastSeq == Advanced(after, events)
  {
    lastSeq := after;
    assert events[0..] == events;
    for i := 0 to |events|
      invariant Advanced(lastSeq, events[i..]) == Advanced(after, events)
    {
      assert events[i..][1..] == events[i + 1..];
      if events[i].seqNo > lastSeq {
        lastSeq := events[i].seqNo;
      }
    }
    assert events[|events|..] == [];
  }

  // -------- exactly once --------

  /** No connection was closed by the server inside a payload. */
  ghost predicate NeverClosedInsidePayload(sessionId: string, after: int, cs: seq<Connection>)
    decreases |cs|
  {
    cs == [] ||
    (var c := cs[0];
     && (c.Streamed? && c.closed ==>
           var es := Polled(sessionId, after, c.polls);
           ClosedOutsidePayload(es, if c.cut < |Frames(es)| then c.cut else |Frames(es)|))
     && NeverClosedInsidePayload(sessionId, Advanced(after, Received(sessionId, after, c)), cs[1..]))
  }

  lemma {:induction false} AdvancedIsLatest(after: int, events: seq<Event>)
    requires Rising(events, after)
    ensures Advanced(after, events) == Latest(after, events)
    decreases |events|
  {
    if events != [] {
      AdvancedIsLatest(events[0].seqNo, events[1..]);
    }
  }

  /**
   Over any sequence of connections the streamer gets the session's events once each and in
   order, the rest being what it has yet to ask for - exactly if none was closed inside a payload.
   */
  lemma {:induction false} StreamedExactlyOnce(log: seq<Row>, last: int, sessionId: string, after: int, cs: seq<Connection>)
    requires Ordered(log, last) && SessionPrintable(log, sessionId) && AllEarlier(cs, log)
    ensures EventsAfter(log, sessionId, after)
            == AllReceived(sessionId, after, cs) + EventsAfter(log, sessionId, LastSeen(sessionId, after, cs))
            <==> NeverClosedInsidePayload(sessionId, after, cs)
    decreases |cs|
  {
    hide EventsAfter, Ordered, SessionPrintable, Earlier, Received, Advanced, ClosedOutsidePayload, Polled, Frames;
    if cs == [] {
    } else {
      var got := Received(sessionId, after, cs[0]);
      var next := Advanced(after, got);
      StreamedExactlyOnce(log, last, sessionId, next, cs[1..]);
      OneConnection(log, last, sessionId, after, cs[0]);
      var all := EventsAfter(log, sessionId, after);
      var rest := AllReceived(sessionId, next, cs[1..]);
      var unseen := EventsAfter(log, sessionId, LastSeen(sessionId, next, cs[1..]));
      assert (got + rest) + unseen == got + (rest + unseen);
      if got <= all {
        assert all == got + EventsAfter(log, sessionId, next);
        SamePrefix(got, EventsAfter(log, sessionId, next), rest + unseen);
      } else {
        NotPrefix(all, got, rest + unseen);
      }
    }
  }

  lemma SamePrefix(a: seq<Event>, b: seq<Event>, c: seq<Event>)
    ensures a + b == a + c <==> b == c
  {
    assert (a + b)[|a|..] == b && (a + c)[|a|..] == c;
  }

  lemma NotPrefix(all: seq<Event>, a: seq<Event>, b: seq<Event>)
    requires !(a <= all)
    ensures all != a + b
  {
    assert a <= a + b;
  }

  /** One connection brings the next events, and the streamer then asks for those behind them, unless it was closed inside a payload. */
  lemma OneConnection(log: seq<Row>, last: int, sessionId: string, after: int, c: Connection)
    requires Ordered(log, last) && SessionPrintable(log, sessionId) && (c.Streamed? ==> Earlier(c.polls, log))
    ensures var got, all := Received(sessionId, after, c), EventsAfter(log, sessionId, after);
            && (got <= all ==> all == got + EventsAfter(log, sessionId, Advanced(after, got)))
            && (got <= all <==> (c.Streamed? && c.closed ==>
                  var es := Polled(sessionId, after, c.polls);
                  ClosedOutsidePayload(es, if c.cut < |Frames(es)| then c.cut else |Frames(es)|)))
  {
    hide EventsAfter, Ordered, SessionPrintable, Earlier, ClosedOutsidePayload, Polled, Frames, Delivered;
    var got, all := Received(sessionId, after, c), EventsAfter(log, sessionId, after);
    if c.Streamed? {
      var es := Polled(sessionId, after, c.polls);
      var p := if c.cut < |Frames(es)| then c.cut else |Frames(es)|;
      PolledIsPrefix(log, last, sessionId, after, c.polls);
      PolledArePrintable(log, last, sessionId, after, c.polls);
      CutFrames(es, p, c.closed);
      DeliversAPrefix(es, p, c.closed);
      DeliveredIsNoLonger(es, p, c.closed);
    }
    EventsRise(log, last, sessionId, after);
    if got <= all {
      AdvancedIsLatest(after, got);
      Behind(log, last, sessionId, after, got);
    }
  }

  lemma DeliveredIsNoLonger(es: seq<Event>, p: nat, eof: bool)
    ensures |Delivered(es, p, eof)| <= |es|
  {
    hide Whole, Left;
  }
}
