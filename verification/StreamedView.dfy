/** What the terminal shows of a session's log (internal/v2/tui/stream.go). */
module StreamedView {
  import opened Basics
  import EventFrames
  import EventLog
  import opened EventResume
  import opened TuiModel
  import opened DeltaCoalescing

  /** The client's event: the frame's fields, under the session asked for and without a turn. */
  function Shown(sessionId: string, e: EventFrames.Event): Event {
    Event(e.seqNo, sessionId, "", e.typ, e.payload)
  }

  function ShownAll(sessionId: string, es: seq<EventFrames.Event>): (shown: seq<Event>)
    ensures |shown| == |es|
  {
    if es == [] then [] else [Shown(sessionId, es[0])] + ShownAll(sessionId, es[1..])
  }

  lemma {:induction false} ShownConcat(sessionId: string, a: seq<EventFrames.Event>, b: seq<EventFrames.Event>)
    ensures ShownAll(sessionId, a + b) == ShownAll(sessionId, a) + ShownAll(sessionId, b)
  {
    if a == [] {
      assert a + b == b;
    } else {
      assert (a + b)[1..] == a[1..] + b;
      ShownConcat(sessionId, a[1..], b);
    }
  }

  /** For each connection the events it brings, with the timer firing anywhere in between. */
  ghost predicate Scheduled(sessionId: string, after: int, cs: seq<Connection>, schedules: seq<seq<Input>>)
    decreases |cs|
  {
    if cs == [] then schedules == []
    else
      var got := Received(sessionId, after, cs[0]);
      && schedules != [] && EventsIn(schedules[0]) == ShownAll(sessionId, got)
      && Scheduled(sessionId, Advanced(after, got), cs[1..], schedules[1..])
  }

  /** What the terminal is sent: each connection's events are merged on their own. */
  function Sent(codec: Payloads, schedules: seq<seq<Input>>): seq<Event> {
    if schedules == [] then [] else Forwarded(codec, None, schedules[0]) + Sent(codec, schedules[1..])
  }

  /** Merging on each connection is invisible over all of them. */
  lemma {:induction false} ShowsWhatWasStreamed(codec: Payloads, v: View, sessionId: string, after: int, cs: seq<Connection>, schedules: seq<seq<Input>>)
    requires codec.Lawful() && Scheduled(sessionId, after, cs, schedules)
    ensures ApplyAll(codec, v, Sent(codec, schedules)) == ApplyAll(codec, v, ShownAll(sessionId, AllReceived(sessionId, after, cs)))
    decreases |cs|
  {
    hide ApplyAll, Forwarded, EventsIn, Received, Advanced, Payloads.Lawful, ShownAll;
    if cs == [] {
      NothingShown(sessionId);
    } else {
      var got := Received(sessionId, after, cs[0]);
      var next := Advanced(after, got);
      var head, rest := Forwarded(codec, None, schedules[0]), AllReceived(sessionId, next, cs[1..]);
      CoalescingIsInvisible(codec, v, schedules[0]);
      ApplyConcat(codec, v, head, Sent(codec, schedules[1..]));
      ShowsWhatWasStreamed(codec, ApplyAll(codec, v, head), sessionId, next, cs[1..], schedules[1..]);
      ShownConcat(sessionId, got, rest);
      ApplyConcat(codec, v, ShownAll(sessionId, got), ShownAll(sessionId, rest));
    }
  }

  lemma NothingShown(sessionId: string)
    ensures ShownAll(sessionId, []) == []
  {
  }

  /**
   However often the connection breaks and whenever the timer fires, the terminal shows what the
   session's events up to the last number seen would have shown one by one - unless a
   connection was closed inside a payload.
   */
  lemma TerminalShowsTheLog(codec: Payloads, v: View, log: seq<EventLog.Row>, last: int, sessionId: string, after: int,
      cs: seq<Connection>, schedules: seq<seq<Input>>)
    requires codec.Lawful() && Scheduled(sessionId, after, cs, schedules)
    requires EventLog.Ordered(log, last) && SessionPrintable(log, sessionId) && AllEarlier(cs, log)
    requires NeverClosedInsidePayload(sessionId, after, cs)
    ensures var all, unseen := EventLog.EventsAfter(log, sessionId, after), EventLog.EventsAfter(log, sessionId, LastSeen(sessionId, after, cs));
            && |unseen| <= |all|
            && all[|all| - |unseen|..] == unseen
            && ApplyAll(codec, v, Sent(codec, schedules)) == ApplyAll(codec, v, ShownAll(sessionId, all[..|all| - |unseen|]))
  {
    hide *;
    StreamedExactlyOnce(log, last, sessionId, after, cs);
    ShowsWhatWasStreamed(codec, v, sessionId, after, cs, schedules);
    var read := AllReceived(sessionId, after, cs);
    var all, unseen := EventLog.EventsAfter(log, sessionId, after), EventLog.EventsAfter(log, sessionId, LastSeen(sessionId, after, cs));
    assert (read + unseen)[..|read|] == read && (read + unseen)[|read|..] == unseen;
  }
}
