/** Text deltas merged under any timer schedule (internal/v2/tui/stream.go). */
module DeltaCoalescing {
  import opened Basics
  import opened TuiModel

  /** What forwardEvents waits for: the batch timer, which may fire at any moment, or an event. */
  datatype Input = Tick | Arrived(event: Event)

  datatype Buffer = Buffer(event: Event, text: string)

  function EventsIn(inputs: seq<Input>): seq<Event>
    decreases |inputs|
  {
    if inputs == [] then []
    else (if inputs[0].Tick? then [] else [inputs[0].event]) + EventsIn(inputs[1..])
  }

  /** The event sent for a buffer. */
  function Flushed(codec: Payloads, buffer: Option<Buffer>): seq<Event> {
    if buffer.None? then [] else [buffer.value.event.(payload := codec.encodeDelta(buffer.value.text))]
  }

  function DeltaText(codec: Payloads, event: Event): Option<string> {
    if IsDelta(event.typ) then codec.decodeDelta(event.payload) else None
  }

  predicate SameTurn(a: Event, b: Event) {
    a.sessionId == b.sessionId && a.turnId == b.turnId
  }

  /** What is sent for one input, and the buffer behind it. */
  function Step(codec: Payloads, buffer: Option<Buffer>, input: Input): (seq<Event>, Option<Buffer>) {
    if input.Tick? then (Flushed(codec, buffer), None)
    else
      var event := input.event;
      var text := DeltaText(codec, event);
      if text.None? then (Flushed(codec, buffer) + [event], None)
      else if buffer.None? then ([], Some(Buffer(event, text.value)))
      else if SameTurn(buffer.value.event, event) then ([], Some(Buffer(event, buffer.value.text + text.value)))
      else (Flushed(codec, buffer), Some(Buffer(event, text.value)))
  }

  /** Everything sent until the events end. */
  function Forwarded(codec: Payloads, buffer: Option<Buffer>, inputs: seq<Input>): seq<Event>
    decreases |inputs|
  {
    if inputs == [] then Flushed(codec, buffer)
    else
      var s := Step(codec, buffer, inputs[0]);
      s.0 + Forwarded(codec, s.1, inputs[1..])
  }

  method HandleInput(codec: Payloads, out: seq<Event>, buffer: Option<Buffer>, input: Input)
    returns (out': seq<Event>, buffer': Option<Buffer>)
    ensures out' == out + Step(codec, buffer, input).0 && buffer' == Step(codec, buffer, input).1
  {
    hide IsDelta, Flushed;
    match input
    case Tick =>
      return out + Flushed(codec, buffer), None;
    case Arrived(event) =>
      var text := DeltaText(codec, event);
      if text.None? {
        out' := out + Flushed(codec, buffer);
        out' := out' + [event];
        buffer' := None;
      } else if buffer.None? {
        return out, Some(Buffer(event, text.value));
      } else if SameTurn(buffer.value.event, event) {
        return out, Some(Buffer(event, buffer.value.text + text.value));
      } else {
        return out + Flushed(codec, buffer), Some(Buffer(event, text.value));
      }
  }

  method ForwardEvents(codec: Payloads, inputs: seq<Input>, afterSeq: int) returns (out: seq<Event>, lastSeq: int)
    ensures out == Forwarded(codec, None, inputs)
    ensures lastSeq == MaxSeq(afterSeq, EventsIn(inputs))
  {
    hide Step, Flushed;
    out, lastSeq := [], afterSeq;
    var buffer: Option<Buffer> := None;
    assert inputs[0..] == inputs;
    for i := 0 to |inputs|
      invariant out + Forwarded(codec, buffer, inputs[i..]) == Forwarded(codec, None, inputs)
      invariant MaxSeq(lastSeq, EventsIn(inputs[i..])) == MaxSeq(afterSeq, EventsIn(inputs))
    {
      NextInput(codec, buffer, inputs, i, lastSeq);
      if inputs[i].Arrived? && inputs[i].event.seqNo > lastSeq {
        lastSeq := inputs[i].event.seqNo;
      }
      out, buffer := HandleInput(codec, out, buffer, inputs[i]);
    }
    assert inputs[|inputs|..] == [];
    out := out + Flushed(codec, buffer);
  }

  lemma NextInput(codec: Payloads, buffer: Option<Buffer>, inputs: seq<Input>, i: nat, last: int)
    requires i < |inputs|
    ensures var s := Step(codec, buffer, inputs[i]);
            Forwarded(codec, buffer, inputs[i..]) == s.0 + Forwarded(codec, s.1, inputs[i + 1..])
    ensures MaxSeq(last, EventsIn(inputs[i..]))
            == MaxSeq(if inputs[i].Arrived? && inputs[i].event.seqNo > last then inputs[i].event.seqNo else last, EventsIn(inputs[i + 1..]))
  {
    hide Step;
    assert inputs[i..][1..] == inputs[i + 1..];
    var rest := EventsIn(inputs[i + 1..]);
    if inputs[i].Arrived? {
      assert ([inputs[i].event] + rest)[1..] == rest;
    } else {
      assert [] + rest == rest;
    }
  }

  // -------- the view is the same --------

  lemma {:induction false} ApplyConcat(codec: Payloads, v: View, a: seq<Event>, b: seq<Event>)
    ensures ApplyAll(codec, v, a + b) == ApplyAll(codec, ApplyAll(codec, v, a), b)
    decreases |a|
  {
    hide Apply;
    if a == [] {
      assert a + b == b;
    } else {
      assert (a + b)[1..] == a[1..] + b;
      ApplyConcat(codec, Apply(codec, v, a[0]), a[1..], b);
    }
  }

  lemma ApplyOne(codec: Payloads, v: View, e: Event)
    ensures ApplyAll(codec, v, [e]) == Apply(codec, v, e)
  {
    hide Apply;
    assert [e][1..] == [];
  }

  /** Two deltas leave the entries that their joined text leaves. */
  lemma DeltasJoin(entries: seq<Entry>, a: string, b: string)
    ensures AppendDelta(AppendDelta(entries, a), b) == AppendDelta(entries, a + b)
  {
    hide Text.Decimal;
    if a == "" {
      assert a + b == b;
    } else if b == "" {
      assert a + b == a;
    } else if LastStreams(entries) {
      var body := entries[|entries| - 1].body;
      assert (body + a) + b == body + (a + b);
    }
  }

  lemma ApplyDelta(codec: Payloads, v: View, e: Event, text: string)
    requires IsDelta(e.typ) && codec.decodeDelta(e.payload) == Some(text)
    ensures Apply(codec, v, e) == v.(entries := AppendDelta(v.entries, text))
  {
    hide AppendDelta;
  }

  /** A buffer always holds a delta. */
  ghost predicate HoldsDelta(buffer: Option<Buffer>) {
    buffer.Some? ==> IsDelta(buffer.value.event.typ)
  }

  /** What a step sends and keeps back together does what the buffer and the input would have done. */
  lemma StepKeepsView(codec: Payloads, v: View, buffer: Option<Buffer>, input: Input)
    requires codec.Lawful() && HoldsDelta(buffer)
    ensures var s := Step(codec, buffer, input);
            && HoldsDelta(s.1)
            && ApplyAll(codec, v, s.0 + Flushed(codec, s.1)) == ApplyAll(codec, v, Flushed(codec, buffer) + EventsIn([input]))
  {
    hide Apply, AppendDelta, IsDelta;
    var s := Step(codec, buffer, input);
    assert [input][1..] == [];
    var sent := Flushed(codec, buffer);
    if input.Tick? {
      assert s.0 + Flushed(codec, s.1) == sent + EventsIn([input]);
    } else {
      var event := input.event;
      assert EventsIn([input]) == [event];
      var text := DeltaText(codec, event);
      if text.None? {
        assert s.0 + Flushed(codec, s.1) == sent + [event];
      } else {
        var again := event.(payload := codec.encodeDelta(text.value));
        if buffer.Some? && SameTurn(buffer.value.event, event) {
          MergedDelta(codec, v, buffer.value, event, text.value);
          assert s.0 + Flushed(codec, s.1) == Flushed(codec, s.1);
        } else {
          var v' := ApplyAll(codec, v, sent);
          assert s.0 + Flushed(codec, s.1) == sent + [again];
          ApplyConcat(codec, v, sent, [again]);
          ApplyConcat(codec, v, sent, [event]);
          ApplyOne(codec, v', again);
          ApplyOne(codec, v', event);
          ApplyDelta(codec, v', again, text.value);
          ApplyDelta(codec, v', event, text.value);
        }
      }
    }
  }

  lemma MergedDelta(codec: Payloads, v: View, buffer: Buffer, event: Event, text: string)
    requires codec.Lawful() && IsDelta(buffer.event.typ) && DeltaText(codec, event) == Some(text)
    ensures ApplyAll(codec, v, Flushed(codec, Some(Buffer(event, buffer.text + text))))
            == ApplyAll(codec, v, Flushed(codec, Some(buffer)) + [event])
  {
    hide Apply, AppendDelta, ApplyAll;
    var first := buffer.event.(payload := codec.encodeDelta(buffer.text));
    var joined := event.(payload := codec.encodeDelta(buffer.text + text));
    ApplyOne(codec, v, joined);
    ApplyDelta(codec, v, joined, buffer.text + text);
    ApplyConcat(codec, v, [first], [event]);
    ApplyOne(codec, v, first);
    var v' := Apply(codec, v, first);
    ApplyOne(codec, v', event);
    ApplyDelta(codec, v, first, buffer.text);
    ApplyDelta(codec, v', event, text);
    DeltasJoin(v.entries, buffer.text, text);
  }

  lemma {:induction false} ForwardedKeepsView(codec: Payloads, v: View, buffer: Option<Buffer>, inputs: seq<Input>)
    requires codec.Lawful() && HoldsDelta(buffer)
    ensures ApplyAll(codec, v, Forwarded(codec, buffer, inputs)) == ApplyAll(codec, v, Flushed(codec, buffer) + EventsIn(inputs))
    decreases |inputs|
  {
    hide Apply, Step, Flushed, ApplyAll, Payloads.Lawful, HoldsDelta;
    if inputs == [] {
      assert Flushed(codec, buffer) + EventsIn(inputs) == Flushed(codec, buffer);
    } else {
      var s := Step(codec, buffer, inputs[0]);
      var rest := inputs[1..];
      var one := EventsIn([inputs[0]]);
      StepKeepsView(codec, v, buffer, inputs[0]);
      ApplyConcat(codec, v, s.0, Forwarded(codec, s.1, rest));
      ForwardedKeepsView(codec, ApplyAll(codec, v, s.0), s.1, rest);
      ApplyConcat(codec, v, s.0, Flushed(codec, s.1) + EventsIn(rest));
      assert s.0 + (Flushed(codec, s.1) + EventsIn(rest)) == (s.0 + Flushed(codec, s.1)) + EventsIn(rest);
      ApplyConcat(codec, v, s.0 + Flushed(codec, s.1), EventsIn(rest));
      ApplyConcat(codec, v, Flushed(codec, buffer) + one, EventsIn(rest));
      assert [inputs[0]][1..] == [];
      assert (Flushed(codec, buffer) + one) + EventsIn(rest) == Flushed(codec, buffer) + EventsIn(inputs);
    }
  }

  /** Whenever the timer fires, the client ends up showing what the events one by one would have shown. */
  lemma CoalescingIsInvisible(codec: Payloads, v: View, inputs: seq<Input>)
    requires codec.Lawful()
    ensures ApplyAll(codec, v, Forwarded(codec, None, inputs)) == ApplyAll(codec, v, EventsIn(inputs))
  {
    hide Apply, Step, ApplyAll, Forwarded, EventsIn, Payloads.Lawful;
    ForwardedKeepsView(codec, v, None, inputs);
    assert [] + EventsIn(inputs) == EventsIn(inputs);
  }

  // -------- the last sequence number --------

  lemma {:induction false} MaxConcat(last: int, a: seq<Event>, b: seq<Event>)
    ensures MaxSeq(last, a + b) == MaxSeq(MaxSeq(last, a), b)
    ensures MaxSeq(last, a) >= last
    decreases |a|
  {
    if a == [] {
      assert a + b == b;
    } else {
      assert (a + b)[1..] == a[1..] + b;
      MaxConcat(if a[0].seqNo > last then a[0].seqNo else last, a[1..], b);
    }
  }

  ghost predicate Ascending(events: seq<Event>) {
    forall i, j :: 0 <= i < j < |events| ==> events[i].seqNo <= events[j].seqNo
  }

  lemma MaxOfOne(last: int, e: Event)
    ensures MaxSeq(last, [e]) == if e.seqNo > last then e.seqNo else last
  {
    assert [e][1..] == [];
  }

  lemma StepKeepsLast(codec: Payloads, last: int, buffer: Option<Buffer>, input: Input)
    ensures var s := Step(codec, buffer, input);
            var sent, raw := MaxSeq(last, s.0 + Flushed(codec, s.1)), MaxSeq(last, Flushed(codec, buffer) + EventsIn([input]));
            sent <= raw && (buffer.None? || input.Tick? || buffer.value.event.seqNo <= input.event.seqNo ==> sent == raw)
  {
    hide DeltaText;
    var s := Step(codec, buffer, input);
    assert [input][1..] == [];
    var sent := Flushed(codec, buffer);
    if input.Tick? {
      assert s.0 + Flushed(codec, s.1) == sent + EventsIn([input]);
    } else {
      var event := input.event;
      assert EventsIn([input]) == [event];
      MaxConcat(last, sent, [event]);
      MaxOfOne(MaxSeq(last, sent), event);
      if buffer.Some? {
        MaxOfOne(last, sent[0]);
      }
      MaxConcat(last, s.0, Flushed(codec, s.1));
      if s.1.Some? {
        MaxOfOne(MaxSeq(last, s.0), Flushed(codec, s.1)[0]);
      } else {
        assert s.0 + [] == s.0;
      }
    }
  }

  lemma {:induction false} ForwardedKeepsLast(codec: Payloads, last: int, buffer: Option<Buffer>, inputs: seq<Input>)
    requires Ascending(Flushed(codec, buffer) + EventsIn(inputs))
    ensures MaxSeq(last, Forwarded(codec, buffer, inputs)) == MaxSeq(last, Flushed(codec, buffer) + EventsIn(inputs))
    decreases |inputs|
  {
    hide DeltaText, MaxSeq;
    if inputs == [] {
      assert Flushed(codec, buffer) + EventsIn(inputs) == Flushed(codec, buffer);
    } else {
      var s := Step(codec, buffer, inputs[0]);
      var rest := inputs[1..];
      StepKeepsAscending(codec, buffer, inputs);
      hide Step, Flushed, Ascending;
      var one := EventsIn([inputs[0]]);
      assert [inputs[0]][1..] == [];
      StepKeepsLast(codec, last, buffer, inputs[0]);
      MaxConcat(last, s.0, Forwarded(codec, s.1, rest));
      ForwardedKeepsLast(codec, MaxSeq(last, s.0), s.1, rest);
      MaxConcat(last, s.0, Flushed(codec, s.1) + EventsIn(rest));
      assert s.0 + (Flushed(codec, s.1) + EventsIn(rest)) == (s.0 + Flushed(codec, s.1)) + EventsIn(rest);
      MaxConcat(last, s.0 + Flushed(codec, s.1), EventsIn(rest));
      MaxConcat(last, Flushed(codec, buffer) + one, EventsIn(rest));
      assert (Flushed(codec, buffer) + one) + EventsIn(rest) == Flushed(codec, buffer) + EventsIn(inputs);
    }
  }

  lemma StepKeepsAscending(codec: Payloads, buffer: Option<Buffer>, inputs: seq<Input>)
    requires inputs != [] && Ascending(Flushed(codec, buffer) + EventsIn(inputs))
    ensures var s := Step(codec, buffer, inputs[0]);
            && Ascending(Flushed(codec, s.1) + EventsIn(inputs[1..]))
            && (buffer.None? || inputs[0].Tick? || buffer.value.event.seqNo <= inputs[0].event.seqNo)
  {
    hide DeltaText, Ascending;
    var s := Step(codec, buffer, inputs[0]);
    var rest := EventsIn(inputs[1..]);
    var before := Flushed(codec, buffer);
    if inputs[0].Tick? {
      assert [] + rest == rest;
      AscendingTail(before, rest);
    } else {
      var event := inputs[0].event;
      assert before + EventsIn(inputs) == before + ([event] + rest);
      AscendingTail(before, [event] + rest);
      if buffer.Some? {
        AscendingHead(before[0], event, rest);
        assert before + ([event] + rest) == [before[0]] + [event] + rest;
      }
      if s.1.Some? {
        AscendingReplace(event, Flushed(codec, s.1)[0], rest);
      } else {
        AscendingTail([event], rest);
        assert Flushed(codec, s.1) + rest == rest;
      }
    }
  }

  lemma AscendingTail(a: seq<Event>, b: seq<Event>)
    requires Ascending(a + b)
    ensures Ascending(b)
  {
    assert forall i :: 0 <= i < |b| ==> b[i] == (a + b)[|a| + i];
  }

  lemma AscendingHead(first: Event, second: Event, rest: seq<Event>)
    ensures Ascending([first] + [second] + rest) ==> first.seqNo <= second.seqNo
  {
    var all := [first] + [second] + rest;
    assert all[0] == first && all[1] == second;
  }

  lemma AscendingReplace(was: Event, now: Event, rest: seq<Event>)
    requires Ascending([was] + rest) && was.seqNo == now.seqNo
    ensures Ascending([now] + rest)
  {
    var a, b := [was] + rest, [now] + rest;
    assert forall i :: 0 <= i < |a| ==> a[i].seqNo == b[i].seqNo;
  }

  /** Numbers that do not fall leave the client with the same last one, too. */
  lemma LastSeqIsKept(codec: Payloads, last: int, inputs: seq<Input>)
    requires Ascending(EventsIn(inputs))
    ensures MaxSeq(last, Forwarded(codec, None, inputs)) == MaxSeq(last, EventsIn(inputs))
  {
    hide EventsIn, Forwarded, MaxSeq;
    assert [] + EventsIn(inputs) == EventsIn(inputs);
    ForwardedKeepsLast(codec, last, None, inputs);
  }

  // -------- exactly when --------

  /** The next input is a delta of the same turn, which takes the event's place in the buffer. */
  predicate Overwritten(codec: Payloads, event: Event, rest: seq<Input>) {
    && DeltaText(codec, event).Some?
    && rest != [] && rest[0].Arrived? && DeltaText(codec, rest[0].event).Some? && SameTurn(event, rest[0].event)
  }

  /** The events that are not overwritten. */
  function Surviving(codec: Payloads, inputs: seq<Input>): seq<Event>
    decreases |inputs|
  {
    if inputs == [] then []
    else (if inputs[0].Arrived? && !Overwritten(codec, inputs[0].event, inputs[1..]) then [inputs[0].event] else [])
         + Surviving(codec, inputs[1..])
  }

  function Numbers(events: seq<Event>): (numbers: seq<int>)
    ensures |numbers| == |events| && forall i :: 0 <= i < |events| ==> numbers[i] == events[i].seqNo
  {
    seq(|events|, i requires 0 <= i < |events| => events[i].seqNo)
  }

  lemma NumbersConcat(a: seq<Event>, b: seq<Event>)
    ensures Numbers(a + b) == Numbers(a) + Numbers(b)
  {
  }

  /** A buffered delta counts as the event it came from, right before the inputs. */
  function Waiting(buffer: Option<Buffer>): seq<Input> {
    if buffer.None? then [] else [Arrived(buffer.value.event)]
  }

  lemma FirstSurvives(codec: Payloads, first: Input, rest: seq<Input>)
    ensures Surviving(codec, [first] + rest)
            == (if first.Arrived? && !Overwritten(codec, first.event, rest) then [first.event] else []) + Surviving(codec, rest)
  {
    assert ([first] + rest)[1..] == rest;
  }

  lemma WaitingSurvives(codec: Payloads, buffer: Option<Buffer>, inputs: seq<Input>)
    ensures Numbers(Surviving(codec, Waiting(buffer) + inputs))
            == (if buffer.Some? && !Overwritten(codec, buffer.value.event, inputs) then [buffer.value.event.seqNo] else [])
               + Numbers(Surviving(codec, inputs))
  {
    hide Surviving, Overwritten;
    if buffer.None? {
      assert Waiting(buffer) + inputs == inputs;
    } else {
      FirstSurvives(codec, Arrived(buffer.value.event), inputs);
    }
  }

  /** What survives of the buffer and the inputs is what a step sends, and what survives behind it. */
  lemma StepSurvives(codec: Payloads, buffer: Option<Buffer>, inputs: seq<Input>)
    requires inputs != [] && (buffer.Some? ==> DeltaText(codec, buffer.value.event).Some?)
    ensures var s := Step(codec, buffer, inputs[0]);
            && (s.1.Some? ==> DeltaText(codec, s.1.value.event).Some?)
            && Numbers(s.0) + Numbers(Surviving(codec, Waiting(s.1) + inputs[1..])) == Numbers(Surviving(codec, Waiting(buffer) + inputs))
  {
    hide DeltaText, SameTurn, Surviving;
    var input, rest := inputs[0], inputs[1..];
    assert inputs == [input] + rest && Waiting(None) + rest == rest;
    WaitingSurvives(codec, buffer, inputs);
    FirstSurvives(codec, input, rest);
    if input.Arrived? && DeltaText(codec, input.event).Some? {
      assert [Arrived(input.event)] + rest == inputs;
    }
  }

  /** What is sent carries the numbers of the events that are not overwritten, in order. */
  lemma {:induction false} SentAreSurviving(codec: Payloads, buffer: Option<Buffer>, inputs: seq<Input>)
    requires buffer.Some? ==> DeltaText(codec, buffer.value.event).Some?
    ensures Numbers(Forwarded(codec, buffer, inputs)) == Numbers(Surviving(codec, Waiting(buffer) + inputs))
    decreases |inputs|
  {
    hide DeltaText, Step, Overwritten;
    if inputs == [] {
      FlushedSurvives(codec, buffer);
    } else {
      var s := Step(codec, buffer, inputs[0]);
      StepSurvives(codec, buffer, inputs);
      SentAreSurviving(codec, s.1, inputs[1..]);
      NumbersConcat(s.0, Forwarded(codec, s.1, inputs[1..]));
    }
  }

  lemma FlushedSurvives(codec: Payloads, buffer: Option<Buffer>)
    ensures Numbers(Flushed(codec, buffer)) == Numbers(Surviving(codec, Waiting(buffer) + []))
  {
    assert Waiting(buffer) + [] == Waiting(buffer);
    assert buffer.Some? ==> Waiting(buffer)[1..] == [];
  }

  lemma {:induction false} MaxIsGreatest(last: int, events: seq<Event>)
    ensures var m := MaxSeq(last, events);
            && last <= m && (forall i :: 0 <= i < |events| ==> events[i].seqNo <= m)
            && (m == last || exists i :: 0 <= i < |events| && events[i].seqNo == m)
    decreases |events|
  {
    if events != [] {
      var next, rest := if events[0].seqNo > last then events[0].seqNo else last, events[1..];
      MaxIsGreatest(next, rest);
      assert forall i :: 0 < i < |events| ==> events[i] == rest[i - 1];
      var m := MaxSeq(next, rest);
      if m != last && m != events[0].seqNo {
        var i :| 0 <= i < |rest| && rest[i].seqNo == m;
        assert events[i + 1].seqNo == m;
      }
    }
  }

  lemma {:induction false} SurvivingArrived(codec: Payloads, inputs: seq<Input>)
    ensures forall e :: e in Surviving(codec, inputs) ==> e in EventsIn(inputs)
    decreases |inputs|
  {
    hide Overwritten;
    if inputs != [] {
      SurvivingArrived(codec, inputs[1..]);
    }
  }

  /**
   For all numbers: the client is left with the same last one exactly if it was the last one before,
   or one of the events that carry it is not overwritten by a delta of its turn right behind it.
   */
  lemma LastSeqIsKeptExactlyWhen(codec: Payloads, last: int, inputs: seq<Input>)
    ensures var m := MaxSeq(last, EventsIn(inputs));
            MaxSeq(last, Forwarded(codec, None, inputs)) == m
            <==> m == last || exists i :: 0 <= i < |Surviving(codec, inputs)| && Surviving(codec, inputs)[i].seqNo == m
  {
    hide EventsIn, Forwarded, Surviving, MaxSeq;
    assert Waiting(None) + inputs == inputs;
    SentAreSurviving(codec, None, inputs);
    SurvivingArrived(codec, inputs);
    var sent, left, m := Forwarded(codec, None, inputs), Surviving(codec, inputs), MaxSeq(last, EventsIn(inputs));
    MaxIsGreatest(last, EventsIn(inputs));
    MaxIsGreatest(last, sent);
    assert Numbers(sent) == Numbers(left);
    forall i | 0 <= i < |sent| ensures |left| == |sent| && sent[i].seqNo == left[i].seqNo <= m {
      assert Numbers(sent)[i] == Numbers(left)[i];
      assert left[i] in EventsIn(inputs);
    }
    assert |left| == |Numbers(left)| == |sent|;
  }

  /** With numbers that fall it does not: two merged deltas keep only the second's number. */
  lemma FallingNumberIsLost(codec: Payloads, last: int, a: Event, b: Event)
    requires DeltaText(codec, a).Some? && DeltaText(codec, b).Some? && SameTurn(a, b)
    requires b.seqNo < a.seqNo && last < a.seqNo
    ensures var inputs := [Arrived(a), Arrived(b)];
            MaxSeq(last, Forwarded(codec, None, inputs)) < MaxSeq(last, EventsIn(inputs)) == a.seqNo
  {
    hide DeltaText;
    var inputs := [Arrived(a), Arrived(b)];
    var one := Some(Buffer(a, DeltaText(codec, a).value));
    var both := Some(Buffer(b, DeltaText(codec, a).value + DeltaText(codec, b).value));
    assert inputs[1..] == [Arrived(b)] && inputs[1..][1..] == [];
    assert Step(codec, None, Arrived(a)) == ([], one);
    assert Step(codec, one, Arrived(b)) == ([], both) by {
      assert one.value.event == a && SameTurn(one.value.event, b);
    }
    assert Forwarded(codec, both, []) == Flushed(codec, both);
    assert Forwarded(codec, one, [Arrived(b)]) == [] + Flushed(codec, both);
    assert Forwarded(codec, None, inputs) == [] + ([] + Flushed(codec, both));
    assert Forwarded(codec, None, inputs) == Flushed(codec, both);
    MaxOfOne(last, Flushed(codec, both)[0]);
    assert EventsIn([Arrived(b)]) == [b] by { assert [Arrived(b)][1..] == []; }
    assert EventsIn(inputs) == [a] + EventsIn(inputs[1..]);
    MaxConcat(last, [a], [b]);
    MaxOfOne(last, a);
    MaxOfOne(a.seqNo, b);
  }
}
