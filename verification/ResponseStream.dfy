/** All that a response sends (internal/model/provider_openai_compatible.go). */
module ResponseStream {
  import opened Basics
  import opened Text
  import opened ToolArguments
  import opened ToolCallTracker
  import opened ToolCallAssembly
  import opened ToolCallRepeats

  // -------- what one frame has sent --------

  /** The call id and the name under which a piece of an item's arguments is passed on. */
  function Under(json: Json, before: seq<Frame>, f: Frame): Meta
    requires f.ArgumentsDelta?
  {
    var meta := if f.itemId == "" then NO_META else MetaOf(Since(json, before, f.itemId) + [f], f.itemId);
    Meta(if meta.callId == "" then f.itemId else meta.callId, if f.name == "" then meta.name else f.name)
  }

  /** A text, or a piece of arguments under its item's call, and the call if that ends its item early. */
  function SentBy(json: Json, before: seq<Frame>, f: Frame): seq<Sent> {
    match f
    case TextArrived(delta, text) => if delta != "" then [SentText(delta)] else if text != "" then [SentText(text)] else []
    case ArgumentsDelta(_, _, delta) =>
      var under := Under(json, before, f);
      [SentDelta(under.callId, under.name, delta)] + if Ends(json, before, f) then [EarlyCall(json, before, f).call] else []
    case _ => []
  }

  /** What is sent for frames before the completion. */
  function SentFor(json: Json, frames: seq<Frame>): seq<Sent> {
    if frames == [] then []
    else SentFor(json, frames[..|frames| - 1]) + SentBy(json, frames[..|frames| - 1], frames[|frames| - 1])
  }

  lemma NoEmptyItem(json: Json, t: State, frames: seq<Frame>)
    requires Tracks(json, t, frames)
    ensures "" !in t.calls
  {
    hide FirstSeen, Todo, Tracked;
    SeenAreItems(frames);
  }

  lemma NoCallBelow(json: Json, frames: seq<Frame>, f: Frame)
    requires !f.ArgumentsDelta?
    ensures !Ends(json, frames, f)
  {
  }

  lemma HeldMeta(json: Json, t: State, frames: seq<Frame>, f: Frame)
    requires Tracks(json, t, frames) && f.ArgumentsDelta?
    ensures var who := Resolved(Announced(t, f), f.itemId, f.name); Meta(who.0, who.1) == Under(json, frames, f)
  {
    hide Tracked, Ordered, Since, MetaOf, FirstSeen, Renamed;
    NoEmptyItem(json, t, frames);
    AllTracked(json, t, frames, f);
    if f.itemId != "" {
      MetaIsHeld(Extended1(t, f), Since(json, frames, f.itemId) + [f], f.itemId);
    }
  }

  lemma MetaIsHeld(t: State, s: seq<Frame>, id: string)
    requires Tracked(t, s, id)
    ensures Found(t.calls, id, NO_META) == MetaOf(s, id)
  {
    if id !in t.calls {
      UnseenHasNoMeta(s, id);
    }
  }

  lemma StepSends(json: Json, t: State, frames: seq<Frame>, f: Frame)
    requires Tracks(json, t, frames) && !f.Completed? && !f.Undecodable?
    ensures Handled(json, t, f).1 == SentBy(json, frames, f)
  {
    hide Tracks, Ends, EarlyCall, Under, Announced, Extended1, AllFinalized;
    if f.ArgumentsDelta? {
      HeldMeta(json, t, frames, f);
      DeltaSends(json, t, frames, f);
    }
  }

  lemma DeltaSends(json: Json, t: State, frames: seq<Frame>, f: Frame)
    requires Tracks(json, t, frames) && f.ArgumentsDelta?
    ensures var who := Resolved(Announced(t, f), f.itemId, f.name);
            Handled(json, t, f).1
            == [SentDelta(who.0, who.1, f.delta)] + if Ends(json, frames, f) then [EarlyCall(json, frames, f).call] else []
  {
    hide Tracked, Ordered, Since, CallFor, AllFinalized, Renamed, Finalized, EndsEarly, MetaOf;
    var s := Since(json, frames, f.itemId);
    AllTracked(json, t, frames, f);
    if f.itemId != "" {
      EarlyFinalize(json, Extended1(t, f), s, f);
    } else {
      EndsIsDelta(json, frames, f);
    }
    if EndsEarly(json, s, f) {
      EarlyIsDelta(json, s, f);
    }
  }

  lemma {:induction false} RunSends(json: Json, t: State, before: seq<Frame>, frames: seq<Frame>)
    requires Tracks(json, t, before) && StillOpen(frames)
    ensures SentFor(json, before + frames) == SentFor(json, before) + Ran(json, t, frames).1
    decreases |frames|
  {
    hide Tracks, Handled, SentBy, Ends;
    if frames == [] {
      assert before + frames == before && SentFor(json, before) + [] == SentFor(json, before);
    } else {
      var f := frames[0];
      StepTracks(json, t, before, f);
      StepSends(json, t, before, f);
      var r := Handled(json, t, f);
      assert (before + [f]) + frames[1..] == before + frames && (before + [f])[..|before|] == before;
      RunSends(json, r.0, before + [f], frames[1..]);
      RanFirst(json, t, frames);
      var rest := Ran(json, r.0, frames[1..]).1;
      assert (SentFor(json, before) + r.1) + rest == SentFor(json, before) + (r.1 + rest);
    }
  }

  // -------- all that is sent, however the response ends --------

  /** What frames that neither complete the response nor fail have sent comes first. */
  lemma SentFirst(json: Json, frames: seq<Frame>, tail: seq<Frame>, eof: bool)
    requires StillOpen(frames)
    ensures var t, s := Ran(json, EMPTY, frames).0, Streamed(json, Ran(json, EMPTY, frames).0, tail, eof);
            && Tracks(json, t, frames) && Streamed(json, EMPTY, frames + tail, eof) == (SentFor(json, frames) + s.0, s.1)
  {
    hide Tracks, Handled, EarlyCalls, Made, SentBy;
    NothingTracked(json);
    assert [] + frames == frames;
    RunTracks(json, EMPTY, [], frames, tail, eof);
    RunSends(json, EMPTY, [], frames);
    assert SentFor(json, []) + Ran(json, EMPTY, frames).1 == Ran(json, EMPTY, frames).1;
  }

  /**
   A completed response sends exactly this: for each frame its text, or its piece of arguments with the call
   that piece ends early; then the calls of the items still open; and the message's end only if all decode.
   */
  lemma CompletedSends(json: Json, frames: seq<Frame>, tail: seq<Frame>, eof: bool)
    requires StillOpen(frames)
    ensures var s, open := Streamed(json, EMPTY, frames + ([Completed] + tail), eof), OpenItems(json, frames);
            var calls := Made(EndCalls(json, frames, open));
            s == if AllDecode(json, frames, open) then ((SentFor(json, frames) + calls) + [SentEnd], if eof then None else Some(ReadFailed))
                 else (SentFor(json, frames) + calls, Some(BadCall))
  {
    hide Tracks, HoldsOf, Todo, AllFinalized, OpenItems, EndCalls, AllDecode, Made, SentFor, Ran;
    SentFirst(json, frames, [Completed] + tail, eof);
    var t := Ran(json, EMPTY, frames).0;
    var open := HeldAtEnd(json, t, frames);
    CompletionCalls(json, t, frames, open, t.order);
    assert ([Completed] + tail)[0] == Completed;
    var calls := Made(EndCalls(json, frames, OpenItems(json, frames)));
    assert SentFor(json, frames) + (calls + [SentEnd]) == (SentFor(json, frames) + calls) + [SentEnd];
  }

  /** One that is never completed sends what its frames do, and ends with an error. */
  lemma UncompletedSends(json: Json, frames: seq<Frame>, eof: bool)
    requires StillOpen(frames)
    ensures Streamed(json, EMPTY, frames, eof) == (SentFor(json, frames), if eof then Some(EndedEarly) else Some(ReadFailed))
  {
    hide Tracks, SentFor, Ran;
    SentFirst(json, frames, [], eof);
    assert frames + [] == frames && SentFor(json, frames) + [] == SentFor(json, frames);
  }

  /** One with a frame that cannot be decoded sends what the frames before do. */
  lemma BrokenSends(json: Json, frames: seq<Frame>, tail: seq<Frame>, eof: bool)
    requires StillOpen(frames)
    ensures Streamed(json, EMPTY, frames + ([Undecodable] + tail), eof) == (SentFor(json, frames), Some(BadFrame))
  {
    hide Tracks, SentFor, Ran;
    SentFirst(json, frames, [Undecodable] + tail, eof);
    assert ([Undecodable] + tail)[0] == Undecodable && SentFor(json, frames) + [] == SentFor(json, frames);
  }

  // -------- texts and pieces by themselves --------

  function TextsIn(sent: seq<Sent>): seq<string> {
    if sent == [] then [] else (if sent[0].SentText? then [sent[0].text] else []) + TextsIn(sent[1..])
  }

  function ChunksIn(sent: seq<Sent>): seq<string> {
    if sent == [] then [] else (if sent[0].SentDelta? then [sent[0].chunk] else []) + ChunksIn(sent[1..])
  }

  /** The texts that arrive: the delta, or the text where that is empty; empty ones are none. */
  function TextsOf(frames: seq<Frame>): seq<string> {
    if frames == [] then []
    else
      var f := frames[|frames| - 1];
      TextsOf(frames[..|frames| - 1])
      + if f.TextArrived? && f.delta != "" then [f.delta] else if f.TextArrived? && f.text != "" then [f.text] else []
  }

  function ChunksOf(frames: seq<Frame>): seq<string> {
    if frames == [] then []
    else ChunksOf(frames[..|frames| - 1]) + if frames[|frames| - 1].ArgumentsDelta? then [frames[|frames| - 1].delta] else []
  }

  lemma {:induction false} PiecesConcat(a: seq<Sent>, b: seq<Sent>)
    ensures TextsIn(a + b) == TextsIn(a) + TextsIn(b) && ChunksIn(a + b) == ChunksIn(a) + ChunksIn(b)
  {
    if a == [] {
      assert a + b == b;
    } else {
      assert (a + b)[0] == a[0] && (a + b)[1..] == a[1..] + b;
      PiecesConcat(a[1..], b);
    }
  }

  lemma {:induction false} CallsAreNoPieces(sent: seq<Sent>)
    requires forall i :: 0 <= i < |sent| ==> sent[i].SentCall? || sent[i].SentEnd?
    ensures TextsIn(sent) == [] && ChunksIn(sent) == []
  {
    if sent != [] {
      CallsAreNoPieces(sent[1..]);
    }
  }

  lemma PiecesOfOne(json: Json, before: seq<Frame>, f: Frame)
    ensures var sent := SentBy(json, before, f);
            && TextsIn(sent) == (if f.TextArrived? && f.delta != "" then [f.delta] else if f.TextArrived? && f.text != "" then [f.text] else [])
            && ChunksIn(sent) == (if f.ArgumentsDelta? then [f.delta] else [])
            && forall i :: 0 <= i < |sent| ==> !sent[i].SentEnd?
  {
    hide Under, Ends, Since, CallFor;
    if f.ArgumentsDelta? && Ends(json, before, f) {
      EarlyCallIsCall(json, before, f);
      var under := Under(json, before, f);
      PiecesConcat([SentDelta(under.callId, under.name, f.delta)], [EarlyCall(json, before, f).call]);
      CallsAreNoPieces([EarlyCall(json, before, f).call]);
    }
  }

  lemma EarlyCallIsCall(json: Json, before: seq<Frame>, f: Frame)
    requires Ends(json, before, f)
    ensures EarlyCall(json, before, f).call.SentCall?
  {
    hide Since, DeltasOf, DoneOf, Decoded, MetaOf;
    DataStep(Since(json, before, f.itemId), f, f.itemId);
    CallForIsCall(json, Since(json, before, f.itemId) + [f], f.itemId);
  }

  lemma {:induction false} PiecesOfFrames(json: Json, frames: seq<Frame>)
    ensures var sent := SentFor(json, frames);
            TextsIn(sent) == TextsOf(frames) && ChunksIn(sent) == ChunksOf(frames) && forall i :: 0 <= i < |sent| ==> !sent[i].SentEnd?
  {
    hide SentBy, TextsIn, ChunksIn;
    if frames == [] {
      CallsAreNoPieces([]);
    } else {
      var front, f := frames[..|frames| - 1], frames[|frames| - 1];
      PiecesOfFrames(json, front);
      PiecesOfOne(json, front, f);
      PiecesConcat(SentFor(json, front), SentBy(json, front, f));
    }
  }

  lemma MadeAreCalls(json: Json, frames: seq<Frame>)
    ensures var calls := Made(EndCalls(json, frames, OpenItems(json, frames)));
            forall i :: 0 <= i < |calls| ==> calls[i].SentCall?
  {
    hide *;
    EndCallsAreCalls(json, frames, OpenItems(json, frames));
  }

  /**
   However a response goes on behind frames that neither complete it nor fail - to its end, to a completion,
   to a frame that cannot be decoded - the texts sent are exactly those that arrived in them, in order, and so
   are the pieces of arguments; the message's end comes last, and only if the response is completed and
   every call decodes.
   */
  lemma TextsAndPiecesAreSent(json: Json, frames: seq<Frame>, tail: seq<Frame>, eof: bool)
    requires StillOpen(frames) && (tail == [] || tail[0].Completed? || tail[0].Undecodable?)
    ensures var s := Streamed(json, EMPTY, frames + tail, eof);
            && TextsIn(s.0) == TextsOf(frames) && ChunksIn(s.0) == ChunksOf(frames)
            && (forall i :: 0 <= i < |s.0| - 1 ==> !s.0[i].SentEnd?)
            && (s.0 != [] && s.0[|s.0| - 1].SentEnd? <==>
                  tail != [] && tail[0].Completed? && AllDecode(json, frames, OpenItems(json, frames)))
            && (s.1.None? <==> eof && s.0 != [] && s.0[|s.0| - 1].SentEnd?)
  {
    hide TextsIn, ChunksIn, TextsOf, ChunksOf, SentFor, Streamed, AllDecode, OpenItems, Made, EndCalls;
    PiecesOfFrames(json, frames);
    if tail == [] {
      UncompletedSends(json, frames, eof);
      assert frames + tail == frames;
    } else {
      assert tail == [tail[0]] + tail[1..];
      if tail[0].Undecodable? {
        BrokenSends(json, frames, tail[1..], eof);
      } else {
        CompletedSends(json, frames, tail[1..], eof);
        MadeAreCalls(json, frames);
        var calls := Made(EndCalls(json, frames, OpenItems(json, frames)));
        EndPieces(SentFor(json, frames), calls);
      }
    }
  }

  lemma EndPieces(sent: seq<Sent>, calls: seq<Sent>)
    requires forall i :: 0 <= i < |calls| ==> calls[i].SentCall?
    ensures TextsIn(sent + calls) == TextsIn(sent) && ChunksIn(sent + calls) == ChunksIn(sent)
    ensures TextsIn((sent + calls) + [SentEnd]) == TextsIn(sent) && ChunksIn((sent + calls) + [SentEnd]) == ChunksIn(sent)
  {
    hide TextsIn, ChunksIn;
    CallsAreNoPieces(calls);
    CallsAreNoPieces([SentEnd]);
    PiecesConcat(sent, calls);
    PiecesConcat(sent + calls, [SentEnd]);
  }
}
