/** How many calls each item gets (internal/model/provider_openai_compatible.go). */
module ToolCallRepeats {
  import opened Basics
  import opened Text
  import opened ToolArguments
  import opened ToolCallTracker
  import opened ToolCallAssembly

  // -------- what is held of an item that may end early --------

  /** The frames since a delta last ended the item early, or all of them. */
  function Since(json: Json, frames: seq<Frame>, id: string): seq<Frame> {
    if frames == [] then []
    else
      var f := frames[|frames| - 1];
      var before := Since(json, frames[..|frames| - 1], id);
      if EndsEarly(json, before, f) && f.itemId == id then [] else before + [f]
  }

  /** Behind these frames, the frame ends its own item early. */
  predicate Ends(json: Json, frames: seq<Frame>, f: Frame) {
    f.ArgumentsDelta? && EndsEarly(json, Since(json, frames, f.itemId), f)
  }

  datatype Call = Call(item: string, call: Sent)

  function Made(calls: seq<Call>): seq<Sent> {
    if calls == [] then [] else [calls[0].call] + Made(calls[1..])
  }

  /** The call that ends an item early. */
  function EarlyCall(json: Json, frames: seq<Frame>, f: Frame): Call
    requires Ends(json, frames, f)
  {
    Call(f.itemId, CallFor(json, Since(json, frames, f.itemId) + [f], f.itemId).value)
  }

  /** The calls made before the completion, each with its item. */
  function EarlyCalls(json: Json, frames: seq<Frame>): seq<Call> {
    if frames == [] then []
    else
      var front, f := frames[..|frames| - 1], frames[|frames| - 1];
      EarlyCalls(json, front) + if Ends(json, front, f) then [EarlyCall(json, front, f)] else []
  }

  /** Some frame named the item since it last ended. */
  predicate Open(json: Json, frames: seq<Frame>, id: string) {
    !IsBlank(id) && id in FirstSeen(Since(json, frames, id))
  }

  function OpenOf(json: Json, frames: seq<Frame>, ids: seq<string>): (open: seq<string>)
    ensures forall id :: id in open <==> id in ids && Open(json, frames, id)
  {
    if ids == [] then [] else (if Open(json, frames, ids[0]) then [ids[0]] else []) + OpenOf(json, frames, ids[1..])
  }

  /** The items left for the completion, in the order first seen. */
  function OpenItems(json: Json, frames: seq<Frame>): seq<string> {
    OpenOf(json, frames, FirstSeen(frames))
  }

  /** The call made of what is still held of an item. */
  function HeldCall(json: Json, frames: seq<Frame>, id: string): Result<Sent, Failure> {
    CallFor(json, Since(json, frames, id), id)
  }

  /** The calls of the completion, up to the first item that fails. */
  function EndCalls(json: Json, frames: seq<Frame>, ids: seq<string>): seq<Call> {
    if ids == [] || HeldCall(json, frames, ids[0]).Err? then []
    else [Call(ids[0], HeldCall(json, frames, ids[0]).value)] + EndCalls(json, frames, ids[1..])
  }

  ghost predicate AllDecode(json: Json, frames: seq<Frame>, ids: seq<string>) {
    forall k :: 0 <= k < |ids| ==> HeldCall(json, frames, ids[k]).Ok?
  }

  /** Every call of a stream that is completed behind these frames, with its item. */
  function CallsMade(json: Json, frames: seq<Frame>): seq<Call> {
    EarlyCalls(json, frames) + EndCalls(json, frames, OpenItems(json, frames))
  }

  // -------- the tracker --------

  ghost predicate Tracked(t: State, s: seq<Frame>, id: string) {
    && (id in t.calls <==> id in FirstSeen(s))
    && (id in t.calls ==> t.calls[id] == MetaOf(s, id))
    && Found(t.deltas, id, "") == DeltasOf(s, id)
    && (id in t.done <==> DoneOf(s, id).Some?)
    && (id in t.done ==> t.done[id] == DoneOf(s, id).value)
  }

  /** The listed items that are in the set, without repetitions. */
  function Todo(open: set<string>, ids: seq<string>): seq<string> {
    if ids == [] then []
    else if ids[0] in open then [ids[0]] + Todo(open - {ids[0]}, ids[1..])
    else Todo(open, ids[1..])
  }

  ghost predicate Ordered(t: State, frames: seq<Frame>) {
    && (forall id :: id in t.order <==> id in FirstSeen(frames))
    && (forall id :: id in t.calls ==> id in t.order)
    && (forall open: set<string> :: Todo(open, t.order) == Todo(open, FirstSeen(frames)))
  }

  /** The tracker holds what was said of each item since it last ended, and the items in the order first seen. */
  ghost predicate Tracks(json: Json, t: State, frames: seq<Frame>) {
    && Ordered(t, frames)
    && forall id :: id != "" ==> Tracked(t, Since(json, frames, id), id)
  }

  lemma {:induction false} TodoAppend(open: set<string>, ids: seq<string>, id: string)
    ensures Todo(open, ids + [id]) == Todo(open, ids) + if id in open && id !in ids then [id] else []
  {
    if ids == [] {
      assert [] + [id] == [id] && [id][1..] == [];
    } else {
      var all := ids + [id];
      assert all[0] == ids[0] && all[1..] == ids[1..] + [id];
      TodoAppend(open, ids[1..], id);
      TodoAppend(open - {ids[0]}, ids[1..], id);
      var tail := if id in open && id !in ids then [id] else [];
      assert [ids[0]] + (Todo(open - {ids[0]}, ids[1..]) + tail) == ([ids[0]] + Todo(open - {ids[0]}, ids[1..])) + tail;
    }
  }

  lemma OrderedStep(t: State, frames: seq<Frame>, f: Frame)
    requires Ordered(t, frames)
    ensures Ordered(Announced(t, f), frames + [f])
  {
    hide Todo, ItemOf, FirstSeen, NameIn, Renamed;
    var id := ItemOf(f);
    MetaStep(frames, f, id);
    forall open: set<string>
      ensures Todo(open, Announced(t, f).order) == Todo(open, FirstSeen(frames + [f]))
    {
      TodoAppend(open, t.order, id);
      TodoAppend(open, FirstSeen(frames), id);
      assert Todo(open, FirstSeen(frames)) + [] == Todo(open, FirstSeen(frames));
    }
  }

  /** One frame adds to what is held of its own item. */
  lemma TrackedStep(t: State, s: seq<Frame>, f: Frame, id: string)
    requires id != "" && Tracked(t, s, id)
    ensures Tracked(Extended1(t, f), s + [f], id)
  {
    hide FirstSeen, MetaOf, DeltasOf, DoneOf, Renamed;
    MetaStep(s, f, id);
    DataStep(s, f, id);
    if id !in t.calls {
      UnseenHasNoMeta(s, id);
    }
  }

  lemma SinceStep(json: Json, frames: seq<Frame>, f: Frame, id: string)
    ensures Since(json, frames + [f], id)
            == if Ends(json, frames, f) && f.itemId == id then [] else Since(json, frames, id) + [f]
  {
    hide EndsEarly;
    FrontOf(frames, f);
    EarlyIsDeltaOf(json, Since(json, frames, id), f);
  }

  lemma EarlyIsDeltaOf(json: Json, frames: seq<Frame>, f: Frame)
    ensures EndsEarly(json, frames, f) ==> f.ArgumentsDelta?
  {
    hide Decoded;
  }

  /** Finalizing the item of a delta behind a snapshot makes the call of all that is held of it. */
  lemma EarlyFinalize(json: Json, t2: State, s: seq<Frame>, f: Frame)
    requires f.ArgumentsDelta? && f.itemId != "" && Tracked(t2, s + [f], f.itemId)
    ensures f.itemId in t2.done <==> DoneOf(s, f.itemId).Some?
    ensures f.itemId in t2.done ==>
              var r := Finalized(json, t2, f.itemId, f.name);
              if IsBlank(f.itemId) then r == Ok((t2, []))
              else if EndsEarly(json, s, f)
              then CallFor(json, s + [f], f.itemId).Ok?
                   && r == Ok((Forgotten(t2, f.itemId), [CallFor(json, s + [f], f.itemId).value]))
              else r.Err?
  {
    hide IsBlank, Decoded, DeltasOf, DoneOf, MetaOf, FirstSeen;
    DataStep(s, f, f.itemId);
    MetaStep(s, f, f.itemId);
  }

  lemma ForgottenTracked(t: State, s: seq<Frame>, item: string, id: string)
    requires id == item || Tracked(t, s, id)
    ensures Tracked(Forgotten(t, item), if id == item then [] else s, id)
  {
  }

  /** One frame that neither completes the stream nor fails: at most the call that ends its item early is sent. */
  lemma StepTracks(json: Json, t: State, frames: seq<Frame>, f: Frame)
    requires Tracks(json, t, frames) && !f.Completed? && !f.Undecodable?
    ensures var r := Handled(json, t, f);
            && Tracks(json, r.0, frames + [f]) && r.2.None?
            && CallsIn(r.1) == if Ends(json, frames, f) then [EarlyCall(json, frames, f).call] else []
  {
    hide Tracked, Ordered, Since, Ends, Handled, CallsIn, EndsEarly;
    var t2 := Extended1(t, f);
    AllTracked(json, t, frames, f);
    OrderedStep(t, frames, f);
    OrderedIgnoresData(Announced(t, f), t2, frames + [f]);
    var r := Handled(json, t, f);
    EndsIsDelta(json, frames, f);
    if Ends(json, frames, f) {
      EndingFrame(json, t, frames, f);
      OrderedIgnoresData(t2, Forgotten(t2, f.itemId), frames + [f]);
      forall id | id != "" ensures Tracked(r.0, Since(json, frames + [f], id), id) {
        SinceStep(json, frames, f, id);
        ForgottenTracked(t2, Since(json, frames, id) + [f], f.itemId, id);
      }
    } else {
      QuietFrame(json, t, frames, f);
      forall id | id != "" ensures Tracked(r.0, Since(json, frames + [f], id), id) {
        SinceStep(json, frames, f, id);
      }
    }
  }

  lemma EndsIsDelta(json: Json, frames: seq<Frame>, f: Frame)
    ensures Ends(json, frames, f) ==> f.ArgumentsDelta? && f.itemId != ""
  {
    hide Decoded, Since;
  }

  lemma AllTracked(json: Json, t: State, frames: seq<Frame>, f: Frame)
    requires Tracks(json, t, frames)
    ensures forall id :: id != "" ==> Tracked(Extended1(t, f), Since(json, frames, id) + [f], id)
  {
    hide Tracked, Ordered, Since;
    forall id | id != "" ensures Tracked(Extended1(t, f), Since(json, frames, id) + [f], id) {
      TrackedStep(t, Since(json, frames, id), f, id);
    }
  }

  lemma OrderedIgnoresData(t: State, t': State, frames: seq<Frame>)
    requires Ordered(t, frames) && t'.order == t.order && forall id :: id in t'.calls ==> id in t.calls
    ensures Ordered(t', frames)
  {
    hide FirstSeen, Todo;
  }

  lemma EndingFrame(json: Json, t: State, frames: seq<Frame>, f: Frame)
    requires Ends(json, frames, f) && f.itemId != ""
    requires Tracked(Extended1(t, f), Since(json, frames, f.itemId) + [f], f.itemId)
    ensures var r := Handled(json, t, f);
            r.0 == Forgotten(Extended1(t, f), f.itemId) && r.2.None? && CallsIn(r.1) == [EarlyCall(json, frames, f).call]
  {
    hide Since, Tracked, Finalized, CallFor, AllFinalized, Renamed;
    var t2, s := Extended1(t, f), Since(json, frames, f.itemId);
    EarlyFinalize(json, t2, s, f);
    EarlyIsDelta(json, s, f);
    var who := Resolved(Announced(t, f), f.itemId, f.name);
    var chunk, call := SentDelta(who.0, who.1, f.delta), CallFor(json, s + [f], f.itemId).value;
    CallForIsCall(json, s + [f], f.itemId);
    assert Handled(json, t, f).1 == [chunk] + [call];
    CallsConcat([chunk], [call]);
    AllCalls([call]);
  }

  lemma QuietFrame(json: Json, t: State, frames: seq<Frame>, f: Frame)
    requires !Ends(json, frames, f) && !f.Completed? && !f.Undecodable?
    requires f.ArgumentsDelta? && f.itemId != "" ==> Tracked(Extended1(t, f), Since(json, frames, f.itemId) + [f], f.itemId)
    ensures var r := Handled(json, t, f); r.0 == Extended1(t, f) && r.2.None? && CallsIn(r.1) == []
  {
    hide Since, Tracked, Finalized, CallFor, AllFinalized, Renamed, EndsEarly, Handled, Extended1;
    if f.ArgumentsDelta? && f.itemId != "" {
      EarlyFinalize(json, Extended1(t, f), Since(json, frames, f.itemId), f);
    }
    HandledIs(json, t, f);
    NoCalls(Handled(json, t, f).1);
  }

  lemma {:induction false} MadeConcat(a: seq<Call>, b: seq<Call>)
    ensures Made(a + b) == Made(a) + Made(b)
  {
    if a == [] {
      assert a + b == b;
    } else {
      assert (a + b)[1..] == a[1..] + b;
      MadeConcat(a[1..], b);
    }
  }

  lemma EarlyStep(json: Json, frames: seq<Frame>, f: Frame)
    ensures EarlyCalls(json, frames + [f])
            == EarlyCalls(json, frames) + if Ends(json, frames, f) then [EarlyCall(json, frames, f)] else []
    ensures Made(EarlyCalls(json, frames + [f]))
            == Made(EarlyCalls(json, frames)) + if Ends(json, frames, f) then [EarlyCall(json, frames, f).call] else []
  {
    hide Ends, EarlyCall, Since;
    FrontOf(frames, f);
    if Ends(json, frames, f) {
      MadeConcat(EarlyCalls(json, frames), [EarlyCall(json, frames, f)]);
    } else {
      assert EarlyCalls(json, frames) + [] == EarlyCalls(json, frames);
    }
  }

  /** Before the completion, exactly the calls of the items that end early are sent. */
  lemma {:induction false} RunTracks(json: Json, t: State, before: seq<Frame>, frames: seq<Frame>, tail: seq<Frame>, eof: bool)
    requires Tracks(json, t, before) && StillOpen(frames)
    ensures var r := Ran(json, t, frames);
            var s := Streamed(json, r.0, tail, eof);
            && Tracks(json, r.0, before + frames)
            && Made(EarlyCalls(json, before + frames)) == Made(EarlyCalls(json, before)) + CallsIn(r.1)
            && Streamed(json, t, frames + tail, eof) == (r.1 + s.0, s.1)
    decreases |frames|
  {
    hide Tracks, Handled, Ends, EarlyCalls, EarlyCall, Made;
    if frames == [] {
      assert before + frames == before && frames + tail == tail;
      var s := Streamed(json, t, tail, eof);
      assert [] + s.0 == s.0 && Made(EarlyCalls(json, before)) + [] == Made(EarlyCalls(json, before));
    } else {
      var f := frames[0];
      assert (before + [f]) + frames[1..] == before + frames;
      StepTracks(json, t, before, f);
      EarlyStep(json, before, f);
      var r := Handled(json, t, f);
      RunTracks(json, r.0, before + [f], frames[1..], tail, eof);
      var rest := Ran(json, r.0, frames[1..]);
      CallsConcat(r.1, rest.1);
      StreamedBehind(json, t, frames, tail, eof);
      assert Made(EarlyCalls(json, before)) + (CallsIn(r.1) + CallsIn(rest.1))
          == (Made(EarlyCalls(json, before)) + CallsIn(r.1)) + CallsIn(rest.1);
      assert Made(EarlyCalls(json, before)) + [] == Made(EarlyCalls(json, before));
    }
  }

  lemma NothingTracked(json: Json)
    ensures Tracks(json, EMPTY, []) && Made(EarlyCalls(json, [])) == []
  {
    forall id ensures Tracked(EMPTY, Since(json, [], id), id) {
    }
  }

  // -------- the completion --------

  /** The tracker still holds what was said of the set's items. */
  ghost predicate HoldsOf(json: Json, t: State, frames: seq<Frame>, open: set<string>) {
    && (forall id :: id in open <==> id in t.calls && !IsBlank(id))
    && (forall id :: id in open ==>
          var s := Since(json, frames, id);
          && t.calls[id] == MetaOf(s, id) && Found(t.deltas, id, "") == DeltasOf(s, id)
          && Found(t.done, id, "") == DoneOf(s, id).GetOr(""))
  }

  lemma FinalizedHeld(json: Json, t: State, frames: seq<Frame>, open: set<string>, id: string)
    requires HoldsOf(json, t, frames, open) && id in t.calls
    ensures var call := HeldCall(json, frames, id);
            Finalized(json, t, id, "") == if id !in open then Ok((t, []))
                                          else if call.Err? then Err(BadCall) else Ok((Forgotten(t, id), [call.value]))
    ensures id in open ==> HoldsOf(json, Forgotten(t, id), frames, open - {id})
  {
    hide IsBlank, Decoded, MetaOf, DeltasOf, DoneOf, Since;
  }

  lemma {:induction false} CompletionCalls(json: Json, t: State, frames: seq<Frame>, open: set<string>, ids: seq<string>)
    requires HoldsOf(json, t, frames, open)
    ensures var r, todo := AllFinalized(json, t, ids), Todo(open, ids);
            r.1 == Made(EndCalls(json, frames, todo)) && (r.2 <==> AllDecode(json, frames, todo))
    decreases |ids|
  {
    hide Finalized, HoldsOf, HeldCall, AllDecode;
    if ids == [] {
      NoneDecode(json, frames);
    } else if ids[0] !in t.calls {
      OpenAreHeld(json, t, frames, open, ids[0]);
      CompletionCalls(json, t, frames, open, ids[1..]);
    } else {
      var id := ids[0];
      FinalizedHeld(json, t, frames, open, id);
      if id !in open {
        CompletionCalls(json, t, frames, open, ids[1..]);
        assert [] + AllFinalized(json, t, ids[1..]).1 == AllFinalized(json, t, ids[1..]).1;
      } else {
        var todo := Todo(open - {id}, ids[1..]);
        assert ([id] + todo)[0] == id && ([id] + todo)[1..] == todo;
        FirstDecodes(json, frames, id, todo);
        if HeldCall(json, frames, id).Ok? {
          CompletionCalls(json, Forgotten(t, id), frames, open - {id}, ids[1..]);
          var call := Call(id, HeldCall(json, frames, id).value);
          MadeConcat([call], EndCalls(json, frames, todo));
          assert Made([call]) == [call.call] + Made([call][1..]) && [call][1..] == [];
        }
      }
    }
  }

  lemma OpenAreHeld(json: Json, t: State, frames: seq<Frame>, open: set<string>, id: string)
    requires HoldsOf(json, t, frames, open)
    ensures id in open ==> id in t.calls
  {
    hide IsBlank, MetaOf, DeltasOf, DoneOf, Since;
  }

  lemma NoneDecode(json: Json, frames: seq<Frame>)
    ensures AllDecode(json, frames, [])
  {
  }

  lemma FirstDecodes(json: Json, frames: seq<Frame>, id: string, ids: seq<string>)
    ensures AllDecode(json, frames, [id] + ids) <==> HeldCall(json, frames, id).Ok? && AllDecode(json, frames, ids)
  {
    hide HeldCall;
    var all := [id] + ids;
    assert all[0] == id && forall k :: 0 <= k < |ids| ==> all[k + 1] == ids[k];
  }

  lemma BlankIsNothing()
    ensures IsBlank("")
  {
  }

  lemma {:induction false} TodoIsOpen(json: Json, frames: seq<Frame>, open: set<string>, ids: seq<string>)
    requires Distinct(ids) && forall id :: id in ids ==> (id in open <==> Open(json, frames, id))
    ensures Todo(open, ids) == OpenOf(json, frames, ids)
  {
    hide Open;
    if ids != [] {
      var id, rest := ids[0], ids[1..];
      assert forall k :: 0 <= k < |rest| ==> rest[k] == ids[k + 1];
      TodoIsOpen(json, frames, if id in open then open - {id} else open, rest);
      assert [] + OpenOf(json, frames, rest) == OpenOf(json, frames, rest);
    }
  }

  /** What the tracker holds when the stream is completed. */
  lemma HeldAtEnd(json: Json, t: State, frames: seq<Frame>) returns (open: set<string>)
    requires Tracks(json, t, frames)
    ensures HoldsOf(json, t, frames, open) && Todo(open, t.order) == OpenItems(json, frames)
  {
    hide Since, MetaOf, DeltasOf, DoneOf, IsBlank, FirstSeen, Todo, OpenOf;
    BlankIsNothing();
    open := set id | id in t.calls && !IsBlank(id);
    SeenAreItems(frames);
    forall id | id in FirstSeen(frames) ensures id in open <==> Open(json, frames, id) {
      assert Tracked(t, Since(json, frames, id), id);
    }
    TodoIsOpen(json, frames, open, FirstSeen(frames));
    forall id | id in open ensures Tracked(t, Since(json, frames, id), id) {
    }
  }

  /**
   Whatever the frames are, a completed stream sends exactly these calls: one for each delta that
   ends its item early, and then, in the order first seen, one for each item named since - each
   from what was said of the item since it last ended, up to the first that fails.
   */
  lemma ExactCalls(json: Json, frames: seq<Frame>, tail: seq<Frame>, eof: bool)
    requires StillOpen(frames)
    ensures var s := Streamed(json, EMPTY, frames + [Completed] + tail, eof);
            && CallsIn(s.0) == Made(CallsMade(json, frames))
            && s.1 == if AllDecode(json, frames, OpenItems(json, frames)) then AtEnd(true, eof) else Some(BadCall)
  {
    hide Tracks, Handled, EarlyCalls, OpenItems, AllDecode, HoldsOf, EndCalls, Made, Todo;
    NothingTracked(json);
    assert [] + frames == frames && frames + [Completed] + tail == frames + ([Completed] + tail);
    RunTracks(json, EMPTY, [], frames, [Completed] + tail, eof);
    var r := Ran(json, EMPTY, frames);
    CompletionOf(json, r.0, frames, tail, eof);
    var done := Streamed(json, r.0, [Completed] + tail, eof);
    CallsConcat(r.1, done.0);
    MadeConcat(EarlyCalls(json, frames), EndCalls(json, frames, OpenItems(json, frames)));
    assert [] + CallsIn(r.1) == CallsIn(r.1);
  }

  lemma CompletionOf(json: Json, t: State, frames: seq<Frame>, tail: seq<Frame>, eof: bool)
    requires Tracks(json, t, frames)
    ensures var s := Streamed(json, t, [Completed] + tail, eof);
            && CallsIn(s.0) == Made(EndCalls(json, frames, OpenItems(json, frames)))
            && s.1 == if AllDecode(json, frames, OpenItems(json, frames)) then AtEnd(true, eof) else Some(BadCall)
  {
    hide Tracks, OpenItems, AllDecode, HoldsOf, EndCalls, Made, Todo, AllFinalized;
    var open := HeldAtEnd(json, t, frames);
    CompletionCalls(json, t, frames, open, t.order);
    var sent := Made(EndCalls(json, frames, OpenItems(json, frames)));
    EndCallsAreCalls(json, frames, OpenItems(json, frames));
    AllCalls(sent);
    CallsConcat(sent, [SentEnd]);
    NoCalls([SentEnd]);
    assert ([Completed] + tail)[0] == Completed && sent + [] == sent;
  }

  lemma {:induction false} EndCallsAreCalls(json: Json, frames: seq<Frame>, ids: seq<string>)
    ensures forall i :: 0 <= i < |Made(EndCalls(json, frames, ids))| ==> Made(EndCalls(json, frames, ids))[i].SentCall?
  {
    hide CallFor;
    if ids != [] && HeldCall(json, frames, ids[0]).Ok? {
      EndCallsAreCalls(json, frames, ids[1..]);
      CallForIsCall(json, Since(json, frames, ids[0]), ids[0]);
      var call := Call(ids[0], HeldCall(json, frames, ids[0]).value);
      assert ([call] + EndCalls(json, frames, ids[1..]))[1..] == EndCalls(json, frames, ids[1..]);
    }
  }

  // -------- without a completion --------

  /** A response that is never completed ends with an error and sends only the calls of the items that ended early. */
  lemma CallsWithoutCompletion(json: Json, frames: seq<Frame>, eof: bool)
    requires StillOpen(frames)
    ensures var s := Streamed(json, EMPTY, frames, eof);
            && s.1 == AtEnd(false, eof) && s.1.Some?
            && CallsIn(s.0) == Made(EarlyCalls(json, frames))
            && (CallsIn(s.0) == [] <==> NoEarlyCall(json, [], frames))
  {
    hide Tracks, Handled, EarlyCalls, Made, NoEarlyCall, Summarises;
    NothingTracked(json);
    NothingSaid();
    assert [] + frames == frames && frames + [] == frames;
    RunTracks(json, EMPTY, [], frames, [], eof);
    CallsWaitForTheCompletion(json, EMPTY, [], frames);
    var r := Ran(json, EMPTY, frames);
    assert r.1 + [] == r.1 && [] + CallsIn(r.1) == CallsIn(r.1);
  }

  /** A frame that cannot be decoded ends the stream with an error, behind the calls of the items that ended early. */
  lemma CallsBeforeABadFrame(json: Json, frames: seq<Frame>, tail: seq<Frame>, eof: bool)
    requires StillOpen(frames)
    ensures var s := Streamed(json, EMPTY, frames + [Undecodable] + tail, eof);
            && s.1 == Some(BadFrame)
            && CallsIn(s.0) == Made(EarlyCalls(json, frames))
            && (CallsIn(s.0) == [] <==> NoEarlyCall(json, [], frames))
  {
    hide Tracks, EarlyCalls, Made, NoEarlyCall, Summarises;
    NothingTracked(json);
    NothingSaid();
    assert [] + frames == frames && frames + [Undecodable] + tail == frames + ([Undecodable] + tail);
    RunTracks(json, EMPTY, [], frames, [Undecodable] + tail, eof);
    CallsWaitForTheCompletion(json, EMPTY, [], frames);
    var r := Ran(json, EMPTY, frames);
    assert ([Undecodable] + tail)[0] == Undecodable;
    assert r.1 + [] == r.1 && [] + CallsIn(r.1) == CallsIn(r.1);
  }

  // -------- how many calls an item gets --------

  function CallsTo(calls: seq<Call>, id: string): nat {
    if calls == [] then 0 else (if calls[0].item == id then 1 else 0) + CallsTo(calls[1..], id)
  }

  lemma {:induction false} CallsToConcat(a: seq<Call>, b: seq<Call>, id: string)
    ensures CallsTo(a + b, id) == CallsTo(a, id) + CallsTo(b, id)
  {
    if a == [] {
      assert a + b == b;
    } else {
      assert (a + b)[1..] == a[1..] + b;
      CallsToConcat(a[1..], b, id);
    }
  }

  /** The frame at this place ends the item early. */
  predicate EarlyAt(json: Json, frames: seq<Frame>, i: nat, id: string)
    requires i < |frames|
  {
    Ends(json, frames[..i], frames[i]) && frames[i].itemId == id
  }

  ghost predicate EndedEarly(json: Json, frames: seq<Frame>, id: string) {
    exists i :: 0 <= i < |frames| && EarlyAt(json, frames, i, id)
  }

  ghost predicate EndedTwice(json: Json, frames: seq<Frame>, id: string) {
    exists i, k :: 0 <= i < k < |frames| && EarlyAt(json, frames, i, id) && EarlyAt(json, frames, k, id)
  }

  /** A frame names the item behind one that ended it early. */
  ghost predicate NamedAgain(json: Json, frames: seq<Frame>, id: string) {
    exists i, k :: 0 <= i < k < |frames| && EarlyAt(json, frames, i, id) && ItemOf(frames[k]) == id
  }

  lemma EarlyAtStep(json: Json, frames: seq<Frame>, f: Frame, id: string)
    ensures forall i :: 0 <= i < |frames| ==> EarlyAt(json, frames + [f], i, id) == EarlyAt(json, frames, i, id)
    ensures EarlyAt(json, frames + [f], |frames|, id) <==> Ends(json, frames, f) && f.itemId == id
  {
    hide Ends;
    var all := frames + [f];
    assert all[..|frames|] == frames && all[|frames|] == f;
    forall i | 0 <= i < |frames| ensures EarlyAt(json, all, i, id) == EarlyAt(json, frames, i, id) {
      assert all[..i] == frames[..i] && all[i] == frames[i];
    }
  }

  lemma EndedStep(json: Json, frames: seq<Frame>, f: Frame, id: string)
    ensures EndedEarly(json, frames + [f], id) <==> EndedEarly(json, frames, id) || (Ends(json, frames, f) && f.itemId == id)
    ensures EndedTwice(json, frames + [f], id)
            <==> EndedTwice(json, frames, id) || (EndedEarly(json, frames, id) && Ends(json, frames, f) && f.itemId == id)
    ensures NamedAgain(json, frames + [f], id)
            <==> NamedAgain(json, frames, id) || (EndedEarly(json, frames, id) && ItemOf(f) == id)
  {
    hide Ends, EarlyAt, ItemOf;
    EarlyAtStep(json, frames, f, id);
    var all := frames + [f];
    assert all[|frames|] == f;
    if i :| 0 <= i < |frames| && EarlyAt(json, frames, i, id) {
      assert EarlyAt(json, all, i, id);
    }
    if i, k :| 0 <= i < k < |frames| && EarlyAt(json, frames, i, id) && EarlyAt(json, frames, k, id) {
      assert EarlyAt(json, all, i, id) && EarlyAt(json, all, k, id);
    }
    if i, k :| 0 <= i < k < |frames| && EarlyAt(json, frames, i, id) && ItemOf(frames[k]) == id {
      assert EarlyAt(json, all, i, id) && ItemOf(all[k]) == id;
    }
    assert forall k :: 0 <= k < |frames| ==> all[k] == frames[k];
  }

  /** How the early ends of an item, and being named again, show in what is held of it. */
  lemma {:induction false} EarlyHistory(json: Json, frames: seq<Frame>, id: string)
    requires id != ""
    ensures var n, named, held := CallsTo(EarlyCalls(json, frames), id), id in FirstSeen(frames), id in FirstSeen(Since(json, frames, id));
            && (n >= 1 <==> EndedEarly(json, frames, id)) && (n >= 2 <==> EndedTwice(json, frames, id))
            && (named <==> held || n >= 1)
            && (NamedAgain(json, frames, id) <==> n >= 2 || (n >= 1 && held))
  {
    hide EndedEarly, EndedTwice, NamedAgain, Ends, Since, EarlyCalls, FirstSeen, ItemOf;
    if frames == [] {
      NoHistory(json, id);
    } else {
      var front, f := frames[..|frames| - 1], frames[|frames| - 1];
      assert frames == front + [f];
      EarlyHistory(json, front, id);
      EndedStep(json, front, f, id);
      EarlyStep(json, front, f);
      SinceStep(json, front, f, id);
      MetaStep(front, f, id);
      MetaStep(Since(json, front, id), f, id);
      EndsIsDelta(json, front, f);
      EarlyCount(json, front, f, id);
      NoneSeen();
    }
  }

  lemma NoneSeen()
    ensures FirstSeen([]) == []
  {
  }

  lemma NoHistory(json: Json, id: string)
    ensures CallsTo(EarlyCalls(json, []), id) == 0 && FirstSeen([]) == [] && Since(json, [], id) == []
    ensures !EndedEarly(json, [], id) && !EndedTwice(json, [], id) && !NamedAgain(json, [], id)
  {
  }

  lemma EarlyCount(json: Json, frames: seq<Frame>, f: Frame, id: string)
    ensures CallsTo(EarlyCalls(json, frames + [f]), id)
            == CallsTo(EarlyCalls(json, frames), id) + if Ends(json, frames, f) && f.itemId == id then 1 else 0
    ensures Ends(json, frames, f) ==> f.ArgumentsDelta? && ItemOf(f) == f.itemId
  {
    hide Ends, Since, EarlyCalls;
    EndsIsDelta(json, frames, f);
    EarlyStep(json, frames, f);
    var early := if Ends(json, frames, f) then [EarlyCall(json, frames, f)] else [];
    CallsToConcat(EarlyCalls(json, frames), early, id);
    if Ends(json, frames, f) {
      assert early[1..] == [];
      EarlyCallItem(json, frames, f);
    }
  }

  lemma EarlyCallItem(json: Json, frames: seq<Frame>, f: Frame)
    requires Ends(json, frames, f)
    ensures EarlyCall(json, frames, f).item == f.itemId
  {
    hide Ends, CallFor;
  }

  /** The completion makes the item's call: it was named since it last ended, and neither its call nor an earlier one fails. */
  ghost predicate SentAtEnd(json: Json, frames: seq<Frame>, id: string) {
    && Open(json, frames, id) && id in OpenItems(json, frames)
    && forall k :: 0 <= k <= Pos(OpenItems(json, frames), id) ==> HeldCall(json, frames, OpenItems(json, frames)[k]).Ok?
  }

  lemma {:induction false} EndCount(json: Json, frames: seq<Frame>, ids: seq<string>, id: string)
    requires Distinct(ids)
    ensures CallsTo(EndCalls(json, frames, ids), id)
            == if id in ids && (forall k :: 0 <= k <= Pos(ids, id) ==> HeldCall(json, frames, ids[k]).Ok?) then 1 else 0
  {
    hide HeldCall;
    if ids != [] && HeldCall(json, frames, ids[0]).Ok? {
      var rest := ids[1..];
      assert forall k :: 0 <= k < |rest| ==> rest[k] == ids[k + 1];
      EndCount(json, frames, rest, id);
      var call := Call(ids[0], HeldCall(json, frames, ids[0]).value);
      assert ([call] + EndCalls(json, frames, rest))[1..] == EndCalls(json, frames, rest);
      if id in rest {
        assert Pos(ids, id) == 1 + Pos(rest, id);
        assert forall k :: 0 < k < |ids| ==> ids[k] == rest[k - 1];
      }
    }
  }

  lemma {:induction false} OpenAreDistinct(json: Json, frames: seq<Frame>, ids: seq<string>)
    requires Distinct(ids)
    ensures Distinct(OpenOf(json, frames, ids))
  {
    hide Open;
    if ids != [] {
      assert forall k :: 0 <= k < |ids| - 1 ==> ids[1..][k] == ids[k + 1];
      OpenAreDistinct(json, frames, ids[1..]);
    }
  }

  /**
   Whatever the frames are, how many calls of a completed stream an item gets: one for each early
   end, and one more if the completion makes its call.
   */
  lemma CallCount(json: Json, frames: seq<Frame>, id: string)
    ensures CallsTo(CallsMade(json, frames), id)
            == CallsTo(EarlyCalls(json, frames), id) + if SentAtEnd(json, frames, id) then 1 else 0
  {
    hide EarlyCalls, HeldCall, FirstSeen, Open, CallsTo;
    SeenAreItems(frames);
    OpenAreDistinct(json, frames, FirstSeen(frames));
    EndCount(json, frames, OpenItems(json, frames), id);
    CallsToConcat(EarlyCalls(json, frames), EndCalls(json, frames, OpenItems(json, frames)), id);
  }

  /** An item is called at all exactly if it ended early or the completion makes its call, and more than once exactly if two of these happen. */
  lemma CalledTwiceExactlyWhen(json: Json, frames: seq<Frame>, id: string)
    requires id != ""
    ensures var n := CallsTo(CallsMade(json, frames), id);
            && (n >= 1 <==> EndedEarly(json, frames, id) || SentAtEnd(json, frames, id))
            && (n > 1 <==> EndedTwice(json, frames, id) || (EndedEarly(json, frames, id) && SentAtEnd(json, frames, id)))
  {
    hide EarlyCalls, CallsMade, EndedEarly, EndedTwice, SentAtEnd, CallsTo, Since, FirstSeen;
    CallCount(json, frames, id);
    EarlyHistory(json, frames, id);
  }

  /**
   In a completed stream that ends without an error, each item with a non-blank id gets a call,
   and a second one exactly if a frame names it again behind a delta that ended it early.
   */
  lemma EachItemIsCalled(json: Json, frames: seq<Frame>, id: string)
    requires AllDecode(json, frames, OpenItems(json, frames)) && !IsBlank(id)
    ensures var n := CallsTo(CallsMade(json, frames), id);
            && (n >= 1 <==> id in FirstSeen(frames))
            && (n > 1 <==> NamedAgain(json, frames, id))
  {
    hide EarlyCalls, CallsMade, EndedEarly, EndedTwice, NamedAgain, CallsTo, Since, FirstSeen, HeldCall, IsBlank;
    BlankIsNothing();
    CallCount(json, frames, id);
    EarlyHistory(json, frames, id);
    assert SentAtEnd(json, frames, id) <==> id in FirstSeen(frames) && id in FirstSeen(Since(json, frames, id));
  }
}
