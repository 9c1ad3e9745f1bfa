// Streams of argument deltas in which no item ends early: their calls, in order, and the
// deltas that would end one (internal/model/provider_openai_compatible.go).
module ToolCallAssembly {
  import opened Basics
  import opened Text
  import opened ToolArguments
  import opened ToolCallTracker

  // -------- what the frames say about an item --------

  /** The item a frame announces, adds to or ends. */
  function ItemOf(f: Frame): string {
    match f
    case ItemAdded(id, _, _, functionCall) => if functionCall then id else ""
    case ArgumentsDelta(id, _, _) => id
    case ArgumentsDone(id, _, _) => id
    case _ => ""
  }

  /** The items in the order they first appear. */
  function FirstSeen(frames: seq<Frame>): seq<string> {
    if frames == [] then []
    else
      var seen := FirstSeen(frames[..|frames| - 1]);
      var id := ItemOf(frames[|frames| - 1]);
      if id == "" || id in seen then seen else seen + [id]
  }

  /** All deltas of an item, in the order they arrived. */
  function DeltasOf(frames: seq<Frame>, id: string): string {
    if frames == [] then ""
    else
      var f := frames[|frames| - 1];
      DeltasOf(frames[..|frames| - 1], id) + if f.ArgumentsDelta? && f.itemId == id then f.delta else ""
  }

  /** The last snapshot of an item. */
  function DoneOf(frames: seq<Frame>, id: string): Option<string> {
    if frames == [] then None
    else
      var f := frames[|frames| - 1];
      if f.ArgumentsDone? && f.itemId == id then Some(f.arguments) else DoneOf(frames[..|frames| - 1], id)
  }

  function NameIn(f: Frame): string {
    if f.ItemAdded? || f.ArgumentsDelta? || f.ArgumentsDone? then f.name else ""
  }

  /** The last name and the last call id an item was given. */
  function MetaOf(frames: seq<Frame>, id: string): Meta {
    if frames == [] then NO_META
    else
      var f := frames[|frames| - 1];
      var before := MetaOf(frames[..|frames| - 1], id);
      if ItemOf(f) != id || id == "" then before
      else Renamed(before, if f.ItemAdded? then f.callId else "", NameIn(f))
  }

  /** The last of the values that is not empty, if there is one. */
  ghost predicate LastGiven(given: seq<string>, value: string) {
    || (value == "" && forall j :: 0 <= j < |given| ==> given[j] == "")
    || (value != "" && exists i :: 0 <= i < |given| && given[i] == value && forall j :: i < j < |given| ==> given[j] == "")
  }

  /** The call ids that an item is given, frame by frame. */
  function CallIdsGiven(frames: seq<Frame>, id: string): (given: seq<string>)
    ensures |given| == |frames|
  {
    seq(|frames|, i requires 0 <= i < |frames| =>
      if frames[i].ItemAdded? && frames[i].functionCall && frames[i].itemId == id then frames[i].callId else "")
  }

  /** The names that an item is given, frame by frame. */
  function NamesGiven(frames: seq<Frame>, id: string): (given: seq<string>)
    ensures |given| == |frames|
  {
    seq(|frames|, i requires 0 <= i < |frames| => if ItemOf(frames[i]) == id then NameIn(frames[i]) else "")
  }

  lemma OneMoreGiven(given: seq<string>, value: string)
    requires given != [] && LastGiven(given[..|given| - 1], value)
    ensures LastGiven(given, if given[|given| - 1] != "" then given[|given| - 1] else value)
  {
    var front, last := given[..|given| - 1], given[|given| - 1];
    if last == "" && value != "" {
      var i :| 0 <= i < |front| && front[i] == value && forall j :: i < j < |front| ==> front[j] == "";
      assert given[i] == value && forall j :: i < j < |given| ==> given[j] == if j < |front| then front[j] else last;
    }
  }

  /** A call has the last call id and the last name that its item was given. */
  lemma {:induction false} MetaIsTheLastGiven(frames: seq<Frame>, id: string)
    requires id != ""
    ensures LastGiven(CallIdsGiven(frames, id), MetaOf(frames, id).callId) && LastGiven(NamesGiven(frames, id), MetaOf(frames, id).name)
  {
    hide LastGiven;
    if frames == [] {
      NoneGiven();
      assert CallIdsGiven(frames, id) == [] && NamesGiven(frames, id) == [];
    } else {
      var front := frames[..|frames| - 1];
      MetaIsTheLastGiven(front, id);
      assert CallIdsGiven(frames, id)[..|front|] == CallIdsGiven(front, id);
      assert NamesGiven(frames, id)[..|front|] == NamesGiven(front, id);
      OneMoreGiven(CallIdsGiven(frames, id), MetaOf(front, id).callId);
      OneMoreGiven(NamesGiven(frames, id), MetaOf(front, id).name);
    }
  }

  lemma NoneGiven()
    ensures LastGiven([], "")
  {
  }

  /** No delta follows the snapshot of its item. */
  ghost predicate NoDeltaAfterDone(frames: seq<Frame>) {
    forall i, j :: 0 <= i < j < |frames| && frames[i].ArgumentsDone? && frames[j].ArgumentsDelta? && frames[i].itemId != ""
                   ==> frames[i].itemId != frames[j].itemId
  }

  /** A delta behind its item's snapshot after which what the item has so far decodes: its call is sent at once. */
  predicate EndsEarly(json: Json, before: seq<Frame>, f: Frame) {
    && f.ArgumentsDelta? && !IsBlank(f.itemId) && DoneOf(before, f.itemId).Some?
    && Decoded(json, DeltasOf(before + [f], f.itemId), DoneOf(before, f.itemId).value).Ok?
  }

  ghost predicate NoEarlyCall(json: Json, before: seq<Frame>, frames: seq<Frame>)
    decreases |frames|
  {
    frames == [] || (!EndsEarly(json, before, frames[0]) && NoEarlyCall(json, before + [frames[0]], frames[1..]))
  }

  ghost predicate StillOpen(frames: seq<Frame>) {
    forall i :: 0 <= i < |frames| ==> !frames[i].Completed? && !frames[i].Undecodable?
  }

  ghost predicate MetaSummarised(t: State, frames: seq<Frame>) {
    && t.order == FirstSeen(frames)
    && (forall id :: id in t.calls <==> id in t.order)
    && (forall id :: id in t.calls ==> t.calls[id] == MetaOf(frames, id))
  }

  ghost predicate DataSummarised(t: State, frames: seq<Frame>) {
    && (forall id :: id != "" ==> Found(t.deltas, id, "") == DeltasOf(frames, id))
    && (forall id :: id != "" ==> (id in t.done <==> DoneOf(frames, id).Some?))
    && (forall id :: id != "" && id in t.done ==> t.done[id] == DoneOf(frames, id).value)
  }

  /** The tracker after some frames holds exactly what they say. */
  ghost predicate Summarises(t: State, frames: seq<Frame>) {
    MetaSummarised(t, frames) && DataSummarised(t, frames)
  }

  const EMPTY := State(map[], map[], map[], [])

  lemma {:induction false} SeenAreItems(frames: seq<Frame>)
    ensures Distinct(FirstSeen(frames)) && "" !in FirstSeen(frames)
  {
    if frames != [] {
      SeenAreItems(frames[..|frames| - 1]);
    }
  }

  lemma {:induction false} UnseenHasNoMeta(frames: seq<Frame>, id: string)
    requires id !in FirstSeen(frames)
    ensures MetaOf(frames, id) == NO_META
  {
    hide Renamed;
    if frames != [] {
      UnseenHasNoMeta(frames[..|frames| - 1], id);
    }
  }

  lemma {:induction false} DoneWasSaid(frames: seq<Frame>, id: string)
    requires DoneOf(frames, id).Some?
    ensures exists i :: 0 <= i < |frames| && frames[i].ArgumentsDone? && frames[i].itemId == id
  {
    if !(frames[|frames| - 1].ArgumentsDone? && frames[|frames| - 1].itemId == id) {
      DoneWasSaid(frames[..|frames| - 1], id);
      var i :| 0 <= i < |frames| - 1 && frames[..|frames| - 1][i].ArgumentsDone? && frames[..|frames| - 1][i].itemId == id;
      assert frames[i].ArgumentsDone? && frames[i].itemId == id;
    }
  }

  function Announced(t: State, f: Frame): State {
    Remembered(t, ItemOf(f), if f.ItemAdded? then f.callId else "", NameIn(f))
  }

  lemma FrontOf(frames: seq<Frame>, f: Frame)
    ensures (frames + [f])[..|frames + [f]| - 1] == frames && (frames + [f])[|frames + [f]| - 1] == f
  {
  }

  lemma MetaStep(frames: seq<Frame>, f: Frame, id: string)
    ensures MetaOf(frames + [f], id) == if ItemOf(f) != id || id == "" then MetaOf(frames, id)
                                        else Renamed(MetaOf(frames, id), if f.ItemAdded? then f.callId else "", NameIn(f))
    ensures FirstSeen(frames + [f]) == if ItemOf(f) == "" || ItemOf(f) in FirstSeen(frames) then FirstSeen(frames)
                                       else FirstSeen(frames) + [ItemOf(f)]
  {
    hide Renamed, NameIn, ItemOf;
    FrontOf(frames, f);
  }

  lemma DataStep(frames: seq<Frame>, f: Frame, id: string)
    ensures DeltasOf(frames + [f], id) == DeltasOf(frames, id) + if f.ArgumentsDelta? && f.itemId == id then f.delta else ""
    ensures DoneOf(frames + [f], id) == if f.ArgumentsDone? && f.itemId == id then Some(f.arguments) else DoneOf(frames, id)
  {
    FrontOf(frames, f);
  }

  /** Remembering the item of a frame keeps order, names and call ids in step with the frames. */
  lemma RememberKeeps(t: State, frames: seq<Frame>, f: Frame)
    requires MetaSummarised(t, frames)
    ensures MetaSummarised(Announced(t, f), frames + [f])
    ensures Announced(t, f).deltas == t.deltas && Announced(t, f).done == t.done
  {
    hide Renamed, NameIn, ItemOf, MetaOf, FirstSeen;
    var t', item := Announced(t, f), ItemOf(f);
    MetaStep(frames, f, item);
    SeenAreItems(frames);
    if item !in t.calls {
      UnseenHasNoMeta(frames, item);
    }
    forall id | id in t'.calls ensures t'.calls[id] == MetaOf(frames + [f], id) {
      MetaStep(frames, f, id);
    }
  }

  lemma MetaIgnoresData(t: State, t': State, frames: seq<Frame>)
    requires MetaSummarised(t, frames) && t'.order == t.order && t'.calls == t.calls
    ensures MetaSummarised(t', frames)
  {
    hide MetaOf, FirstSeen;
  }

  /** One frame that ends no item early: the summary grows by it, and no call is sent. */
  lemma HandleKeeps(json: Json, t: State, frames: seq<Frame>, f: Frame)
    requires Summarises(t, frames) && !EndsEarly(json, frames, f) && !f.Completed? && !f.Undecodable?
    ensures var r := Handled(json, t, f);
            Summarises(r.0, frames + [f]) && r.2.None? && forall i :: 0 <= i < |r.1| ==> !r.1[i].SentCall?
  {
    hide MetaSummarised, DataSummarised, EndsEarly;
    RememberKeeps(t, frames, f);
    var t2 := Extended1(t, f);
    MetaIgnoresData(Announced(t, f), t2, frames + [f]);
    DataKeeps(t, frames, f, t2);
    if f.ArgumentsDelta? && f.itemId != "" {
      FinalizedSoFar(json, t, frames, f);
    }
    HandledIs(json, t, f);
  }

  /** The tracker with a frame's item remembered and its text added, before anything is finalized. */
  function Extended1(t: State, f: Frame): State {
    var t1 := Announced(t, f);
    match f
    case ArgumentsDelta(id, _, delta) => Extended(t1, id, delta)
    case ArgumentsDone(id, _, arguments) => t1.(done := t1.done[id := arguments])
    case _ => t1
  }

  /** What finalizing the item of a late delta does. */
  lemma FinalizedSoFar(json: Json, t: State, frames: seq<Frame>, f: Frame)
    requires DataSummarised(t, frames) && f.ArgumentsDelta? && f.itemId != ""
    ensures var t2 := Extended1(t, f);
            && (f.itemId in t2.done <==> DoneOf(frames, f.itemId).Some?)
            && (f.itemId in t2.done ==>
                  var r := Finalized(json, t2, f.itemId, f.name);
                  if IsBlank(f.itemId) then r == Ok((t2, []))
                  else if EndsEarly(json, frames, f) then r.Ok? && |r.value.1| == 1 && r.value.1[0].SentCall?
                  else r.Err?)
  {
    hide IsBlank, Decoded, DeltasOf, DoneOf, Renamed;
    var t2 := Extended1(t, f);
    DataStep(frames, f, f.itemId);
    DataKeeps(t, frames, f, t2);
    assert t2.done == t.done;
    assert f.itemId in t2.done ==> Found(t2.done, f.itemId, "") == DoneOf(frames, f.itemId).value;
  }

  lemma HandledIs(json: Json, t: State, f: Frame)
    requires !f.Completed? && !f.Undecodable?
    requires f.ArgumentsDelta? && f.itemId != "" && f.itemId in Extended1(t, f).done ==>
               var r := Finalized(json, Extended1(t, f), f.itemId, f.name); r.Err? || r == Ok((Extended1(t, f), []))
    ensures var r := Handled(json, t, f);
            r.0 == Extended1(t, f) && r.2.None? && forall i :: 0 <= i < |r.1| ==> !r.1[i].SentCall?
  {
    hide Renamed, Finalized, AllFinalized;
  }

  lemma DataKeeps(t: State, frames: seq<Frame>, f: Frame, t': State)
    requires DataSummarised(t, frames)
    requires t' == Extended1(t, f)
    ensures DataSummarised(t', frames + [f])
  {
    hide DeltasOf, DoneOf, ItemOf, NameIn, Renamed;
    forall id | id != ""
      ensures Found(t'.deltas, id, "") == DeltasOf(frames + [f], id)
      ensures id in t'.done <==> DoneOf(frames + [f], id).Some?
      ensures id in t'.done ==> t'.done[id] == DoneOf(frames + [f], id).value
    {
      DataStep(frames, f, id);
    }
  }

  /** The tracker and what was sent after frames that neither complete the response nor fail. */
  function Ran(json: Json, t: State, frames: seq<Frame>): (State, seq<Sent>)
    decreases |frames|
  {
    if frames == [] then (t, [])
    else
      var r := Handled(json, t, frames[0]);
      var rest := Ran(json, r.0, frames[1..]);
      (rest.0, r.1 + rest.1)
  }

  function CallsIn(sent: seq<Sent>): seq<Sent> {
    if sent == [] then [] else (if sent[0].SentCall? then [sent[0]] else []) + CallsIn(sent[1..])
  }

  lemma {:induction false} CallsConcat(a: seq<Sent>, b: seq<Sent>)
    ensures CallsIn(a + b) == CallsIn(a) + CallsIn(b)
  {
    if a == [] {
      assert a + b == b;
    } else {
      var rest, head := a[1..], if a[0].SentCall? then [a[0]] else [];
      assert (a + b)[0] == a[0] && (a + b)[1..] == rest + b;
      CallsConcat(rest, b);
      assert head + (CallsIn(rest) + CallsIn(b)) == (head + CallsIn(rest)) + CallsIn(b);
    }
  }

  lemma NoCalls(sent: seq<Sent>)
    requires forall i :: 0 <= i < |sent| ==> !sent[i].SentCall?
    ensures CallsIn(sent) == []
  {
  }

  lemma AllCalls(sent: seq<Sent>)
    requires forall i :: 0 <= i < |sent| ==> sent[i].SentCall?
    ensures CallsIn(sent) == sent
  {
  }

  lemma StreamedBehind(json: Json, t: State, frames: seq<Frame>, tail: seq<Frame>, eof: bool)
    requires frames != [] && !frames[0].Completed? && Handled(json, t, frames[0]).2.None?
    requires var r := Handled(json, t, frames[0]).0;
             var rest := Ran(json, r, frames[1..]);
             var s := Streamed(json, rest.0, tail, eof);
             Streamed(json, r, frames[1..] + tail, eof) == (rest.1 + s.0, s.1)
    ensures var all := Ran(json, t, frames);
            var s := Streamed(json, all.0, tail, eof);
            Streamed(json, t, frames + tail, eof) == (all.1 + s.0, s.1)
  {
    hide Handled, Streamed, Ran;
    var all := frames + tail;
    assert all[0..] == all && all[0] == frames[0] && all[0 + 1..] == frames[1..] + tail;
    StreamedOne(json, t, all, 0, eof);
    RanFirst(json, t, frames);
    var r := Handled(json, t, frames[0]);
    var rest := Ran(json, r.0, frames[1..]);
    var s := Streamed(json, rest.0, tail, eof);
    assert r.1 + (rest.1 + s.0) == (r.1 + rest.1) + s.0;
  }

  lemma RanFirst(json: Json, t: State, frames: seq<Frame>)
    requires frames != []
    ensures var r := Handled(json, t, frames[0]);
            var rest := Ran(json, r.0, frames[1..]);
            Ran(json, t, frames) == (rest.0, r.1 + rest.1)
  {
    hide Handled;
  }

  /** Before the completion the tracker holds what was said, and no call has been sent. */
  lemma {:induction false} HoldsWhatWasSaid(json: Json, t: State, before: seq<Frame>, frames: seq<Frame>, tail: seq<Frame>, eof: bool)
    requires Summarises(t, before) && StillOpen(frames) && NoEarlyCall(json, before, frames)
    ensures var r := Ran(json, t, frames);
            var s := Streamed(json, r.0, tail, eof);
            && Summarises(r.0, before + frames)
            && CallsIn(r.1) == []
            && Streamed(json, t, frames + tail, eof) == (r.1 + s.0, s.1)
    decreases |frames|
  {
    hide Summarises, Handled, EndsEarly;
    if frames == [] {
      assert before + frames == before && frames + tail == tail;
      var s := Streamed(json, t, tail, eof);
      assert [] + s.0 == s.0;
    } else {
      var f := frames[0];
      assert (before + [f]) + frames[1..] == before + frames;
      HandleKeeps(json, t, before, f);
      var r := Handled(json, t, f);
      NoCalls(r.1);
      HoldsWhatWasSaid(json, r.0, before + [f], frames[1..], tail, eof);
      CallsConcat(r.1, Ran(json, r.0, frames[1..]).1);
      StreamedBehind(json, t, frames, tail, eof);
    }
  }

  /** A frame that ends its item early sends a call. */
  lemma EarlyCallIsSent(json: Json, t: State, frames: seq<Frame>, f: Frame)
    requires Summarises(t, frames) && EndsEarly(json, frames, f)
    ensures CallsIn(Handled(json, t, f).1) != []
  {
    hide Finalized, DataSummarised, MetaSummarised, EndsEarly;
    EarlyIsDelta(json, frames, f);
    FinalizedSoFar(json, t, frames, f);
    var t2 := Extended1(t, f);
    var r := Finalized(json, t2, f.itemId, f.name);
    var chunk := SentDelta(Resolved(Announced(t, f), f.itemId, f.name).0, Resolved(Announced(t, f), f.itemId, f.name).1, f.delta);
    assert Handled(json, t, f).1 == [chunk] + r.value.1;
    CallsConcat([chunk], r.value.1);
    AllCalls(r.value.1);
  }

  lemma EarlyIsDelta(json: Json, frames: seq<Frame>, f: Frame)
    requires EndsEarly(json, frames, f)
    ensures f.ArgumentsDelta? && f.itemId != "" && !IsBlank(f.itemId) && DoneOf(frames, f.itemId).Some?
  {
    hide Decoded;
  }

  /** Calls wait for the completion exactly if no delta ends its item early. */
  lemma {:induction false} CallsWaitForTheCompletion(json: Json, t: State, before: seq<Frame>, frames: seq<Frame>)
    requires Summarises(t, before) && StillOpen(frames)
    ensures CallsIn(Ran(json, t, frames).1) == [] <==> NoEarlyCall(json, before, frames)
    decreases |frames|
  {
    hide Summarises, Handled, EndsEarly;
    if frames != [] {
      var f := frames[0];
      var r := Handled(json, t, f);
      CallsConcat(r.1, Ran(json, r.0, frames[1..]).1);
      if EndsEarly(json, before, f) {
        EarlyCallIsSent(json, t, before, f);
      } else {
        HandleKeeps(json, t, before, f);
        NoCalls(r.1);
        CallsWaitForTheCompletion(json, r.0, before + [f], frames[1..]);
      }
    }
  }

  /** Streams without a delta behind its item's snapshot end no item early. */
  lemma {:induction false} NoLateDeltaNoEarlyCall(json: Json, before: seq<Frame>, frames: seq<Frame>)
    requires NoDeltaAfterDone(before + frames)
    ensures NoEarlyCall(json, before, frames)
    decreases |frames|
  {
    hide NoDeltaAfterDone, EndsEarly;
    if frames != [] {
      var f := frames[0];
      if EndsEarly(json, before, f) {
        EarlyIsDelta(json, before, f);
        DoneWasSaid(before, f.itemId);
        var i :| 0 <= i < |before| && before[i].ArgumentsDone? && before[i].itemId == f.itemId;
        LateDelta0(before, frames, i);
      }
      assert (before + [f]) + frames[1..] == before + frames;
      NoLateDeltaNoEarlyCall(json, before + [f], frames[1..]);
    }
  }

  lemma LateDelta0(before: seq<Frame>, frames: seq<Frame>, i: nat)
    requires i < |before| && frames != [] && before[i].ArgumentsDone? && frames[0].ArgumentsDelta?
    requires before[i].itemId == frames[0].itemId != ""
    ensures !NoDeltaAfterDone(before + frames)
  {
    var all := before + frames;
    assert all[i] == before[i] && all[|before|] == frames[0];
  }

  // -------- the completion --------

  /** The call made of all that was said of an item. */
  function CallFor(json: Json, frames: seq<Frame>, id: string): Result<Sent, Failure> {
    var meta := MetaOf(frames, id);
    var arguments := Decoded(json, DeltasOf(frames, id), DoneOf(frames, id).GetOr(""));
    if arguments.Err? then Err(arguments.error)
    else Ok(SentCall(if meta.callId == "" then id else meta.callId, meta.name, arguments.value))
  }

  function Nonblank(ids: seq<string>): seq<string> {
    if ids == [] then [] else (if IsBlank(ids[0]) then [] else [ids[0]]) + Nonblank(ids[1..])
  }

  /** The calls of the items, up to the first that fails to decode. */
  function CallsFor(json: Json, frames: seq<Frame>, ids: seq<string>): (seq<Sent>, bool) {
    if ids == [] then ([], true)
    else
      var call := CallFor(json, frames, ids[0]);
      if call.Err? then ([], false)
      else
        var rest := CallsFor(json, frames, ids[1..]);
        ([call.value] + rest.0, rest.1)
  }

  /** The tracker still holds what was said of the items. */
  ghost predicate Holds(t: State, frames: seq<Frame>, ids: seq<string>) {
    forall k :: 0 <= k < |ids| ==>
      var id := ids[k];
      && id in t.calls && t.calls[id] == MetaOf(frames, id)
      && Found(t.deltas, id, "") == DeltasOf(frames, id)
      && Found(t.done, id, "") == DoneOf(frames, id).GetOr("")
  }

  lemma ForgettingKeeps(t: State, frames: seq<Frame>, ids: seq<string>)
    requires Holds(t, frames, ids) && Distinct(ids) && ids != []
    ensures Holds(t, frames, ids[1..]) && Holds(Forgotten(t, ids[0]), frames, ids[1..]) && Distinct(ids[1..])
  {
    assert forall k :: 0 <= k < |ids| - 1 ==> ids[1..][k] == ids[k + 1];
  }

  lemma FinalizedIsCall(json: Json, t: State, frames: seq<Frame>, ids: seq<string>)
    requires Holds(t, frames, ids) && ids != []
    ensures ids[0] in t.calls
    ensures Finalized(json, t, ids[0], "")
            == if IsBlank(ids[0]) then Ok((t, []))
               else if CallFor(json, frames, ids[0]).Err? then Err(BadCall)
               else Ok((Forgotten(t, ids[0]), [CallFor(json, frames, ids[0]).value]))
  {
    hide IsBlank, Decoded, MetaOf, DeltasOf, DoneOf;
  }

  lemma {:induction false} CompletionSendsCalls(json: Json, t: State, frames: seq<Frame>, ids: seq<string>)
    requires Holds(t, frames, ids) && Distinct(ids)
    ensures var r, c := AllFinalized(json, t, ids), CallsFor(json, frames, Nonblank(ids));
            r.1 == c.0 && r.2 == c.1
    decreases |ids|
  {
    hide Finalized, CallFor, Holds, IsBlank, Distinct;
    if ids != [] {
      FinalizedIsCall(json, t, frames, ids);
      ForgettingKeeps(t, frames, ids);
      CompletionSendsCalls(json, t, frames, ids[1..]);
      CompletionSendsCalls(json, Forgotten(t, ids[0]), frames, ids[1..]);
      var rest := Nonblank(ids[1..]);
      if IsBlank(ids[0]) {
        assert [] + rest == rest && [] + AllFinalized(json, t, ids[1..]).1 == AllFinalized(json, t, ids[1..]).1;
      } else {
        assert ([ids[0]] + rest)[1..] == rest;
      }
    }
  }

  /** Calls are made one for each item with a non-blank id, in order, each from its own frames. */
  lemma {:induction false} OneCallEach(json: Json, frames: seq<Frame>, ids: seq<string>)
    ensures var c := CallsFor(json, frames, ids);
            && (c.1 <==> forall k :: 0 <= k < |ids| ==> CallFor(json, frames, ids[k]).Ok?)
            && |c.0| <= |ids| && (c.1 <==> |c.0| == |ids|)
            && (forall k :: 0 <= k < |c.0| ==> CallFor(json, frames, ids[k]) == Ok(c.0[k]))
            && (forall k :: 0 <= k < |c.0| ==> c.0[k].SentCall?)
  {
    hide CallFor;
    if ids != [] {
      OneCallEach(json, frames, ids[1..]);
      CallForIsCall(json, frames, ids[0]);
      var rest := CallsFor(json, frames, ids[1..]);
      if CallFor(json, frames, ids[0]).Ok? {
        CallBefore(json, frames, ids, rest.0);
      }
    }
  }

  lemma CallForIsCall(json: Json, frames: seq<Frame>, id: string)
    ensures CallFor(json, frames, id).Ok? ==> CallFor(json, frames, id).value.SentCall?
  {
  }

  lemma CallBefore(json: Json, frames: seq<Frame>, ids: seq<string>, rest: seq<Sent>)
    requires ids != [] && |rest| <= |ids| - 1 && CallFor(json, frames, ids[0]).Ok?
    requires forall k :: 0 <= k < |rest| ==> CallFor(json, frames, ids[1..][k]) == Ok(rest[k])
    ensures var all := [CallFor(json, frames, ids[0]).value] + rest;
            forall k :: 0 <= k < |all| ==> CallFor(json, frames, ids[k]) == Ok(all[k])
    ensures (forall k :: 0 <= k < |ids| - 1 ==> CallFor(json, frames, ids[1..][k]).Ok?)
            <==> (forall k :: 0 <= k < |ids| ==> CallFor(json, frames, ids[k]).Ok?)
  {
    hide CallFor;
    assert forall k :: 0 < k < |ids| ==> ids[k] == ids[1..][k - 1];
    assert forall k :: 0 <= k < |ids| - 1 ==> ids[1..][k] == ids[k + 1];
  }

  lemma SummaryHolds(t: State, frames: seq<Frame>)
    requires Summarises(t, frames)
    ensures Holds(t, frames, FirstSeen(frames)) && Distinct(FirstSeen(frames))
  {
    SeenAreItems(frames);
    hide MetaOf, DeltasOf, DoneOf;
    var ids := FirstSeen(frames);
    forall k | 0 <= k < |ids|
      ensures ids[k] in t.calls && t.calls[ids[k]] == MetaOf(frames, ids[k])
              && Found(t.deltas, ids[k], "") == DeltasOf(frames, ids[k])
              && Found(t.done, ids[k], "") == DoneOf(frames, ids[k]).GetOr("")
    {
      assert ids[k] in t.order;
    }
  }

  lemma NothingSaid()
    ensures Summarises(EMPTY, [])
  {
  }

  /**
   However the items' frames interleave, the completed response sends one call for each item
   with a non-blank id, in the order first seen, each from all its deltas in order with the last
   snapshot as fallback - or the stream ends with an error, at the first call that fails.
   */
  lemma EachCallIsSentOnce(json: Json, frames: seq<Frame>, tail: seq<Frame>, eof: bool)
    requires StillOpen(frames) && NoEarlyCall(json, [], frames)
    ensures var s := Streamed(json, EMPTY, frames + [Completed] + tail, eof);
            var ids := Nonblank(FirstSeen(frames));
            && CallsIn(s.0) == CallsFor(json, frames, ids).0
            && (if forall k :: 0 <= k < |ids| ==> CallFor(json, frames, ids[k]).Ok?
                then |CallsIn(s.0)| == |ids| && s.1 == AtEnd(true, eof) && s.0 != [] && s.0[|s.0| - 1] == SentEnd
                else s.1 == Some(BadCall))
  {
    hide Summarises, CallFor, FirstSeen, IsBlank, NoEarlyCall, Finalized;
    NothingSaid();
    assert [] + frames == frames && frames + [Completed] + tail == frames + ([Completed] + tail);
    HoldsWhatWasSaid(json, EMPTY, [], frames, [Completed] + tail, eof);
    var r := Ran(json, EMPTY, frames);
    CompletionStep(json, r.0, frames, tail, eof);
    var done := Streamed(json, r.0, [Completed] + tail, eof);
    CallsConcat(r.1, done.0);
    OneCallEach(json, frames, Nonblank(FirstSeen(frames)));
  }

  lemma CompletionStep(json: Json, t: State, frames: seq<Frame>, tail: seq<Frame>, eof: bool)
    requires Summarises(t, frames)
    ensures var s := Streamed(json, t, [Completed] + tail, eof);
            var c := CallsFor(json, frames, Nonblank(FirstSeen(frames)));
            && CallsIn(s.0) == c.0
            && (if c.1 then s == (c.0 + [SentEnd], AtEnd(true, eof)) else s == (c.0, Some(BadCall)))
  {
    SummaryHolds(t, frames);
    assert t.order == FirstSeen(frames);
    hide Summarises, CallFor, FirstSeen, IsBlank, Finalized, Holds, Distinct;
    CompletionSendsCalls(json, t, frames, FirstSeen(frames));
    OneCallEach(json, frames, Nonblank(FirstSeen(frames)));
    var c := CallsFor(json, frames, Nonblank(FirstSeen(frames)));
    AllCalls(c.0);
    CallsConcat(c.0, [SentEnd]);
    NoCalls([SentEnd]);
    assert ([Completed] + tail)[0] == Completed;
  }

  // -------- a delta behind the snapshot --------

  /** The frames of one item whose first part decodes on its own, and so does the delta behind it. */
  function LateDelta(id: string, name: string, a: string, b: string): seq<Frame> {
    [ArgumentsDone(id, name, ""), ArgumentsDelta(id, name, a), ArgumentsDelta(id, name, b), Completed]
  }

  lemma LateSteps(json: Json, id: string, name: string, a: string, b: string, p: Parsed, q: Parsed)
    requires !IsBlank(id) && id != "" && name != "" && a != "" && b != ""
    requires Decoded(json, a, "") == Ok(p) && Decoded(json, b, "") == Ok(q)
    ensures var frames := LateDelta(id, name, a, b);
            var t1 := State(map[id := Meta("", name)], map[], map[id := ""], [id]);
            var t2 := State(map[], map[], map[], [id]);
            var t3 := State(map[id := Meta("", name)], map[id := b], map[], [id, id]);
            && Handled(json, EMPTY, frames[0]) == (t1, [], None)
            && Handled(json, t1, frames[1]) == (t2, [SentDelta(id, name, a)] + [SentCall(id, name, p)], None)
            && Handled(json, t2, frames[2]) == (t3, [SentDelta(id, name, b)], None)
            && Handled(json, t3, frames[3]).1 == [SentCall(id, name, q)] + [SentEnd] && Handled(json, t3, frames[3]).2 == None
  {
    hide IsBlank, Decoded;
    var meta := map[id := Meta("", name)];
    var both := State(meta, map[id := a], map[id := ""], [id]);
    var t2 := State(map[], map[], map[], [id]);
    var t3 := State(meta, map[id := b], map[], [id, id]);
    var t4 := State(map[], map[], map[], [id, id]);
    var t0 := State(meta, map[], map[], [id]);
    var t1 := t0.(done := map[id := ""]);
    assert EMPTY.calls[id := Meta("", name)] == meta && [] + [id] == [id];
    assert Remembered(EMPTY, id, "", name) == t0 && t0.done[id := ""] == t1.done;
    assert Remembered(t1, id, "", name) == t1;
    assert "" + a == a && Extended(t1, id, a) == both;
    assert Forgotten(both, id) == t2;
    assert Remembered(t2, id, "", name) == t0.(order := [id, id]);
    assert "" + b == b && Extended(t0.(order := [id, id]), id, b) == t3;
    assert Forgotten(t3, id) == t4;
    LateCompletion(json, t3, t4, id, SentCall(id, name, q));
  }

  lemma LateCompletion(json: Json, t3: State, t4: State, id: string, call: Sent)
    requires t3.order == [id, id] && id in t3.calls && id !in t4.calls
    requires Finalized(json, t3, id, "") == Ok((t4, [call]))
    ensures AllFinalized(json, t3, [id, id]) == (t4, [call], true)
  {
    hide Finalized;
    assert [id, id][1..] == [id] && [id][1..] == [];
    assert AllFinalized(json, t4, [id]) == AllFinalized(json, t4, []);
    assert [call] + [] == [call];
  }

  /** A delta behind its item's snapshot gets the call sent early, and what follows it sent as a second call of the same item. */
  lemma LateDeltaSendsTwice(json: Json, id: string, name: string, a: string, b: string, p: Parsed, q: Parsed)
    requires !IsBlank(id) && id != "" && name != "" && a != "" && b != ""
    requires Decoded(json, a, "") == Ok(p) && Decoded(json, b, "") == Ok(q)
    ensures CallsIn(Streamed(json, EMPTY, LateDelta(id, name, a, b), true).0) == [SentCall(id, name, p), SentCall(id, name, q)]
  {
    hide Handled, IsBlank, Decoded;
    LateSteps(json, id, name, a, b, p, q);
    var frames := LateDelta(id, name, a, b);
    var t1 := State(map[id := Meta("", name)], map[], map[id := ""], [id]);
    var t2 := State(map[], map[], map[], [id]);
    var t3 := State(map[id := Meta("", name)], map[id := b], map[], [id, id]);
    StreamedOne(json, t3, frames, 3, true);
    StreamedOne(json, t2, frames, 2, true);
    StreamedOne(json, t1, frames, 1, true);
    StreamedOne(json, EMPTY, frames, 0, true);
    assert frames[0..] == frames;
    CallsOfTwo(SentDelta(id, name, a), SentCall(id, name, p), SentDelta(id, name, b), SentCall(id, name, q));
    assert Streamed(json, EMPTY, frames, true).0
        == [] + (([SentDelta(id, name, a)] + [SentCall(id, name, p)]) + ([SentDelta(id, name, b)] + ([SentCall(id, name, q)] + [SentEnd])));
    assert Streamed(json, EMPTY, frames, true).0
        == [SentDelta(id, name, a), SentCall(id, name, p), SentDelta(id, name, b), SentCall(id, name, q), SentEnd];
  }

  lemma CallsOfTwo(a: Sent, p: Sent, b: Sent, q: Sent)
    requires !a.SentCall? && p.SentCall? && !b.SentCall? && q.SentCall?
    ensures CallsIn([a, p, b, q, SentEnd]) == [p, q]
  {
    var s := [a, p, b, q, SentEnd];
    assert s[1..] == [p, b, q, SentEnd] && s[1..][1..] == [b, q, SentEnd] && s[1..][1..][1..] == [q, SentEnd];
    assert [q, SentEnd][1..] == [SentEnd] && [SentEnd][1..] == [];
    assert CallsIn([SentEnd]) == [] && CallsIn([q, SentEnd]) == [q] && CallsIn([b, q, SentEnd]) == [q];
    assert CallsIn([p, b, q, SentEnd]) == [p, q];
  }
}
