// Assembling streamed tool calls from interleaved events: the tracker as a value
// and as the class that is updated in place (internal/model/provider_openai_compatible.go).
module ToolCallTracker {
  import opened Basics
  import opened Text
  import opened ToolArguments

  datatype Meta = Meta(callId: string, name: string)

  const NO_META := Meta("", "")

  datatype Frame =
    | ItemAdded(itemId: string, callId: string, name: string, functionCall: bool)
    | TextArrived(delta: string, text: string)
    | ArgumentsDelta(itemId: string, name: string, delta: string)
    | ArgumentsDone(itemId: string, name: string, arguments: string)
    | Completed
    | Undecodable
    | Ignored

  datatype Sent =
    | SentText(text: string)
    | SentDelta(id: string, name: string, chunk: string)
    | SentCall(id: string, name: string, arguments: Parsed)
    | SentEnd

  datatype Error = BadFrame | BadCall | ReadFailed | EndedEarly

  // -------- what the tracker holds, as a value --------

  datatype State = State(calls: map<string, Meta>, deltas: map<string, string>, done: map<string, string>, order: seq<string>)

  function Found<T>(m: map<string, T>, key: string, default: T): T {
    if key in m then m[key] else default
  }

  function Renamed(meta: Meta, callId: string, name: string): Meta {
    Meta(if callId != "" then callId else meta.callId, if name != "" then name else meta.name)
  }

  function Remembered(t: State, itemId: string, callId: string, name: string): State {
    if itemId == "" then t
    else t.(order := if itemId in t.calls then t.order else t.order + [itemId],
            calls := t.calls[itemId := Renamed(Found(t.calls, itemId, NO_META), callId, name)])
  }

  function Resolved(t: State, itemId: string, name: string): (string, string) {
    var meta := Found(t.calls, itemId, NO_META);
    (if meta.callId == "" then itemId else meta.callId, if name == "" then meta.name else name)
  }

  function Extended(t: State, itemId: string, delta: string): State {
    if itemId == "" || delta == "" then t
    else t.(deltas := t.deltas[itemId := Found(t.deltas, itemId, "") + delta])
  }

  function Forgotten(t: State, itemId: string): State {
    t.(calls := t.calls - {itemId}, deltas := t.deltas - {itemId}, done := t.done - {itemId})
  }

  /** The call sent for an item, unless its id is blank; or its arguments fail to decode. */
  function Finalized(json: Json, t: State, itemId: string, name: string): Result<(State, seq<Sent>), Error> {
    if IsBlank(itemId) then Ok((t, []))
    else
      var arguments := Decoded(json, Found(t.deltas, itemId, ""), Found(t.done, itemId, ""));
      if arguments.Err? then Err(BadCall)
      else
        var who := Resolved(t, itemId, name);
        Ok((Forgotten(t, itemId), [SentCall(who.0, who.1, arguments.value)]))
  }

  class FunctionCallTracker {
    var calls: map<string, Meta>
    var deltas: map<string, string>
    var done: map<string, string>
    var order: seq<string>
    var events: seq<Sent>

    function Held(): State
      reads this
    {
      State(calls, deltas, done, order)
    }

    constructor ()
      ensures Held() == State(map[], map[], map[], []) && events == []
    {
      calls, deltas, done, order, events := map[], map[], map[], [], [];
    }

    method Send(event: Sent)
      modifies this`events
      ensures events == old(events) + [event]
    {
      events := events + [event];
    }

    method Remember(itemId: string, callId: string, name: string)
      modifies this`calls, this`order
      ensures Held() == Remembered(old(Held()), itemId, callId, name)
    {
      if itemId == "" {
        return;
      }
      if itemId !in calls {
        order := order + [itemId];
      }
      var meta := if itemId in calls then calls[itemId] else NO_META;
      if callId != "" {
        meta := meta.(callId := callId);
      }
      if name != "" {
        meta := meta.(name := name);
      }
      calls := calls[itemId := meta];
    }

    method AppendDelta(itemId: string, delta: string)
      modifies this`deltas
      ensures Held() == Extended(old(Held()), itemId, delta)
    {
      if itemId == "" || delta == "" {
        return;
      }
      deltas := deltas[itemId := (if itemId in deltas then deltas[itemId] else "") + delta];
    }

    method MarkDone(itemId: string, arguments: string)
      modifies this`done
      ensures done == old(done)[itemId := arguments]
    {
      done := done[itemId := arguments];
    }

    /** Decoding failed: nothing has changed. */
    method Finalize(json: Json, itemId: string, name: string) returns (ok: bool)
      modifies this
      ensures match Finalized(json, old(Held()), itemId, name)
              case Ok((t, sent)) => ok && Held() == t && events == old(events) + sent
              case Err(_) => !ok && Held() == old(Held()) && events == old(events)
    {
      hide IsBlank, Decoded;
      if IsBlank(itemId) {
        return true;
      }
      var who := Resolved(Held(), itemId, name);
      var parsed := ParseFunctionCallArguments(json, Found(deltas, itemId, ""), Found(done, itemId, ""));
      if parsed.Err? {
        return false;
      }
      calls := calls - {itemId};
      deltas := deltas - {itemId};
      done := done - {itemId};
      Send(SentCall(who.0, who.1, parsed.value));
      ok := true;
    }

    method FinalizeOutstanding(json: Json) returns (ok: bool)
      modifies this
      ensures var r := AllFinalized(json, old(Held()), old(order));
              ok == r.2 && Held() == r.0 && events == old(events) + r.1
    {
      hide Finalized;
      ghost var all := AllFinalized(json, Held(), order);
      var ids := order;
      assert ids[0..] == ids;
      for i := 0 to |ids|
        invariant var r := AllFinalized(json, Held(), ids[i..]); all.0 == r.0 && all.2 == r.2 && old(events) + all.1 == events + r.1
      {
        assert ids[i..][1..] == ids[i + 1..];
        if ids[i] in calls {
          var done := Finalize(json, ids[i], "");
          if !done {
            return false;
          }
        }
      }
      ok := true;
    }

    /** The switch over one event; the second result is false when the stream ends with an error. */
    method HandleFrame(json: Json, frame: Frame) returns (error: Option<Error>)
      modifies this
      ensures var r := Handled(json, old(Held()), frame);
              Held() == r.0 && events == old(events) + r.1 && error == r.2
    {
      hide Finalized, AllFinalized;
      error := None;
      match frame
      case ItemAdded(itemId, callId, name, functionCall) =>
        if functionCall {
          Remember(itemId, callId, name);
        }
      case TextArrived(delta, text) =>
        var shown := if delta != "" then delta else text;
        if shown != "" {
          Send(SentText(shown));
        }
      case ArgumentsDelta(itemId, name, delta) =>
        Remember(itemId, "", name);
        var who := Resolved(Held(), itemId, name);
        AppendDelta(itemId, delta);
        Send(SentDelta(who.0, who.1, delta));
        if itemId != "" && itemId in done {
          var finalized := Finalize(json, itemId, name);
        }
      case ArgumentsDone(itemId, name, arguments) =>
        Remember(itemId, "", name);
        MarkDone(itemId, arguments);
      case Completed =>
        var ok := FinalizeOutstanding(json);
        if !ok {
          return Some(BadCall);
        }
        Send(SentEnd);
      case Undecodable => return Some(BadFrame);
      case Ignored =>
    }

    /** The loop over the frames of a response, which ends with an end of file or a failed read. */
    method Stream(json: Json, frames: seq<Frame>, eof: bool) returns (error: Option<Error>)
      modifies this
      ensures var r := Streamed(json, old(Held()), frames, eof);
              events == old(events) + r.0 && error == r.1
    {
      hide Handled;
      ghost var whole := Streamed(json, Held(), frames, eof);
      var sawMessageEnd := false;
      assert frames[0..] == frames;
      for i := 0 to |frames|
        invariant if sawMessageEnd then events == old(events) + whole.0 && whole.1 == AtEnd(true, eof)
                  else var r := Streamed(json, Held(), frames[i..], eof); old(events) + whole.0 == events + r.0 && whole.1 == r.1
      {
        if !sawMessageEnd {
          StreamedOne(json, Held(), frames, i, eof);
          error := HandleFrame(json, frames[i]);
          if error.Some? {
            return;
          }
          if frames[i].Completed? {
            sawMessageEnd := true;
          }
        }
      }
      assert frames[|frames|..] == [];
      error := AtEnd(sawMessageEnd, eof);
    }
  }

  function AtEnd(sawMessageEnd: bool, eof: bool): Option<Error> {
    if !eof then Some(ReadFailed) else if sawMessageEnd then None else Some(EndedEarly)
  }

  /** The calls sent for the listed items that are still open, up to the first that fails. */
  function AllFinalized(json: Json, t: State, ids: seq<string>): (State, seq<Sent>, bool)
    decreases |ids|
  {
    if ids == [] then (t, [], true)
    else if ids[0] !in t.calls then AllFinalized(json, t, ids[1..])
    else
      match Finalized(json, t, ids[0], "")
      case Err(_) => (t, [], false)
      case Ok((t', sent)) =>
        var r := AllFinalized(json, t', ids[1..]);
        (r.0, sent + r.1, r.2)
  }

  function Handled(json: Json, t: State, frame: Frame): (State, seq<Sent>, Option<Error>) {
    match frame
    case ItemAdded(itemId, callId, name, functionCall) => (if functionCall then Remembered(t, itemId, callId, name) else t, [], None)
    case TextArrived(delta, text) =>
      var shown := if delta != "" then delta else text;
      (t, if shown != "" then [SentText(shown)] else [], None)
    case ArgumentsDelta(itemId, name, delta) =>
      var t1 := Remembered(t, itemId, "", name);
      var who := Resolved(t1, itemId, name);
      var t2 := Extended(t1, itemId, delta);
      var chunk := SentDelta(who.0, who.1, delta);
      if itemId != "" && itemId in t2.done && Finalized(json, t2, itemId, name).Ok? then
        var r := Finalized(json, t2, itemId, name).value;
        (r.0, [chunk] + r.1, None)
      else (t2, [chunk], None)
    case ArgumentsDone(itemId, name, arguments) =>
      var t1 := Remembered(t, itemId, "", name);
      (t1.(done := t1.done[itemId := arguments]), [], None)
    case Completed =>
      var r := AllFinalized(json, t, t.order);
      if r.2 then (r.0, r.1 + [SentEnd], None) else (r.0, r.1, Some(BadCall))
    case Undecodable => (t, [], Some(BadFrame))
    case Ignored => (t, [], None)
  }

  /** Everything sent for the frames, and how the stream ends. Frames behind the completion are passed over. */
  function Streamed(json: Json, t: State, frames: seq<Frame>, eof: bool): (seq<Sent>, Option<Error>)
    decreases |frames|
  {
    if frames == [] then ([], AtEnd(false, eof))
    else
      var r := Handled(json, t, frames[0]);
      if r.2.Some? then (r.1, r.2)
      else if frames[0].Completed? then (r.1, AtEnd(true, eof))
      else
        var rest := Streamed(json, r.0, frames[1..], eof);
        (r.1 + rest.0, rest.1)
  }

  lemma StreamedOne(json: Json, t: State, frames: seq<Frame>, i: nat, eof: bool)
    requires i < |frames|
    ensures var r := Handled(json, t, frames[i]);
            var s := Streamed(json, t, frames[i..], eof);
            if r.2.Some? then s == (r.1, r.2)
            else if frames[i].Completed? then s == (r.1, AtEnd(true, eof))
            else var rest := Streamed(json, r.0, frames[i + 1..], eof); s == (r.1 + rest.0, rest.1)
  {
    hide Handled;
    assert frames[i..][1..] == frames[i + 1..];
  }
}
