// Decoding the arguments of a streamed tool call from its deltas and its snapshot
// (internal/model/provider_openai_compatible.go).
module ToolArguments {
  import opened Basics
  import opened Text
  import opened JsonCompletion

  type Arguments = map<string, string>

  /** encoding/json: what decodes to an object, what to a string, and which failures are an unexpected end of input. */
  datatype Json = Json(asObject: string -> Option<Arguments>, asText: string -> Option<string>, cutShort: string -> bool)

  datatype Parsed = Parsed(input: Arguments, raw: string, recovery: string)
  datatype Failure = BadArguments

  function Unquoted(json: Json, candidate: string): string {
    var c := TrimSpace(candidate);
    if |c| < 2 || c[0] != '"' || c[|c| - 1] != '"' || json.asText(c).None? then c
    else
      var decoded := TrimSpace(json.asText(c).value);
      if decoded != "" && (decoded[0] == '{' || decoded[0] == '[') then decoded else c
  }

  function Candidates(preferred: string, fallback: string): seq<string> {
    (if preferred != "" then [preferred] else []) + (if fallback != "" && fallback != preferred then [fallback] else [])
  }

  predicate LooksCutShort(json: Json, candidate: string) {
    var c := TrimSpace(candidate);
    c != "" && HasPrefix(c, "{") && json.cutShort(c)
  }

  function CompletedObject(json: Json, candidate: string): Option<Arguments> {
    var repaired := Completed(candidate);
    if repaired.None? then None else json.asObject(repaired.value)
  }

  /** The first candidate that decodes, if any. */
  function FirstObject(json: Json, candidates: seq<string>): Option<Parsed>
    decreases |candidates|
  {
    if candidates == [] then None
    else
      var input := json.asObject(Unquoted(json, candidates[0]));
      if input.Some? then Some(Parsed(input.value, "", "")) else FirstObject(json, candidates[1..])
  }

  /** The first candidate that decodes when its brackets are closed, if any. */
  function FirstCompleted(json: Json, candidates: seq<string>): Option<Parsed>
    decreases |candidates|
  {
    if candidates == [] then None
    else
      var candidate := Unquoted(json, candidates[0]);
      var input := CompletedObject(json, candidate);
      if input.Some? then Some(Parsed(input.value, candidate, "structure_completed")) else FirstCompleted(json, candidates[1..])
  }

  predicate AllCutShort(json: Json, candidates: seq<string>) {
    forall i :: 0 <= i < |candidates| ==> LooksCutShort(json, Unquoted(json, candidates[i]))
  }

  function RawOf(json: Json, preferred: string, fallback: string): string {
    var raw := TrimSpace(Unquoted(json, preferred));
    if raw != "" then raw else TrimSpace(Unquoted(json, fallback))
  }

  /** The arguments decoded from the streamed deltas (preferred) and the final snapshot (fallback). */
  function Decoded(json: Json, preferred: string, fallback: string): Result<Parsed, Failure> {
    var p, f := TrimSpace(preferred), TrimSpace(fallback);
    var cs := Candidates(p, f);
    if cs == [] then Ok(Parsed(map[], "", ""))
    else if FirstObject(json, cs).Some? then Ok(FirstObject(json, cs).value)
    else if FirstCompleted(json, cs).Some? then Ok(FirstCompleted(json, cs).value)
    else if AllCutShort(json, cs) then Ok(Parsed(map[], RawOf(json, p, f), "incomplete_fallback"))
    else Err(BadArguments)
  }

  method ParseFunctionCallArguments(json: Json, preferred: string, fallback: string) returns (r: Result<Parsed, Failure>)
    ensures r == Decoded(json, preferred, fallback)
  {
    hide Unquoted, Completed, TrimSpace, CompletedObject, LooksCutShort, RawOf;
    var p, f := TrimSpace(preferred), TrimSpace(fallback);
    if p == "" && f == "" {
      return Ok(Parsed(map[], "", ""));
    }
    var cs := Candidates(p, f);
    var allCutShort := true;
    assert cs[0..] == cs;
    for i := 0 to |cs|
      invariant FirstObject(json, cs) == FirstObject(json, cs[i..])
      invariant allCutShort <==> AllCutShort(json, cs[..i])
    {
      assert cs[i..][1..] == cs[i + 1..];
      var candidate := Unquoted(json, cs[i]);
      var input := json.asObject(candidate);
      if input.Some? {
        return Ok(Parsed(input.value, "", ""));
      }
      assert cs[..i + 1] == cs[..i] + [cs[i]];
      if !LooksCutShort(json, candidate) {
        allCutShort := false;
      }
    }
    assert cs[..|cs|] == cs;
    for i := 0 to |cs|
      invariant FirstCompleted(json, cs) == FirstCompleted(json, cs[i..])
    {
      assert cs[i..][1..] == cs[i + 1..];
      var candidate := Unquoted(json, cs[i]);
      var repaired := SafelyCompleteJSONStructure(candidate);
      CompletedObjectOf(json, candidate);
      if repaired.Some? {
        var input := json.asObject(repaired.value);
        if input.Some? {
          return Ok(Parsed(input.value, candidate, "structure_completed"));
        }
      }
    }
    if allCutShort {
      return Ok(Parsed(map[], RawOf(json, p, f), "incomplete_fallback"));
    }
    return Err(BadArguments);
  }

  lemma CompletedObjectOf(json: Json, candidate: string)
    ensures CompletedObject(json, candidate) == if Completed(candidate).None? then None else json.asObject(Completed(candidate).value)
  {
    hide Completed;
  }

  /** Deltas that decode are what counts, whatever the snapshot says. */
  lemma WholeDeltasWin(json: Json, deltas: string, snapshot: string)
    requires !IsBlank(deltas) && json.asObject(Unquoted(json, TrimSpace(deltas))).Some?
    ensures Decoded(json, deltas, snapshot) == Ok(Parsed(json.asObject(Unquoted(json, TrimSpace(deltas))).value, "", ""))
  {
    BlankIffTrimmedEmpty(deltas);
    hide Unquoted, TrimSpace, CompletedObject, LooksCutShort, RawOf, IsBlank;
  }

  /** Without deltas the snapshot decides. */
  lemma SnapshotIsFallback(json: Json, deltas: string, snapshot: string)
    requires IsBlank(deltas)
    ensures Decoded(json, deltas, snapshot) == Decoded(json, snapshot, "")
  {
    BlankIffTrimmedEmpty(deltas);
    hide Unquoted, TrimSpace, CompletedObject, LooksCutShort, IsBlank;
    BlankRaw(json);
    var f := TrimSpace(snapshot);
    assert Candidates("", f) == Candidates(f, "");
    assert RawOf(json, "", f) == TrimSpace(Unquoted(json, f));
    assert RawOf(json, f, "") == TrimSpace(Unquoted(json, f));
  }

  lemma BlankRaw(json: Json)
    ensures TrimSpace("") == "" && TrimSpace(Unquoted(json, "")) == ""
  {
  }

  /** Decoding fails exactly when something was sent, nothing of it is or completes to an object, and not all of it is merely cut short. */
  lemma FailsExactlyWhen(json: Json, preferred: string, fallback: string)
    ensures var cs := Candidates(TrimSpace(preferred), TrimSpace(fallback));
            Decoded(json, preferred, fallback).Err? <==>
              && (forall i :: 0 <= i < |cs| ==> json.asObject(Unquoted(json, cs[i])).None?
                                                && CompletedObject(json, Unquoted(json, cs[i])).None?)
              && (exists i :: 0 <= i < |cs| && !LooksCutShort(json, Unquoted(json, cs[i])))
  {
    hide Unquoted, TrimSpace, CompletedObject, LooksCutShort, RawOf;
    var cs := Candidates(TrimSpace(preferred), TrimSpace(fallback));
    NoObject(json, cs);
    NoCompleted(json, cs);
  }

  /** Only an object begun is cut short. */
  lemma CutShortExactlyWhen(json: Json, candidate: string)
    ensures var c := TrimSpace(candidate); LooksCutShort(json, candidate) <==> c != "" && c[0] == '{' && json.cutShort(c)
  {
    hide TrimSpace;
    assert "{"[0] == '{';
  }

  lemma NoObject(json: Json, cs: seq<string>)
    ensures FirstObject(json, cs).None? <==> forall i :: 0 <= i < |cs| ==> json.asObject(Unquoted(json, cs[i])).None?
    decreases |cs|
  {
    hide Unquoted;
    if cs != [] {
      NoObject(json, cs[1..]);
      assert forall i :: 0 < i < |cs| ==> cs[i] == cs[1..][i - 1];
    }
  }

  lemma NoCompleted(json: Json, cs: seq<string>)
    ensures FirstCompleted(json, cs).None? <==> forall i :: 0 <= i < |cs| ==> CompletedObject(json, Unquoted(json, cs[i])).None?
    decreases |cs|
  {
    hide Unquoted, CompletedObject;
    if cs != [] {
      NoCompleted(json, cs[1..]);
      assert forall i :: 0 < i < |cs| ==> cs[i] == cs[1..][i - 1];
    }
  }

  /** The first candidate of which something holds. */
  ghost predicate First(holds: string -> bool, json: Json, cs: seq<string>, i: nat) {
    i < |cs| && holds(Unquoted(json, cs[i])) && forall j :: 0 <= j < i ==> !holds(Unquoted(json, cs[j]))
  }

  lemma {:induction false} FirstObjectIs(json: Json, cs: seq<string>)
    ensures var r := FirstObject(json, cs);
            r.Some? ==> exists i: nat :: First(c => json.asObject(c).Some?, json, cs, i)
                                         && r.value == Parsed(json.asObject(Unquoted(json, cs[i])).value, "", "")
    decreases |cs|
  {
    hide Unquoted;
    var holds := (c: string) => json.asObject(c).Some?;
    if cs != [] && json.asObject(Unquoted(json, cs[0])).Some? {
      assert First(holds, json, cs, 0);
    } else if cs != [] && FirstObject(json, cs).Some? {
      FirstObjectIs(json, cs[1..]);
      var i: nat :| First(holds, json, cs[1..], i) && FirstObject(json, cs[1..]).value == Parsed(json.asObject(Unquoted(json, cs[1..][i])).value, "", "");
      FirstShifts(holds, json, cs, i);
    }
  }

  lemma FirstShifts(holds: string -> bool, json: Json, cs: seq<string>, i: nat)
    requires cs != [] && !holds(Unquoted(json, cs[0])) && First(holds, json, cs[1..], i)
    ensures First(holds, json, cs, i + 1) && cs[i + 1] == cs[1..][i]
  {
    hide Unquoted;
    forall j | 0 <= j < i + 1 ensures !holds(Unquoted(json, cs[j])) {
      if j > 0 {
        assert cs[j] == cs[1..][j - 1];
      }
    }
  }

  lemma {:induction false} FirstCompletedIs(json: Json, cs: seq<string>)
    ensures var r := FirstCompleted(json, cs);
            r.Some? ==> exists i: nat :: First(c => CompletedObject(json, c).Some?, json, cs, i)
                                         && r.value == Parsed(CompletedObject(json, Unquoted(json, cs[i])).value, Unquoted(json, cs[i]), "structure_completed")
    decreases |cs|
  {
    hide Unquoted, CompletedObject;
    var holds := (c: string) => CompletedObject(json, c).Some?;
    if cs != [] && CompletedObject(json, Unquoted(json, cs[0])).Some? {
      assert First(holds, json, cs, 0);
    } else if cs != [] && FirstCompleted(json, cs).Some? {
      FirstCompletedIs(json, cs[1..]);
      var i: nat :| First(holds, json, cs[1..], i)
                    && FirstCompleted(json, cs[1..]).value
                       == Parsed(CompletedObject(json, Unquoted(json, cs[1..][i])).value, Unquoted(json, cs[1..][i]), "structure_completed");
      FirstShifts(holds, json, cs, i);
    }
  }

  /**
   What the arguments are when there is no error: nothing was sent; or the first candidate that decodes; or,
   if none does, the first that decodes once its brackets are closed; or else nothing, with what was cut short.
   */
  lemma DecodedIs(json: Json, preferred: string, fallback: string)
    ensures var cs := Candidates(TrimSpace(preferred), TrimSpace(fallback));
            var r := Decoded(json, preferred, fallback);
            r.Ok? ==>
              || (cs == [] && r.value == Parsed(map[], "", ""))
              || (exists i: nat :: First(c => json.asObject(c).Some?, json, cs, i)
                                   && r.value == Parsed(json.asObject(Unquoted(json, cs[i])).value, "", ""))
              || ((forall i :: 0 <= i < |cs| ==> json.asObject(Unquoted(json, cs[i])).None?)
                  && exists i: nat :: First(c => CompletedObject(json, c).Some?, json, cs, i)
                                      && r.value == Parsed(CompletedObject(json, Unquoted(json, cs[i])).value, Unquoted(json, cs[i]), "structure_completed"))
              || ((forall i :: 0 <= i < |cs| ==> json.asObject(Unquoted(json, cs[i])).None? && CompletedObject(json, Unquoted(json, cs[i])).None?)
                  && cs != [] && (forall i :: 0 <= i < |cs| ==> LooksCutShort(json, Unquoted(json, cs[i])))
                  && r.value.input == map[] && r.value.recovery == "incomplete_fallback"
                  && exists c :: c in cs && r.value.raw == TrimSpace(Unquoted(json, c)))
  {
    hide Unquoted, TrimSpace, CompletedObject, LooksCutShort, FirstObject, FirstCompleted;
    var p, f := TrimSpace(preferred), TrimSpace(fallback);
    var cs := Candidates(p, f);
    NoObject(json, cs);
    NoCompleted(json, cs);
    FirstObjectIs(json, cs);
    FirstCompletedIs(json, cs);
    BlankRaw(json);
    if p == "" && f != "" {
      assert cs == [f];
    }
    if cs != [] && AllCutShort(json, cs) {
      CutShortIsNotBlank(json, cs[0]);
      assert cs[0] == if p != "" then p else f;
    }
  }

  lemma CutShortIsNotBlank(json: Json, c: string)
    requires LooksCutShort(json, Unquoted(json, c))
    ensures TrimSpace(Unquoted(json, c)) != ""
  {
    hide Unquoted;
  }

  /** A candidate is unquoted only if it is a quoted text that holds an object or a list. */
  lemma UnquotedExactlyWhen(json: Json, candidate: string)
    ensures var c, r := TrimSpace(candidate), Unquoted(json, candidate);
            r != c ==> |c| >= 2 && c[0] == '"' && c[|c| - 1] == '"' && json.asText(c).Some? && r == TrimSpace(json.asText(c).value)
                       && r != "" && (r[0] == '{' || r[0] == '[')
    ensures var c := TrimSpace(candidate);
            |c| >= 2 && c[0] == '"' && c[|c| - 1] == '"' && json.asText(c).Some? ==>
              var inner := TrimSpace(json.asText(c).value);
              inner != "" && (inner[0] == '{' || inner[0] == '[') ==> Unquoted(json, candidate) == inner
  {
    hide TrimSpace;
  }
}
