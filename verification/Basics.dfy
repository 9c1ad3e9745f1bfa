/** Datatypes and sequence facts shared by the other modules. */
module Basics {

  datatype Option<+T> = None | Some(value: T) {
    function GetOr(default: T): T {
      if Some? then value else default
    }
  }

  /** The value, if any, as a list. */
  function Listed<T>(o: Option<T>): seq<T> {
    if o.Some? then [o.value] else []
  }

  /** An error of the store; a busy database may be asked again. */
  datatype StoreError = DatabaseBusy | OtherError

  datatype Result<+T, +E> = Ok(value: T) | Err(error: E)

  ghost predicate Distinct<T>(s: seq<T>) {
    forall i, j :: 0 <= i < j < |s| ==> s[i] != s[j]
  }

  /** The index of the first occurrence of x. */
  function Pos<T(==)>(s: seq<T>, x: T): (p: nat)
    requires x in s
    ensures p < |s| && s[p] == x
    ensures forall i :: 0 <= i < p ==> s[i] != x
  {
    if s[0] == x then 0 else 1 + Pos(s[1..], x)
  }

  lemma PosAppend<T>(s: seq<T>, x: T, y: T)
    requires x in s
    ensures x in s + [y] && Pos(s + [y], x) == Pos(s, x)
  {
    assert (s + [y])[Pos(s, x)] == x;
  }
}
