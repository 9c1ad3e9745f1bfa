/** Closing truncated JSON, RFC 8259 (internal/model/provider_openai_compatible.go). */
module JsonCompletion {
  import opened Basics
  import opened Text

  // -------- the grammar --------

  predicate IsCloser(c: char) {
    c == '}' || c == ']'
  }

  predicate IsOpener(c: char) {
    c == '{' || c == '['
  }

  function CloserOf(c: char): char {
    if c == '{' then '}' else ']'
  }

  /** A character of a string: plain, or any one behind a backslash. */
  datatype StringChar = Raw(c: char) | Escape(c: char)

  /** A derivation: characters that are no brackets, strings, and bracketed texts, one after the other. */
  datatype Tree =
    | End
    | Other(c: char, rest: Tree)
    | Quoted(body: seq<StringChar>, rest: Tree)
    | Bracketed(open: char, inner: Tree, rest: Tree)

  predicate GoodChar(x: StringChar) {
    x.Raw? ==> x.c != '"' && x.c != '\\'
  }

  predicate WellFormed(t: Tree) {
    match t
    case End => true
    case Other(c, rest) => c != '"' && !IsOpener(c) && !IsCloser(c) && WellFormed(rest)
    case Quoted(body, rest) => (forall i :: 0 <= i < |body| ==> GoodChar(body[i])) && WellFormed(rest)
    case Bracketed(open, inner, rest) => IsOpener(open) && WellFormed(inner) && WellFormed(rest)
  }

  function ShowChar(x: StringChar): string {
    if x.Raw? then [x.c] else ['\\', x.c]
  }

  function ShowBody(body: seq<StringChar>): string {
    if body == [] then "" else ShowChar(body[0]) + ShowBody(body[1..])
  }

  function Show(t: Tree): string {
    match t
    case End => ""
    case Other(c, rest) => [c] + Show(rest)
    case Quoted(body, rest) => "\"" + (ShowBody(body) + ("\"" + Show(rest)))
    case Bracketed(open, inner, rest) => [open] + (Show(inner) + ([CloserOf(open)] + Show(rest)))
  }

  /** Every bracket outside strings is closed by its own closer, and every string ends. */
  ghost predicate Balanced(s: string) {
    exists t: Tree :: WellFormed(t) && Show(t) == s
  }

  predicate OnlyClosers(s: string) {
    forall i :: 0 <= i < |s| ==> IsCloser(s[i])
  }

  // -------- the scanner --------

  datatype Scanner = Mismatch | At(stack: string, inString: bool, escaped: bool)

  const OUTSIDE := At("", false, false)

  function Step(st: Scanner, r: char): Scanner {
    if st.Mismatch? then st
    else if st.inString then
      if st.escaped then st.(escaped := false)
      else if r == '\\' then st.(escaped := true)
      else if r == '"' then st.(inString := false)
      else st
    else if r == '"' then st.(inString := true)
    else if IsOpener(r) then st.(stack := st.stack + [CloserOf(r)])
    else if IsCloser(r) then
      if st.stack == "" || st.stack[|st.stack| - 1] != r then Mismatch
      else st.(stack := st.stack[..|st.stack| - 1])
    else st
  }

  function Run(st: Scanner, s: string): Scanner
    decreases |s|
  {
    if s == "" then st else Run(Step(st, s[0]), s[1..])
  }

  function Reversed(s: string): (r: string)
    ensures |r| == |s|
  {
    if s == "" then "" else [s[|s| - 1]] + Reversed(s[..|s| - 1])
  }

  /** The text completed, if it can be. */
  function Completed(candidate: string): Option<string> {
    var t := TrimSpace(candidate);
    var st := Run(OUTSIDE, t);
    if t == "" || !IsOpener(t[0]) || st.Mismatch? || st.inString || st.escaped || st.stack == "" then None
    else Some(t + Reversed(st.stack))
  }

  method SafelyCompleteJSONStructure(candidate: string) returns (r: Option<string>)
    ensures r == Completed(candidate)
  {
    hide TrimSpace, IsOpener, Run, Step;
    var t := TrimSpace(candidate);
    if t == "" || !IsOpener(t[0]) {
      return None;
    }
    var st := ScanAll(t);
    if st.Mismatch? || st.inString || st.escaped || |st.stack| == 0 {
      return None;
    }
    var closers := CloseAll(st.stack);
    return Some(t + closers);
  }

  /** The scanning loop; a mismatch ends it early. */
  method ScanAll(t: string) returns (st: Scanner)
    ensures st == Run(OUTSIDE, t)
  {
    hide IsOpener, IsCloser;
    var stack, inString, escaped := "", false, false;
    assert t[0..] == t;
    for i := 0 to |t|
      invariant Run(At(stack, inString, escaped), t[i..]) == Run(OUTSIDE, t)
    {
      var r := t[i];
      RunStep(At(stack, inString, escaped), t, i);
      if inString {
        if escaped {
          escaped := false;
        } else if r == '\\' {
          escaped := true;
        } else if r == '"' {
          inString := false;
        }
      } else if r == '"' {
        inString := true;
      } else if IsOpener(r) {
        stack := stack + [CloserOf(r)];
      } else if IsCloser(r) {
        if stack == "" || stack[|stack| - 1] != r {
          StaysMismatch(t[i + 1..]);
          return Mismatch;
        }
        stack := stack[..|stack| - 1];
      }
    }
    assert t[|t|..] == "";
    st := At(stack, inString, escaped);
  }

  /** The stack written out from its top. */
  method CloseAll(stack: string) returns (closers: string)
    ensures closers == Reversed(stack)
  {
    closers := "";
    assert stack[..|stack|] == stack;
    for i := |stack| downto 0
      invariant closers + Reversed(stack[..i]) == Reversed(stack)
    {
      assert stack[..i + 1][..i] == stack[..i];
      closers := closers + [stack[i]];
    }
    assert stack[..0] == "";
  }

  lemma RunStep(st: Scanner, s: string, i: nat)
    requires i < |s|
    ensures Run(st, s[i..]) == Run(Step(st, s[i]), s[i + 1..])
  {
    hide Step;
    assert s[i..][1..] == s[i + 1..];
  }

  lemma StaysMismatch(s: string)
    ensures Run(Mismatch, s) == Mismatch
    decreases |s|
  {
    if s != "" {
      StaysMismatch(s[1..]);
    }
  }

  lemma {:induction false} RunConcat(st: Scanner, a: string, b: string)
    ensures Run(st, a + b) == Run(Run(st, a), b)
    decreases |a|
  {
    hide Step;
    if a == "" {
      assert a + b == b;
    } else {
      assert (a + b)[1..] == a[1..] + b;
      RunConcat(Step(st, a[0]), a[1..], b);
    }
  }

  lemma RunOne(st: Scanner, c: char)
    ensures Run(st, [c]) == Step(st, c)
  {
    hide Step;
    assert [c][1..] == "";
  }

  // -------- the scanner accepts what the grammar derives --------

  predicate Outside(st: Scanner) {
    st.At? && !st.inString && !st.escaped
  }

  lemma {:induction false} RunBody(stack: string, body: seq<StringChar>)
    requires forall i :: 0 <= i < |body| ==> GoodChar(body[i])
    ensures Run(At(stack, true, false), ShowBody(body)) == At(stack, true, false)
  {
    if body != [] {
      var x := body[0];
      var st := At(stack, true, false);
      assert GoodChar(x);
      RunBody(stack, body[1..]);
      RunConcat(st, ShowChar(x), ShowBody(body[1..]));
      RunOne(st, x.c);
      if x.Escape? {
        assert ['\\', x.c] == ['\\'] + [x.c];
        RunConcat(st, ['\\'], [x.c]);
        RunOne(st, '\\');
        RunOne(At(stack, true, true), x.c);
      }
    }
  }

  /** Scanning a derived text leaves the scanner where it was. */
  lemma {:induction false} RunTree(st: Scanner, t: Tree)
    requires Outside(st) && WellFormed(t)
    ensures Run(st, Show(t)) == st
    decreases t
  {
    match t
    case End =>
    case Other(c, rest) =>
      RunConcat(st, [c], Show(rest));
      RunOne(st, c);
      RunTree(st, rest);
    case Quoted(body, rest) =>
      RunQuoted(st, body, Show(rest));
      RunTree(st, rest);
    case Bracketed(open, inner, rest) =>
      RunTree(st.(stack := st.stack + [CloserOf(open)]), inner);
      RunBracketed(st, open, Show(inner), Show(rest));
      RunTree(st, rest);
  }

  lemma RunQuoted(st: Scanner, body: seq<StringChar>, rest: string)
    requires Outside(st) && forall i :: 0 <= i < |body| ==> GoodChar(body[i])
    ensures Run(st, "\"" + (ShowBody(body) + ("\"" + rest))) == Run(st, rest)
  {
    hide Run;
    var inside := At(st.stack, true, false);
    RunConcat(st, "\"", ShowBody(body) + ("\"" + rest));
    RunOne(st, '"');
    RunConcat(inside, ShowBody(body), "\"" + rest);
    RunBody(st.stack, body);
    RunConcat(inside, "\"", rest);
    RunOne(inside, '"');
  }

  lemma RunBracketed(st: Scanner, open: char, inner: string, rest: string)
    requires Outside(st) && IsOpener(open)
    requires var deeper := st.(stack := st.stack + [CloserOf(open)]); Run(deeper, inner) == deeper
    ensures Run(st, [open] + (inner + ([CloserOf(open)] + rest))) == Run(st, rest)
  {
    hide Run;
    var close := CloserOf(open);
    var deeper := st.(stack := st.stack + [close]);
    RunConcat(st, [open], inner + ([close] + rest));
    RunOne(st, open);
    RunConcat(deeper, inner, [close] + rest);
    RunConcat(deeper, [close], rest);
    RunOne(deeper, close);
    assert deeper.stack[..|st.stack|] == st.stack;
  }

  // -------- the grammar derives what the scanner accepts --------

  /** A string entered is left, or the scanner does not end outside. */
  lemma {:induction false} ParseBody(stack: string, s: string) returns (body: seq<StringChar>, rest: string)
    requires Run(At(stack, true, false), s) == OUTSIDE
    ensures forall i :: 0 <= i < |body| ==> GoodChar(body[i])
    ensures s == ShowBody(body) + ("\"" + rest) && |rest| < |s|
    ensures Run(At(stack, false, false), rest) == OUTSIDE
    decreases |s|
  {
    if s[0] == '"' {
      assert s == ShowBody([]) + ("\"" + s[1..]);
      return [], s[1..];
    }
    if s[0] == '\\' {
      assert s != "\\";
      var c := s[1];
      assert s[1..][1..] == s[2..] && s[1..][0] == c;
      var b, r := ParseBody(stack, s[2..]);
      assert ([Escape(c)] + b)[1..] == b;
      assert s == ['\\', c] + s[2..];
      return [Escape(c)] + b, r;
    }
    var b, r := ParseBody(stack, s[1..]);
    assert ([Raw(s[0])] + b)[1..] == b;
    assert s == [s[0]] + s[1..];
    return [Raw(s[0])] + b, r;
  }

  /** What is read up to the closer of the innermost open bracket, or to the end, is derived. */
  lemma {:induction false} Parse(stack: string, s: string) returns (t: Tree, rest: string)
    requires Run(At(stack, false, false), s) == OUTSIDE
    ensures WellFormed(t) && s == Show(t) + rest
    ensures stack == "" ==> rest == ""
    ensures stack != "" ==> rest != "" && rest[0] == stack[|stack| - 1]
                            && Run(At(stack[..|stack| - 1], false, false), rest[1..]) == OUTSIDE
    decreases |s|
  {
    hide Run;
    if s == "" {
      EndsOutside(stack);
      return End, "";
    }
    RunStep(At(stack, false, false), s, 0);
    assert s[0..] == s && s == [s[0]] + s[1..];
    if s[0] == '"' {
      var body, r := ParseBody(stack, s[1..]);
      t, rest := Parse(stack, r);
      t := Quoted(body, t);
      ShowQuoted(s, body, t.rest, r, rest);
    } else if IsOpener(s[0]) {
      var inner, r := Parse(stack + [CloserOf(s[0])], s[1..]);
      assert (stack + [CloserOf(s[0])])[..|stack|] == stack;
      t, rest := Parse(stack, r[1..]);
      t := Bracketed(s[0], inner, t);
      ShowBracketed(s, inner, t.rest, r, rest);
    } else if IsCloser(s[0]) {
      CloserPops(stack, s[0], s[1..]);
      t, rest := End, s;
    } else {
      t, rest := Parse(stack, s[1..]);
      t := Other(s[0], t);
    }
  }

  lemma EndsOutside(stack: string)
    requires Run(At(stack, false, false), "") == OUTSIDE
    ensures stack == ""
  {
  }

  lemma CloserPops(stack: string, c: char, rest: string)
    requires IsCloser(c) && Run(Step(At(stack, false, false), c), rest) == OUTSIDE
    ensures stack != "" && stack[|stack| - 1] == c && Run(At(stack[..|stack| - 1], false, false), rest) == OUTSIDE
  {
    StaysMismatch(rest);
  }

  lemma ShowQuoted(s: string, body: seq<StringChar>, t: Tree, r: string, rest: string)
    requires s != "" && s[0] == '"' && s[1..] == ShowBody(body) + ("\"" + r) && r == Show(t) + rest
    ensures s == Show(Quoted(body, t)) + rest
  {
    assert s == "\"" + s[1..];
  }

  lemma ShowBracketed(s: string, inner: Tree, t: Tree, r: string, rest: string)
    requires s != "" && IsOpener(s[0]) && s[1..] == Show(inner) + r && r != "" && r[0] == CloserOf(s[0]) && r[1..] == Show(t) + rest
    ensures s == Show(Bracketed(s[0], inner, t)) + rest
  {
    assert s == [s[0]] + s[1..] && r == [r[0]] + r[1..];
  }

  /** The scanner ends outside every bracket and string exactly on the balanced texts. */
  lemma ScannerDecidesBalance(s: string)
    ensures Balanced(s) <==> Run(OUTSIDE, s) == OUTSIDE
  {
    hide Run, Show;
    if Balanced(s) {
      var t :| WellFormed(t) && Show(t) == s;
      RunTree(OUTSIDE, t);
    }
    if Run(OUTSIDE, s) == OUTSIDE {
      var t, rest := Parse("", s);
      assert Show(t) + "" == Show(t);
    }
  }

  // -------- what completes a text --------

  lemma {:induction false} ReversedCloses(stack: string)
    requires OnlyClosers(stack)
    ensures Run(At(stack, false, false), Reversed(stack)) == OUTSIDE
    ensures OnlyClosers(Reversed(stack))
  {
    if stack != "" {
      var front, top := stack[..|stack| - 1], stack[|stack| - 1];
      assert IsCloser(top);
      ReversedCloses(front);
      assert Reversed(stack)[1..] == Reversed(front);
    }
  }

  lemma {:induction false} StackHoldsClosers(st: Scanner, s: string)
    requires st.At? ==> OnlyClosers(st.stack) && (st.escaped ==> st.inString)
    ensures Run(st, s).At? ==> OnlyClosers(Run(st, s).stack) && (Run(st, s).escaped ==> Run(st, s).inString)
    decreases |s|
  {
    if s != "" {
      StackHoldsClosers(Step(st, s[0]), s[1..]);
    }
  }

  /** A character closes one bracket at most. */
  lemma {:induction false} NoFasterThanOne(st: Scanner, w: string)
    requires st.At? && Run(st, w) == OUTSIDE
    ensures |w| >= |st.stack|
    decreases |w|
  {
    if w != "" {
      var next := Step(st, w[0]);
      StaysMismatch(w[1..]);
      NoFasterThanOne(next, w[1..]);
    }
  }

  lemma {:induction false} OnlyReversedIsShortest(stack: string, w: string)
    requires Run(At(stack, false, false), w) == OUTSIDE && |w| == |stack|
    ensures w == Reversed(stack)
    decreases |w|
  {
    if w != "" {
      var st := At(stack, false, false);
      var next := Step(st, w[0]);
      StaysMismatch(w[1..]);
      NoFasterThanOne(next, w[1..]);
      assert next == At(stack[..|stack| - 1], false, false) && w[0] == stack[|stack| - 1];
      OnlyReversedIsShortest(stack[..|stack| - 1], w[1..]);
      assert w == [w[0]] + w[1..];
    }
  }

  /** Closers close nothing inside a string; outside, each closes one bracket. */
  lemma {:induction false} ClosersClose(st: Scanner, w: string)
    requires st.At? && OnlyClosers(w) && (st.escaped ==> st.inString) && Run(st, w) == OUTSIDE
    ensures Outside(st) && |w| == |st.stack|
    decreases |w|
  {
    if w != "" {
      assert IsCloser(w[0]);
      StaysMismatch(w[1..]);
      ClosersClose(Step(st, w[0]), w[1..]);
    }
  }

  /**
   The completer succeeds exactly when the trimmed text opens a bracket first and some
   non-empty string of closers balances it.
   */
  lemma CompletesExactlyWhenClosersSuffice(candidate: string)
    ensures var t := TrimSpace(candidate);
            Completed(candidate).Some? <==>
              t != "" && IsOpener(t[0]) && exists w :: w != "" && OnlyClosers(w) && Balanced(t + w)
  {
    hide Run, TrimSpace, OnlyClosers, Balanced;
    var t := TrimSpace(candidate);
    var st := Run(OUTSIDE, t);
    StartsClean();
    StackHoldsClosers(OUTSIDE, t);
    if Completed(candidate).Some? {
      ReversedCloses(st.stack);
      RunConcat(OUTSIDE, t, Reversed(st.stack));
      ScannerDecidesBalance(t + Reversed(st.stack));
    }
    forall w | w != "" && OnlyClosers(w) && Balanced(t + w) ensures Outside(st) && st.stack != "" {
      RunConcat(OUTSIDE, t, w);
      ScannerDecidesBalance(t + w);
      StaysMismatch(w);
      ClosersClose(st, w);
    }
  }

  lemma StartsClean()
    ensures OnlyClosers("")
  {
  }

  /** The result is the trimmed text and the one shortest string that balances it, among all strings. */
  lemma CompletionIsShortest(candidate: string, w: string)
    requires Completed(candidate).Some?
    ensures var t, r := TrimSpace(candidate), Completed(candidate).value;
            && t <= r && Balanced(r) && r != t && OnlyClosers(r[|t|..])
            && (Balanced(t + w) ==> |t + w| >= |r| && (|t + w| == |r| ==> t + w == r))
  {
    hide Run, TrimSpace, OnlyClosers, Balanced;
    var t := TrimSpace(candidate);
    var st := Run(OUTSIDE, t);
    StartsClean();
    StackHoldsClosers(OUTSIDE, t);
    ReversedCloses(st.stack);
    RunConcat(OUTSIDE, t, Reversed(st.stack));
    ScannerDecidesBalance(t + Reversed(st.stack));
    assert (t + Reversed(st.stack))[|t|..] == Reversed(st.stack);
    if Balanced(t + w) {
      ScannerDecidesBalance(t + w);
      RunConcat(OUTSIDE, t, w);
      NoFasterThanOne(st, w);
      if |w| == |st.stack| {
        OnlyReversedIsShortest(st.stack, w);
      }
    }
  }

  /** A completed text cannot be completed again. */
  lemma CompletedIsNotCompletable(candidate: string)
    requires Completed(candidate).Some?
    ensures Completed(Completed(candidate).value) == None
  {
    hide Run, Balanced;
    var t, r := TrimSpace(candidate), Completed(candidate).value;
    CompletionIsShortest(candidate, "");
    ScannerDecidesBalance(r);
    TrimmedEnds(t, r);
    TrimSpaceTrims(r);
  }

  lemma TrimmedEnds(t: string, r: string)
    requires t != "" && t <= r && r != t && IsOpener(t[0]) && OnlyClosers(r[|t|..])
    ensures Trimmed(r)
  {
    assert r[|r| - 1] == r[|t|..][|r| - 1 - |t|];
    assert IsCloser(r[|r| - 1]);
    assert r[0] == t[0];
  }
}
