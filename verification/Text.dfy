/** The string operations of Go's strings and strconv packages that the other modules rely on. */
module Text {
  import opened Basics

  /** unicode.IsSpace */
  predicate IsSpace(c: char) {
    || '\t' <= c <= '\r'
    || c == ' ' || c == '\U{85}' || c == '\U{A0}' || c == '\U{1680}'
    || '\U{2000}' <= c <= '\U{200A}'
    || c == '\U{2028}' || c == '\U{2029}' || c == '\U{202F}' || c == '\U{205F}' || c == '\U{3000}'
  }

  function TrimLeft(s: string): (t: string)
    ensures |t| <= |s|
  {
    if s != [] && IsSpace(s[0]) then TrimLeft(s[1..]) else s
  }

  function TrimRight(s: string): (t: string)
    ensures t <= s
  {
    if s != [] && IsSpace(s[|s| - 1]) then TrimRight(s[..|s| - 1]) else s
  }

  lemma {:induction false} TrimLeftFacts(s: string)
    ensures var t := TrimLeft(s);
            t == s[|s| - |t|..] && (t == [] || !IsSpace(t[0])) && IsBlank(s[..|s| - |t|])
  {
    hide IsSpace;
    if s != [] && IsSpace(s[0]) {
      TrimLeftFacts(s[1..]);
      var t := TrimLeft(s);
      assert s[..|s| - |t|] == [s[0]] + s[1..][..|s| - 1 - |t|];
    }
  }

  lemma {:induction false} TrimRightFacts(s: string)
    ensures var t := TrimRight(s);
            (t == [] || !IsSpace(t[|t| - 1])) && IsBlank(s[|t|..])
  {
    hide IsSpace;
    if s != [] && IsSpace(s[|s| - 1]) {
      TrimRightFacts(s[..|s| - 1]);
      var t := TrimRight(s);
      assert s[|t|..] == s[..|s| - 1][|t|..] + [s[|s| - 1]];
    }
  }

  /** strings.TrimSpace */
  function TrimSpace(s: string): string {
    TrimRight(TrimLeft(s))
  }

  predicate Trimmed(s: string) {
    s == [] || (!IsSpace(s[0]) && !IsSpace(s[|s| - 1]))
  }

  /** Only white space: what the program tests as TrimSpace(s) == "". */
  predicate IsBlank(s: string) {
    forall i :: 0 <= i < |s| ==> IsSpace(s[i])
  }

  lemma BlankIffTrimmedEmpty(s: string)
    ensures IsBlank(s) <==> TrimSpace(s) == ""
  {
    hide IsSpace;
    var t := TrimLeft(s);
    TrimLeftFacts(s);
    TrimRightFacts(t);
    assert t != [] ==> t[0] == s[|s| - |t|];
    assert TrimRight(t) == "" ==> t[0..] == t;
    assert s == s[..|s| - |t|] + t;
  }

  lemma TrimSpaceTrims(s: string)
    ensures Trimmed(TrimSpace(s))
    ensures Trimmed(s) ==> TrimSpace(s) == s
  {
    hide IsSpace;
    TrimLeftFacts(s);
    TrimRightFacts(TrimLeft(s));
  }

  predicate HasPrefix(s: string, prefix: string) {
    prefix <= s
  }

  function TrimPrefix(s: string, prefix: string): string {
    if prefix <= s then s[|prefix|..] else s
  }

  lemma PrefixOfConcat(prefix: string, rest: string)
    ensures HasPrefix(prefix + rest, prefix) && TrimPrefix(prefix + rest, prefix) == rest
  {
  }

  predicate IsDigit(c: char) {
    '0' <= c <= '9'
  }

  /** %d of a number that is not negative. */
  function Decimal(n: nat): (s: string)
    ensures s != [] && forall i :: 0 <= i < |s| ==> IsDigit(s[i])
  {
    var digit := ['0' + (n % 10) as char];
    if n < 10 then digit else Decimal(n / 10) + digit
  }

  lemma {:induction false} DecimalsDiffer(n: nat, m: nat)
    requires n != m
    ensures Decimal(n) != Decimal(m)
  {
    var a, b := Decimal(n), Decimal(m);
    if n % 10 != m % 10 {
      assert a[|a| - 1] != b[|b| - 1];
    } else if n >= 10 && m >= 10 {
      DecimalsDiffer(n / 10, m / 10);
      assert a[..|a| - 1] == Decimal(n / 10) && b[..|b| - 1] == Decimal(m / 10);
    } else {
      assert |a| != |b|;
    }
  }
}
