// Reading one line and one frame: what the parser makes of each part of a frame that the server
// printed, whole or cut short (internal/v2/client/client.go).
module EventReading {
  import opened Basics
  import opened Text
  import opened EventFrames

  // -------- numbers --------

  lemma {:induction false} DecimalReadsBack(n: nat)
    ensures DigitsValue(Decimal(n)) == n
  {
    var s := Decimal(n);
    if n >= 10 {
      DecimalReadsBack(n / 10);
      assert s[..|s| - 1] == Decimal(n / 10);
    } else {
      assert s[..0] == "" && DigitsValue("") == 0;
    }
  }

  lemma DecimalParses(n: nat)
    requires n <= INT64_MAX
    ensures ParseInt(Decimal(n)) == Some(n)
  {
    DecimalReadsBack(n);
    var s := Decimal(n);
    assert IsDigit(s[0]);
    hide DigitsValue, Decimal;
  }

  lemma DecimalIsPlain(n: nat)
    ensures OneLine(Decimal(n)) && Trimmed(Decimal(n)) && TrimEol(Decimal(n)) == Decimal(n)
  {
    var s := Decimal(n);
    assert IsDigit(s[0]) && IsDigit(s[|s| - 1]);
    hide Decimal;
  }

  // -------- trimming and splitting --------

  lemma TrimSpaceOf(lead: char, s: string)
    requires IsSpace(lead) && Trimmed(s)
    ensures TrimSpace([lead] + s) == s
  {
    assert ([lead] + s)[1..] == s;
    TrimLeftOf(s);
    hide IsSpace;
  }

  lemma TrimLeftOf(s: string)
    requires Trimmed(s)
    ensures TrimLeft(s) == s && TrimRight(s) == s
  {
    hide IsSpace;
  }

  /** White space behind a text whose last character is none is what trimming drops. */
  lemma {:induction false} TrimRightDrops(a: string, b: string)
    requires a == "" || !IsSpace(a[|a| - 1])
    requires IsBlank(b)
    ensures TrimRight(a + b) == a
  {
    hide IsSpace;
    if b == "" {
      assert a + b == a;
    } else {
      assert (a + b)[..|a + b| - 1] == a + b[..|b| - 1];
      TrimRightDrops(a, b[..|b| - 1]);
    }
  }

  /** Trimming lines that begin with no white space only shortens the last of them. */
  lemma TrimFrame(front: string, last: string)
    requires last != "" && !IsSpace(last[0])
    requires front == "" || !IsSpace(front[0])
    ensures TrimSpace(front + last + "\n") == front + TrimRight(last)
    ensures TrimRight(last) != "" && TrimRight(last)[0] == last[0]
  {
    assert IsSpace('\n');
    hide IsSpace, TrimRight, TrimSpace;
    FirstStays(last);
    var t := TrimRight(last);
    assert (front + t)[0] == if front == "" then last[0] else front[0];
    TrimLast(front, last, t);
  }

  /** The first character is not trimmed on the right if it is no white space. */
  lemma FirstStays(s: string)
    requires s != "" && !IsSpace(s[0])
    ensures var t := TrimRight(s); t != "" && t <= s && t[0] == s[0] && !IsSpace(t[|t| - 1]) && IsBlank(s[|t|..])
  {
    hide IsSpace, TrimRight;
    TrimRightFacts(s);
  }

  lemma TrimLast(front: string, last: string, t: string)
    requires t != "" && t <= last && !IsSpace(t[|t| - 1]) && IsSpace('\n') && !IsSpace((front + t)[0])
    requires IsBlank(last[|t|..])
    ensures TrimSpace(front + last + "\n") == front + t
  {
    hide IsSpace, TrimRight, TrimSpace;
    var rest := last[|t|..] + "\n";
    assert front + last + "\n" == (front + t) + rest;
    TrimSpaceIsRight((front + t) + rest);
    TrimRightDrops(front + t, rest);
  }

  lemma TrimSpaceIsRight(s: string)
    requires s != "" && !IsSpace(s[0])
    ensures TrimSpace(s) == TrimRight(s)
  {
    hide IsSpace;
  }

  lemma SplitFirst(line: string, rest: string)
    requires OneLine(line)
    ensures Split(line + "\n" + rest) == [line] + Split(rest)
  {
    var s := line + "\n" + rest;
    assert s[|line|] == '\n';
    assert Pos(s, '\n') == |line|;
    assert s[..|line|] == line && s[|line| + 1..] == rest;
  }

  lemma ScanOne(f: Fields, line: string)
    ensures Scan(f, [line]) == ScanLine(f, line)
  {
    hide ScanLine;
  }

  // -------- the lines of a frame --------

  lemma ScanId(f: Fields, e: Event)
    requires Printable(e)
    ensures ScanLine(f, IdLine(e)) == f.(seqNo := e.seqNo)
  {
    assert Number(e.seqNo) == Decimal(e.seqNo);
    PrefixOfConcat("id:", " " + Decimal(e.seqNo));
    assert IdLine(e) == "id:" + (" " + Decimal(e.seqNo));
    DecimalIsPlain(e.seqNo);
    assert IsSpace(' ');
    TrimSpaceOf(' ', Decimal(e.seqNo));
    DecimalParses(e.seqNo);
    hide TrimSpace, ParseInt, Decimal, IsSpace, Trimmed;
  }

  lemma ScanType(f: Fields, e: Event)
    requires Printable(e)
    ensures ScanLine(f, TypeLine(e)) == f.(typ := e.typ)
  {
    PrefixOfConcat("event:", " " + e.typ);
    assert TypeLine(e) == "event:" + (" " + e.typ);
    assert TypeLine(e)[0] == 'e';
    assert IsSpace(' ');
    TrimSpaceOf(' ', e.typ);
    hide TrimSpace, ParseInt, IsSpace, Trimmed;
  }

  lemma ScanData(f: Fields, line: string)
    requires HasPrefix(line, "data:")
    ensures ScanLine(f, line) == f.(data := f.data + [TrimSpace(TrimPrefix(line, "data:"))])
  {
    hide TrimSpace, ParseInt, TrimPrefix;
    assert line[0] == 'd' && "id:"[0] == 'i' && "event:"[0] == 'e';
  }

  /** Part of a data line, cut before its colon, or of another line says nothing about the data. */
  lemma ScanNoData(f: Fields, line: string)
    requires !HasPrefix(line, "data:")
    ensures ScanLine(f, line).data == f.data
  {
    hide TrimSpace, ParseInt;
  }

  lemma LinesArePlain(e: Event)
    requires Printable(e)
    ensures OneLine(IdLine(e)) && OneLine(TypeLine(e)) && OneLine(DataLine(e))
    ensures TrimEol(IdLine(e)) == IdLine(e) && TrimEol(TypeLine(e)) == TypeLine(e) && TrimEol(DataLine(e)) == DataLine(e)
    ensures IdLine(e)[0] == 'i' && TypeLine(e)[0] == 'e' && DataLine(e)[0] == 'd'
    ensures !IsSpace('i') && !IsSpace('e') && !IsSpace('d')
  {
    DecimalIsPlain(e.seqNo);
    assert Number(e.seqNo) == Decimal(e.seqNo);
    var d := Decimal(e.seqNo);
    assert IsDigit(d[|d| - 1]);
    assert IdLine(e)[|IdLine(e)| - 1] == d[|d| - 1];
    assert IsSpace('\r') && IsSpace('\n');
    assert TypeLine(e)[|TypeLine(e)| - 1] == e.typ[|e.typ| - 1];
    var data := DataLine(e);
    assert e.payload != "" ==> data[|data| - 1] == e.payload[|e.payload| - 1];
    assert e.payload == "" ==> data[|data| - 1] == ' ';
    hide Decimal, Trimmed;
  }

  // -------- trimming twice --------

  lemma TrimSpaceParts(s: string) returns (a: string, b: string)
    ensures s == a + TrimSpace(s) + b && IsBlank(a) && IsBlank(b)
  {
    hide IsSpace;
    var t := TrimLeft(s);
    TrimLeftFacts(s);
    TrimRightFacts(t);
    a := s[..|s| - |t|];
    b := t[|TrimRight(t)|..];
  }

  lemma {:induction false} TrimLeftDrops(a: string, t: string)
    requires IsBlank(a) && (t == "" || !IsSpace(t[0]))
    ensures TrimLeft(a + t) == t
  {
    hide IsSpace;
    if a == "" {
      assert a + t == t;
    } else {
      assert (a + t)[1..] == a[1..] + t;
      TrimLeftDrops(a[1..], t);
    }
  }

  /** TrimSpace is the middle when white space surrounds it. */
  lemma TrimSpaceIsMiddle(a: string, t: string, b: string)
    requires IsBlank(a) && IsBlank(b) && Trimmed(t)
    ensures TrimSpace(a + t + b) == t
  {
    hide IsSpace, TrimLeft, TrimRight;
    if t == "" {
      assert IsBlank(a + t + b);
      assert (a + t + b) + "" == a + t + b && "" + "" == "";
      TrimLeftDrops(a + t + b, "");
      TrimRightDrops("", "");
    } else {
      assert a + t + b == a + (t + b);
      TrimLeftDrops(a, t + b);
      TrimRightDrops(t, b);
    }
  }

  lemma TrimSpaceIgnoresEnd(s: string, ws: string)
    requires IsBlank(ws)
    ensures TrimSpace(s + ws) == TrimSpace(s)
  {
    TrimSpaceTrims(s);
    hide IsSpace, TrimSpace, Trimmed;
    var a, b := TrimSpaceParts(s);
    assert s + ws == a + TrimSpace(s) + (b + ws);
    TrimSpaceIsMiddle(a, TrimSpace(s), b + ws);
  }

  lemma TrimSpaceIgnoresBlank(s: string)
    ensures TrimSpace(" " + s) == TrimSpace(s)
  {
    TrimSpaceTrims(s);
    assert IsSpace(' ');
    hide IsSpace, TrimSpace, Trimmed;
    var a, b := TrimSpaceParts(s);
    assert " " + s == (" " + a) + TrimSpace(s) + b;
    TrimSpaceIsMiddle(" " + a, TrimSpace(s), b);
  }

  lemma {:induction false} TrimEolParts(s: string)
    ensures IsBlank(s[|TrimEol(s)|..])
    ensures s != "" && !IsSpace(s[0]) ==> TrimEol(s) != "" && TrimEol(s)[0] == s[0]
  {
    assert IsSpace('\r') && IsSpace('\n');
    hide IsSpace;
    if s != "" && (s[|s| - 1] == '\r' || s[|s| - 1] == '\n') {
      TrimEolParts(s[..|s| - 1]);
    }
  }

  // -------- parsing what was cut --------

  function IdPart(e: Event): string {
    IdLine(e) + "\n"
  }

  function TypePart(e: Event): string {
    IdPart(e) + TypeLine(e) + "\n"
  }

  const NO_FIELDS := Fields("", 0, [])

  lemma ParsedBlank()
    ensures Parsed("") == None
  {
  }

  lemma ParsedLast(last: string)
    requires last != "" && !IsSpace(last[0]) && last[0] != 'd' && OneLine(last)
    ensures Parsed(last + "\n") == None
  {
    hide TrimSpace, TrimRight, ScanLine, IsSpace, Parsed;
    TrimFrame("", last);
    assert "" + last + "\n" == last + "\n" && "" + TrimRight(last) == TrimRight(last);
    var line := TrimRight(last);
    NoDataBegins(line);
    ScanNoData(NO_FIELDS, line);
    assert Split(line) == [line];
    ParsedOne(last + "\n", line);
  }

  lemma NoDataBegins(line: string)
    ensures line != "" && line[0] != 'd' ==> !HasPrefix(line, "data:")
  {
    assert "data:"[0] == 'd';
  }

  lemma ParsedOne(frame: string, line: string)
    requires Split(TrimSpace(frame)) == [line]
    ensures Parsed(frame) == Finish(ScanLine(NO_FIELDS, line))
  {
    hide TrimSpace, Split, ScanLine, Finish;
    ScanOne(NO_FIELDS, line);
  }

  lemma ParsedIdLast(e: Event, last: string)
    requires Printable(e) && last != "" && !IsSpace(last[0]) && last[0] != 'd' && OneLine(last)
    ensures Parsed(IdPart(e) + last + "\n") == None
  {
    LinesArePlain(e);
    TrimFrame(IdPart(e), last);
    var line := TrimRight(last);
    ScanId(NO_FIELDS, e);
    ScanNoData(ScanLine(NO_FIELDS, IdLine(e)), line);
    hide TrimSpace, TrimRight, ScanLine, IsSpace, IdLine;
    SplitFirst(IdLine(e), line);
    assert Split(line) == [line];
    ScanTwo(NO_FIELDS, IdLine(e), line);
  }

  lemma ScanTwo(f: Fields, a: string, b: string)
    ensures Scan(f, [a] + [b]) == ScanLine(ScanLine(f, a), b)
  {
    hide ScanLine;
    assert ([a] + [b])[1..] == [b];
    ScanOne(ScanLine(f, a), b);
  }

  lemma ScanThree(f: Fields, a: string, b: string, c: string)
    ensures Scan(f, [a] + ([b] + [c])) == ScanLine(ScanLine(ScanLine(f, a), b), c)
  {
    hide ScanLine;
    assert ([a] + ([b] + [c]))[1..] == [b] + [c];
    ScanTwo(ScanLine(f, a), b, c);
  }

  /** The fields when the last of three lines is what is left of the data line. */
  lemma ParsedTypeLast(e: Event, last: string)
    requires Printable(e) && last != "" && !IsSpace(last[0]) && OneLine(last)
    ensures Parsed(TypePart(e) + last + "\n") == Finish(ScanLine(Fields(e.typ, e.seqNo, []), TrimRight(last)))
  {
    LinesArePlain(e);
    ScanId(NO_FIELDS, e);
    ScanType(Fields("", e.seqNo, []), e);
    hide TrimSpace, TrimRight, ScanLine, IsSpace, IdLine, TypeLine, Finish, Parsed;
    ParsedThree(IdLine(e), TypeLine(e), last);
  }

  lemma ParsedThree(a: string, b: string, last: string)
    requires OneLine(a) && OneLine(b) && OneLine(last)
    requires a != "" && !IsSpace(a[0]) && last != "" && !IsSpace(last[0])
    ensures Parsed(a + "\n" + b + "\n" + last + "\n")
            == Finish(ScanLine(ScanLine(ScanLine(NO_FIELDS, a), b), TrimRight(last)))
  {
    hide TrimSpace, TrimRight, ScanLine, IsSpace, Finish, Split, Scan;
    var line := TrimRight(last);
    var front := a + "\n" + b + "\n";
    TrimFrame(front, last);
    assert front + line == a + "\n" + (b + "\n" + line);
    SplitThree(a, b, line);
    ScanThree(NO_FIELDS, a, b, line);
  }

  lemma SplitThree(a: string, b: string, c: string)
    requires OneLine(a) && OneLine(b) && OneLine(c)
    ensures Split(a + "\n" + (b + "\n" + c)) == [a] + ([b] + [c])
  {
    assert Split(c) == [c];
    hide Split;
    SplitFirst(a, b + "\n" + c);
    SplitFirst(b, c);
  }

  /** A frame cut in its data line, behind the colon, passes for one with the payload cut. */
  lemma ParsedData(e: Event, body: string)
    requires Printable(e) && OneLine(body)
    ensures Parsed(TypePart(e) + ("data:" + body) + "\n") == Some(Event(e.seqNo, e.typ, TrimSpace(body)))
  {
    var last := "data:" + body;
    assert last[0] == 'd' && !IsSpace('d');
    ParsedTypeLast(e, last);
    TrimData(body);
    var line := "data:" + TrimRight(body);
    PrefixOfConcat("data:", TrimRight(body));
    ScanData(Fields(e.typ, e.seqNo, []), line);
    hide TrimSpace, TrimRight, ScanLine, IsSpace, TypePart;
    assert [] + [TrimSpace(body)] == [TrimSpace(body)];
  }

  lemma TrimData(body: string)
    ensures TrimRight("data:" + body) == "data:" + TrimRight(body)
    ensures TrimSpace(TrimRight(body)) == TrimSpace(body)
  {
    TrimRightFacts(body);
    assert !IsSpace(':');
    hide TrimSpace, TrimRight, IsSpace;
    var t := TrimRight(body);
    var ws := body[|t|..];
    var line := "data:" + t;
    assert "data:" + body == line + ws && t + ws == body;
    assert line[|line| - 1] == if t == "" then ':' else t[|t| - 1];
    TrimRightDrops(line, ws);
    TrimSpaceIgnoresEnd(t, ws);
  }

  lemma ParsedShort(e: Event, last: string)
    requires Printable(e) && last != "" && last <= "data"
    ensures Parsed(TypePart(e) + last + "\n") == None
  {
    assert last[0] == 'd' && !IsSpace('d');
    ParsedTypeLast(e, last);
    ScanNoData(Fields(e.typ, e.seqNo, []), TrimRight(last));
    hide TrimSpace, ScanLine, IsSpace, TypePart;
  }
}
