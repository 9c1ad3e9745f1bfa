/** What the fields and frames of any text are read as (internal/v2/client/client.go). */
module EventFields {
  import opened Basics
  import opened Text
  import opened EventFrames
  import opened EventReading

  // -------- the fields of a frame --------

  function Value(line: string, field: string): string {
    TrimSpace(TrimPrefix(line, field))
  }

  /** The type is what the last line of that field says. */
  ghost predicate LastType(lines: seq<string>, typ: string) {
    || (typ == "" && forall j :: 0 <= j < |lines| ==> !HasPrefix(lines[j], "event:"))
    || exists i :: 0 <= i < |lines| && HasPrefix(lines[i], "event:") && typ == Value(lines[i], "event:")
                   && forall j :: i < j < |lines| ==> !HasPrefix(lines[j], "event:")
  }

  function IdOf(line: string): Option<int> {
    if HasPrefix(line, "id:") then ParseInt(Value(line, "id:")) else None
  }

  /** The number is what the last line of that field with a number says. */
  ghost predicate LastNumber(lines: seq<string>, seqNo: int) {
    || (seqNo == 0 && forall j :: 0 <= j < |lines| ==> IdOf(lines[j]).None?)
    || exists i :: 0 <= i < |lines| && IdOf(lines[i]) == Some(seqNo)
                   && forall j :: i < j < |lines| ==> IdOf(lines[j]).None?
  }

  /** What the lines of data say, in order. */
  function DataOf(lines: seq<string>): seq<string> {
    if lines == [] then []
    else
      var last := lines[|lines| - 1];
      DataOf(lines[..|lines| - 1]) + if HasPrefix(last, "data:") then [Value(last, "data:")] else []
  }

  lemma {:induction false} ScanLast(f: Fields, lines: seq<string>)
    requires lines != []
    ensures Scan(f, lines) == ScanLine(Scan(f, lines[..|lines| - 1]), lines[|lines| - 1])
    decreases |lines|
  {
    hide ScanLine;
    if |lines| > 1 {
      ScanLast(ScanLine(f, lines[0]), lines[1..]);
      assert lines[1..][..|lines| - 2] == lines[..|lines| - 1][1..];
    }
  }

  lemma FieldsDiffer(line: string)
    ensures HasPrefix(line, "id:") ==> !HasPrefix(line, "event:") && !HasPrefix(line, "data:")
    ensures HasPrefix(line, "event:") ==> !HasPrefix(line, "data:")
  {
    assert "id:"[0] == 'i' && "event:"[0] == 'e' && "data:"[0] == 'd';
  }

  /** One line more. */
  lemma LineSays(f: Fields, line: string)
    ensures var g := ScanLine(f, line);
            && g.typ == (if HasPrefix(line, "event:") then Value(line, "event:") else f.typ)
            && g.seqNo == IdOf(line).GetOr(f.seqNo)
            && g.data == f.data + if HasPrefix(line, "data:") then [Value(line, "data:")] else []
  {
    FieldsDiffer(line);
    hide HasPrefix, TrimSpace, TrimPrefix, ParseInt;
  }

  lemma {:induction false} LinesSay(lines: seq<string>)
    ensures var f := Scan(NO_FIELDS, lines); LastType(lines, f.typ) && LastNumber(lines, f.seqNo) && f.data == DataOf(lines)
  {
    hide HasPrefix, Value, IdOf, ScanLine;
    if lines != [] {
      var front, last := lines[..|lines| - 1], lines[|lines| - 1];
      LinesSay(front);
      ScanLast(NO_FIELDS, lines);
      LineSays(Scan(NO_FIELDS, front), last);
      TypeBehind(lines, Scan(NO_FIELDS, front).typ);
      NumberBehind(lines, Scan(NO_FIELDS, front).seqNo);
    }
  }

  lemma TypeBehind(lines: seq<string>, typ: string)
    requires lines != [] && LastType(lines[..|lines| - 1], typ)
    ensures var last := lines[|lines| - 1]; LastType(lines, if HasPrefix(last, "event:") then Value(last, "event:") else typ)
  {
    hide HasPrefix, Value;
    var front, last := lines[..|lines| - 1], lines[|lines| - 1];
    if !HasPrefix(last, "event:") && !(typ == "" && forall j :: 0 <= j < |front| ==> !HasPrefix(front[j], "event:")) {
      var i :| 0 <= i < |front| && HasPrefix(front[i], "event:") && typ == Value(front[i], "event:")
               && forall j :: i < j < |front| ==> !HasPrefix(front[j], "event:");
      assert HasPrefix(lines[i], "event:") && typ == Value(lines[i], "event:");
      assert forall j :: i < j < |lines| ==> lines[j] == if j < |front| then front[j] else last;
    }
  }

  lemma NumberBehind(lines: seq<string>, seqNo: int)
    requires lines != [] && LastNumber(lines[..|lines| - 1], seqNo)
    ensures var last := lines[|lines| - 1]; LastNumber(lines, IdOf(last).GetOr(seqNo))
  {
    hide IdOf;
    var front, last := lines[..|lines| - 1], lines[|lines| - 1];
    if IdOf(last).None? && !(seqNo == 0 && forall j :: 0 <= j < |front| ==> IdOf(front[j]).None?) {
      var i :| 0 <= i < |front| && IdOf(front[i]) == Some(seqNo)
               && forall j :: i < j < |front| ==> IdOf(front[j]).None?;
      assert IdOf(lines[i]) == Some(seqNo);
      assert forall j :: i < j < |lines| ==> lines[j] == if j < |front| then front[j] else last;
    }
  }

  /** The frame is an event of the last type, with the last number and all its data; or none, without a type or data, or if it only keeps the connection alive. */
  ghost predicate ReadAs(frame: string, typ: string, seqNo: int, event: Option<Event>) {
    var lines := Split(TrimSpace(frame));
    && LastType(lines, typ) && LastNumber(lines, seqNo)
    && event == if typ == "" || typ == "keepalive" || DataOf(lines) == [] then None else Some(Event(seqNo, typ, Join(DataOf(lines))))
  }

  /** Any frame at all is read so. */
  lemma FrameSays(frame: string)
    ensures exists typ, seqNo :: ReadAs(frame, typ, seqNo, Parsed(frame))
  {
    var lines := Split(TrimSpace(frame));
    LinesSay(lines);
    var f := Scan(NO_FIELDS, lines);
    assert Parsed(frame) == Finish(f);
    hide LastType, LastNumber, TrimSpace, Split, Scan, DataOf, Join, Parsed;
    assert ReadAs(frame, f.typ, f.seqNo, Parsed(frame));
  }

  lemma LastTypeIsOne(lines: seq<string>, a: string, b: string)
    requires LastType(lines, a) && LastType(lines, b)
    ensures a == b
  {
    hide HasPrefix, Value;
  }

  lemma LastNumberIsOne(lines: seq<string>, a: int, b: int)
    requires LastNumber(lines, a) && LastNumber(lines, b)
    ensures a == b
  {
    hide IdOf;
  }

  /** Which leaves one reading. */
  lemma FrameIsReadOneWay(frame: string, typ: string, seqNo: int, event: Option<Event>)
    requires ReadAs(frame, typ, seqNo, event)
    ensures event == Parsed(frame)
  {
    hide LastType, LastNumber, TrimSpace, Split, DataOf, Join, Parsed;
    FrameSays(frame);
    var t, n :| ReadAs(frame, t, n, Parsed(frame));
    LastTypeIsOne(Split(TrimSpace(frame)), t, typ);
    LastNumberIsOne(Split(TrimSpace(frame)), n, seqNo);
  }

  // -------- lines --------

  /** Splitting gives the lines, and joining them the text again. */
  lemma {:induction false} SplitJoins(s: string)
    ensures Join(Split(s)) == s && forall i :: 0 <= i < |Split(s)| ==> OneLine(Split(s)[i])
    decreases |s|
  {
    if !OneLine(s) {
      var i := Pos(s, '\n');
      SplitJoins(s[i + 1..]);
      assert s == s[..i] + "\n" + s[i + 1..];
      assert Split(s)[1..] == Split(s[i + 1..]);
    }
  }

  /** Joined lines are split where they were joined. */
  lemma {:induction false} JoinSplits(lines: seq<string>)
    requires lines != [] && forall i :: 0 <= i < |lines| ==> OneLine(lines[i])
    ensures Split(Join(lines)) == lines
  {
    hide Split;
    if |lines| > 1 {
      JoinSplits(lines[1..]);
      SplitFirst(lines[0], Join(lines[1..]));
    } else {
      SplitOne(lines[0]);
    }
  }

  lemma SplitOne(line: string)
    requires OneLine(line)
    ensures Split(line) == [line]
  {
  }

  // -------- numbers --------

  /** What is printed as a number of 64 bits is read as it. */
  lemma NumberParses(n: int)
    requires -INT64_MAX - 1 <= n <= INT64_MAX
    ensures ParseInt(Number(n)) == Some(n)
    ensures n >= 0 ==> ParseInt("+" + Decimal(n)) == Some(n)
  {
    if n < 0 {
      DecimalReadsBack(-n);
      assert ("-" + Decimal(-n))[1..] == Decimal(-n);
    } else {
      DecimalParses(n);
      DecimalReadsBack(n);
      assert ("+" + Decimal(n))[1..] == Decimal(n);
    }
    hide DigitsValue, Decimal;
  }

  /** Nothing else is: a sign, if any, then digits, of a number of 64 bits. */
  lemma OnlyNumbersParse(s: string)
    ensures ParseInt(s).Some? ==>
              var n := ParseInt(s).value;
              && -INT64_MAX - 1 <= n <= INT64_MAX && s != ""
              && (if s[0] == '-' then AllDigits(s[1..]) && n == 0 - DigitsValue(s[1..])
                  else if s[0] == '+' then AllDigits(s[1..]) && n == DigitsValue(s[1..])
                  else AllDigits(s) && n == DigitsValue(s))
  {
    hide DigitsValue;
  }

  // -------- frames --------

  /** Lines as they are printed, each with its end. */
  function Terminated(lines: seq<string>): string {
    if lines == [] then "" else lines[0] + "\n" + Terminated(lines[1..])
  }

  function TrimmedEols(lines: seq<string>): (t: seq<string>)
    ensures |t| == |lines| && forall i :: 0 <= i < |lines| ==> t[i] == TrimEol(lines[i])
  {
    seq(|lines|, i requires 0 <= i < |lines| => TrimEol(lines[i]))
  }

  ghost predicate Filled(lines: seq<string>) {
    forall i :: 0 <= i < |lines| ==> OneLine(lines[i]) && TrimEol(lines[i]) != ""
  }

  lemma {:induction false} ReadsLines(lines: seq<string>, rest: string, frame: string, eof: bool)
    requires Filled(lines)
    ensures Read(Terminated(lines) + rest, frame, eof) == Read(rest, frame + Terminated(TrimmedEols(lines)), eof)
    decreases |lines|
  {
    hide Read, TrimEol;
    if lines == [] {
      assert TrimmedEols(lines) == [] && "" + rest == rest && frame + "" == frame;
    } else {
      var text := Terminated(lines) + rest;
      assert text == lines[0] + "\n" + (Terminated(lines[1..]) + rest);
      FirstLine(lines[0], Terminated(lines[1..]) + rest);
      ReadLine(text, frame, eof);
      ReadsLines(lines[1..], rest, frame + TrimEol(lines[0]) + "\n", eof);
      assert TrimmedEols(lines)[1..] == TrimmedEols(lines[1..]);
      var t := TrimEol(lines[0]);
      assert frame + t + "\n" + Terminated(TrimmedEols(lines[1..])) == frame + (t + "\n" + Terminated(TrimmedEols(lines[1..])));
    }
  }

  lemma FirstLine(line: string, rest: string)
    requires OneLine(line)
    ensures var text := line + "\n" + rest;
            !OneLine(text) && Pos(text, '\n') == |line| && text[..|line|] == line && text[|line| + 1..] == rest
  {
    var text := line + "\n" + rest;
    assert text[|line|] == '\n';
  }

  /** Lines up to an empty one are one frame, whether they end in a carriage return or not, and reading goes on behind it. */
  lemma EachFrameIsRead(lines: seq<string>, blank: string, rest: string, eof: bool)
    requires Filled(lines) && OneLine(blank) && TrimEol(blank) == ""
    ensures Read(Terminated(lines) + (blank + "\n" + rest), "", eof)
            == Listed(Parsed(Terminated(TrimmedEols(lines)))) + Read(rest, "", eof)
  {
    hide Read, TrimEol, Parsed;
    var frame := Terminated(TrimmedEols(lines));
    ReadsLines(lines, blank + "\n" + rest, "", eof);
    assert "" + frame == frame;
    FirstLine(blank, rest);
    ReadLine(blank + "\n" + rest, frame, eof);
  }

  /** Lines before an orderly end are a frame as well; before a broken one they are none. */
  lemma LastFrameIsRead(lines: seq<string>, last: string, eof: bool)
    requires Filled(lines) && OneLine(last)
    ensures Read(Terminated(lines) + last, "", eof)
            == if !eof then [] else Listed(Parsed(Terminated(TrimmedEols(lines)) + if TrimEol(last) == "" then "" else TrimEol(last) + "\n"))
  {
    hide Read, TrimEol, Parsed;
    var frame := Terminated(TrimmedEols(lines));
    ReadsLines(lines, last, "", eof);
    assert "" + frame == frame && frame + "" == frame;
    ReadEnd(last, frame, eof);
    ParsedBlank();
    assert frame + TrimEol(last) + "\n" == frame + (TrimEol(last) + "\n");
  }

  /** A line's end is its carriage returns. */
  lemma {:induction false} EolIsReturns(line: string, n: nat)
    requires OneLine(line) && (line == "" || line[|line| - 1] != '\r')
    ensures TrimEol(line + Returns(n)) == line
  {
    if n == 0 {
      assert line + "" == line;
    } else {
      assert (line + Returns(n))[..|line| + n - 1] == line + Returns(n - 1);
      EolIsReturns(line, n - 1);
    }
  }

  function Returns(n: nat): (r: string)
    ensures |r| == n
  {
    if n == 0 then "" else Returns(n - 1) + "\r"
  }
}
