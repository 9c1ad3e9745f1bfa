/** What the client reads of frames cut anywhere (internal/v2/client/client.go). */
module EventCuts {
  import opened Basics
  import opened Text
  import opened EventFrames
  import opened EventReading

  // -------- one frame --------

  lemma ReadOver(line: string, rest: string, frame: string, eof: bool)
    requires OneLine(line) && TrimEol(line) == line
    ensures Read(line + "\n" + rest, frame, eof)
            == if line == "" then Listed(Parsed(frame)) + Read(rest, "", eof) else Read(rest, frame + line + "\n", eof)
  {
    hide Read, Parsed, TrimEol;
    var text := line + "\n" + rest;
    assert text[|line|] == '\n';
    assert Pos(text, '\n') == |line|;
    assert text[..|line|] == line && text[|line| + 1..] == rest;
    ReadLine(text, frame, eof);
  }

  lemma ReadBreaks(text: string, frame: string)
    requires OneLine(text)
    ensures Read(text, frame, false) == []
  {
    hide Parsed, TrimEol;
    ReadEnd(text, frame, false);
  }

  /** The data line complete, the frame is the event. */
  lemma ParsedWhole(e: Event)
    requires Printable(e)
    ensures Parsed(TypePart(e) + DataLine(e) + "\n") == Some(e)
  {
    hide Parsed, TypePart, TrimSpace, IsSpace;
    assert DataLine(e) == "data:" + (" " + e.payload);
    ParsedData(e, " " + e.payload);
    TrimSpaceIgnoresBlank(e.payload);
    TrimSpaceTrims(e.payload);
  }

  /** Past the lines of the id and the type. */
  lemma ReadToData(e: Event, p: string, eof: bool)
    requires Printable(e)
    ensures Read(TypePart(e) + p, "", eof) == Read(p, TypePart(e), eof)
  {
    LinesArePlain(e);
    hide Read, IdLine, TypeLine, Printable, IsSpace, TrimEol, Parsed;
    assert TypePart(e) + p == IdLine(e) + "\n" + (TypeLine(e) + "\n" + p);
    ReadOver(IdLine(e), TypeLine(e) + "\n" + p, "", eof);
    assert "" + IdLine(e) + "\n" == IdPart(e);
    ReadOver(TypeLine(e), p, IdPart(e), eof);
  }

  /** A whole frame is read as its event, whatever follows. */
  lemma ReadFrame(e: Event, rest: string, eof: bool)
    requires Printable(e)
    ensures Read(Frame(e) + rest, "", eof) == [e] + Read(rest, "", eof)
  {
    LinesArePlain(e);
    FrameParts(e);
    EmptyIsPlain();
    ParsedWhole(e);
    hide Read, Parsed, TrimEol, IdLine, TypeLine, DataLine, IsSpace, Printable, Frame, TypePart;
    assert Frame(e) + rest == TypePart(e) + (DataLine(e) + "\n" + ("" + "\n" + rest));
    ReadToData(e, DataLine(e) + "\n" + ("" + "\n" + rest), eof);
    ReadOver(DataLine(e), "" + "\n" + rest, TypePart(e), eof);
    ReadOver("", rest, TypePart(e) + DataLine(e) + "\n", eof);
  }

  lemma EmptyIsPlain()
    ensures OneLine("") && TrimEol("") == ""
  {
  }

  // -------- the end of the text inside a frame --------

  lemma EndInId(e: Event, p: string)
    requires Printable(e) && p <= IdLine(e)
    ensures Read(p, "", true) == []
  {
    LinesArePlain(e);
    ParsedBlank();
    ReadEnd(p, "", true);
    if p != "" {
      var line := TrimEol(p);
      assert p[0] == IdLine(e)[0];
      TrimEolParts(p);
      hide Parsed, TrimEol, Read, IdLine, IsSpace;
      assert "" + line + "\n" == line + "\n";
      ParsedLast(line);
    } else {
      EmptyIsPlain();
    }
  }

  lemma EndInType(e: Event, p: string)
    requires Printable(e) && p <= TypeLine(e)
    ensures Read(p, IdPart(e), true) == []
  {
    LinesArePlain(e);
    ReadEnd(p, IdPart(e), true);
    if p != "" {
      var line := TrimEol(p);
      assert p[0] == TypeLine(e)[0];
      TrimEolParts(p);
      hide Parsed, TrimEol, Read, IdLine, TypeLine, IsSpace;
      ParsedIdLast(e, line);
    } else {
      EmptyIsPlain();
      ParsedBlank();
      hide Parsed, TrimEol, Read, TypeLine, IsSpace;
      assert IdPart(e) == IdLine(e) + "\n";
      ParsedLast(IdLine(e));
    }
  }

  /** What a data line cut to p reads as. */
  function CutEvent(e: Event, p: string): seq<Event> {
    if |p| < 5 then [] else [Event(e.seqNo, e.typ, TrimSpace(p[5..]))]
  }

  lemma EndInData(e: Event, p: string)
    requires Printable(e) && p <= DataLine(e)
    ensures Read(p, TypePart(e), true) == CutEvent(e, p)
  {
    LinesArePlain(e);
    ReadEnd(p, TypePart(e), true);
    if p == "" {
      EmptyIsPlain();
      ParsedBlank();
      hide Parsed, TrimEol, Read, IdLine, TypeLine, DataLine, IsSpace;
      ParsedIdLast(e, TypeLine(e));
    } else {
      var line := TrimEol(p);
      assert p[0] == DataLine(e)[0];
      TrimEolParts(p);
      hide Parsed, TrimEol, Read, IdLine, TypeLine, IsSpace, TrimSpace;
      EndOfData(e, p, line);
    }
  }

  lemma EndOfData(e: Event, p: string, line: string)
    requires Printable(e) && p != "" && p <= DataLine(e) && line == TrimEol(p) && line != "" && IsBlank(p[|line|..])
    ensures Listed(Parsed(TypePart(e) + line + "\n")) == CutEvent(e, p)
  {
    LinesArePlain(e);
    assert DataLine(e)[..5] == "data:";
    if |p| <= 4 {
      ShortStart(p, line, e.payload);
      hide Parsed, TrimEol, Printable, TypePart, IsSpace, TrimSpace, IsBlank;
      ParsedShort(e, line);
    } else {
      assert p[4] == ':';
      ColonStays(p, line);
      LongStart(p, line, e.payload);
      hide Parsed, TrimEol, Printable, TypePart, IsSpace, TrimSpace, IsBlank, DataLine;
      EndInPayload(e, line[5..], p[|line|..]);
    }
  }

  lemma ShortStart(p: string, line: string, payload: string)
    requires line <= p <= "data: " + payload && |p| <= 4
    ensures line <= "data"
  {
  }

  lemma LongStart(p: string, line: string, payload: string)
    requires line <= p <= "data: " + payload && |line| >= 5 && OneLine(p)
    ensures line == "data:" + line[5..] && p[5..] == line[5..] + p[|line|..] && OneLine(line[5..])
  {
    assert forall i :: 5 <= i < |line| ==> line[i] == p[i];
  }

  lemma EndInPayload(e: Event, body: string, ws: string)
    requires Printable(e) && OneLine(body) && IsBlank(ws)
    ensures Parsed(TypePart(e) + ("data:" + body) + "\n") == Some(Event(e.seqNo, e.typ, TrimSpace(body + ws)))
  {
    hide Parsed, Printable, TypePart, IsSpace, TrimSpace, IsBlank;
    ParsedData(e, body);
    TrimSpaceIgnoresEnd(body, ws);
  }

  lemma ColonStays(p: string, line: string)
    requires |p| >= 5 && p[4] == ':' && line <= p && IsBlank(p[|line|..])
    ensures |line| >= 5
  {
    assert !IsSpace(':');
    hide IsSpace;
    var ws := p[|line|..];
    assert forall i :: |line| <= i < |p| ==> p[i] == ws[i - |line|];
  }

  lemma EndBehindData(e: Event)
    requires Printable(e)
    ensures Read("", TypePart(e) + DataLine(e) + "\n", true) == [e]
  {
    EmptyIsPlain();
    ParsedBlank();
    ParsedWhole(e);
    hide Parsed, TrimEol;
    ReadEnd("", TypePart(e) + DataLine(e) + "\n", true);
  }

  // -------- a frame cut anywhere --------

  /** The part of a frame before its payload's data begins. */
  function Head(e: Event): string {
    TypePart(e) + "data:"
  }

  /** What the first q characters of a frame read as when the server closes the connection behind them. */
  function ClosedAfter(e: Event, q: nat): seq<Event>
    requires q < |Frame(e)|
  {
    if q < |Head(e)| then [] else [Event(e.seqNo, e.typ, TrimSpace(Frame(e)[|Head(e)|..q]))]
  }

  lemma FrameParts(e: Event)
    ensures Frame(e) == TypePart(e) + DataLine(e) + "\n\n"
    ensures |TypePart(e)| == |IdLine(e)| + 1 + |TypeLine(e)| + 1
    ensures |Frame(e)| == |TypePart(e)| + |DataLine(e)| + 2
    ensures |Head(e)| == |TypePart(e)| + 5 && |DataLine(e)| == 6 + |e.payload|
  {
    hide IdLine, TypeLine;
  }

  lemma FrameLength(e: Event)
    ensures |TypePart(e)| == |IdLine(e)| + 1 + |TypeLine(e)| + 1
    ensures |Frame(e)| == |TypePart(e)| + |DataLine(e)| + 2
  {
    FrameParts(e);
  }

  lemma CutFrame(e: Event, q: nat, eof: bool)
    requires Printable(e) && q < |Frame(e)|
    ensures Read(Frame(e)[..q], "", eof) == if eof then ClosedAfter(e, q) else []
  {
    hide *;
    FrameLength(e);
    if q <= |IdLine(e)| {
      CutInId(e, q, eof);
    } else if q < |TypePart(e)| {
      CutInType(e, q, eof);
    } else if q <= |TypePart(e)| + |DataLine(e)| {
      CutInData(e, q, eof);
    } else {
      assert q == |TypePart(e)| + |DataLine(e)| + 1;
      CutBehindData(e, eof);
    }
  }

  lemma CutInId(e: Event, q: nat, eof: bool)
    requires Printable(e) && q <= |IdLine(e)|
    ensures q < |Frame(e)| && Read(Frame(e)[..q], "", eof) == if eof then ClosedAfter(e, q) else []
  {
    FrameParts(e);
    LinesArePlain(e);
    hide Read, Frame, IdLine, TypeLine, DataLine, Printable, IsSpace;
    var p := IdLine(e)[..q];
    assert Frame(e)[..q] == p;
    if eof {
      EndInId(e, p);
    } else {
      ReadBreaks(p, "");
    }
  }

  lemma CutInType(e: Event, q: nat, eof: bool)
    requires Printable(e) && |IdLine(e)| < q <= |IdLine(e)| + 1 + |TypeLine(e)|
    ensures q < |Frame(e)| && Read(Frame(e)[..q], "", eof) == if eof then ClosedAfter(e, q) else []
  {
    FrameParts(e);
    LinesArePlain(e);
    hide Read, Frame, IdLine, TypeLine, DataLine, Printable, IsSpace, TrimEol, Parsed;
    var p := TypeLine(e)[..q - |IdLine(e)| - 1];
    assert Frame(e)[..q] == IdLine(e) + "\n" + p;
    ReadOver(IdLine(e), p, "", eof);
    assert "" + IdLine(e) + "\n" == IdPart(e);
    if eof {
      EndInType(e, p);
    } else {
      ReadBreaks(p, IdPart(e));
    }
  }

  lemma CutInData(e: Event, q: nat, eof: bool)
    requires Printable(e) && |TypePart(e)| <= q <= |TypePart(e)| + |DataLine(e)|
    ensures q < |Frame(e)| && Read(Frame(e)[..q], "", eof) == if eof then ClosedAfter(e, q) else []
  {
    FrameParts(e);
    LinesArePlain(e);
    hide Read, Frame, IdLine, TypeLine, DataLine, Printable, IsSpace, TrimEol, Parsed, TypePart, TrimSpace;
    var p := DataLine(e)[..q - |TypePart(e)|];
    assert Frame(e)[..q] == TypePart(e) + p;
    ReadToData(e, p, eof);
    if eof {
      EndInData(e, p);
      assert |p| >= 5 ==> Frame(e)[|Head(e)|..q] == p[5..];
    } else {
      ReadBreaks(p, TypePart(e));
    }
  }

  lemma CutBehindData(e: Event, eof: bool)
    requires Printable(e)
    ensures var q := |TypePart(e)| + |DataLine(e)| + 1;
            q < |Frame(e)| && Read(Frame(e)[..q], "", eof) == if eof then ClosedAfter(e, q) else []
  {
    LinesArePlain(e);
    ClosedBehindData(e);
    hide Read, Frame, IdLine, TypeLine, DataLine, IsSpace, TrimEol, Parsed, TypePart, TrimSpace, ClosedAfter, Printable;
    ReadToData(e, DataLine(e) + "\n" + "", eof);
    ReadOver(DataLine(e), "", TypePart(e), eof);
    if eof {
      EndBehindData(e);
    } else {
      ReadBreaks("", TypePart(e) + DataLine(e) + "\n");
    }
  }

  lemma ClosedBehindData(e: Event)
    requires Printable(e)
    ensures var q := |TypePart(e)| + |DataLine(e)| + 1;
            q < |Frame(e)| && Frame(e)[..q] == TypePart(e) + (DataLine(e) + "\n" + "") && ClosedAfter(e, q) == [e]
  {
    FrameParts(e);
    assert IsBlank("\n");
    TrimSpaceIgnoresEnd(" " + e.payload, "\n");
    TrimSpaceIgnoresBlank(e.payload);
    TrimSpaceTrims(e.payload);
    hide Frame, IdLine, TypeLine, IsSpace, TypePart, TrimSpace;
    var q := |TypePart(e)| + |DataLine(e)| + 1;
    assert Frame(e)[..q] == TypePart(e) + (DataLine(e) + "\n" + "");
    assert Frame(e)[|Head(e)|..q] == (" " + e.payload) + "\n";
  }

  // -------- a connection cut anywhere --------

  /** How many whole frames the first p characters hold. */
  function Whole(es: seq<Event>, p: nat): (k: nat)
    ensures k <= |es|
  {
    if es == [] || p < |Frame(es[0])| then 0 else 1 + Whole(es[1..], p - |Frame(es[0])|)
  }

  /** How many characters the first p hold of the frame behind the whole ones. */
  function Left(es: seq<Event>, p: nat): (q: nat)
    ensures Whole(es, p) < |es| ==> q < |Frame(es[Whole(es, p)])|
  {
    if es == [] || p < |Frame(es[0])| then p else Left(es[1..], p - |Frame(es[0])|)
  }

  /** What the client delivers of a connection that ends after p characters. */
  function Delivered(es: seq<Event>, p: nat, eof: bool): seq<Event> {
    var k := Whole(es, p);
    es[..k] + if eof && k < |es| then ClosedAfter(es[k], Left(es, p)) else []
  }

  /** The server's frames, cut anywhere, are read as the whole ones and perhaps one cut short. */
  lemma {:induction false} CutFrames(es: seq<Event>, p: nat, eof: bool)
    requires AllPrintable(es) && p <= |Frames(es)|
    ensures Read(Frames(es)[..p], "", eof) == Delivered(es, p, eof)
  {
    hide *;
    if es == [] {
      CutNothing(p, eof);
    } else if p < |Frame(es[0])| {
      CutInFirst(es, p, eof);
    } else {
      PrintableRest(es);
      ReadFirst(es, p, eof);
      CutFrames(es[1..], p - |Frame(es[0])|, eof);
      DeliveredFirst(es, p, eof);
    }
  }

  lemma PrintableRest(es: seq<Event>)
    requires AllPrintable(es) && es != []
    ensures Printable(es[0]) && AllPrintable(es[1..])
  {
  }

  lemma CutNothing(p: nat, eof: bool)
    requires p <= |Frames([])|
    ensures Read(Frames([])[..p], "", eof) == Delivered([], p, eof)
  {
    NothingRead(eof);
    hide Read;
    assert Frames([])[..p] == "";
  }

  lemma CutInFirst(es: seq<Event>, p: nat, eof: bool)
    requires AllPrintable(es) && es != [] && p < |Frame(es[0])|
    ensures p <= |Frames(es)| && Read(Frames(es)[..p], "", eof) == Delivered(es, p, eof)
  {
    assert Printable(es[0]);
    hide Read, Frame, ClosedAfter, Printable;
    assert Frames(es)[..p] == Frame(es[0])[..p];
    CutFrame(es[0], p, eof);
    assert es[..0] == [];
  }

  lemma ReadFirst(es: seq<Event>, p: nat, eof: bool)
    requires AllPrintable(es) && p <= |Frames(es)| && es != [] && p >= |Frame(es[0])|
    ensures p - |Frame(es[0])| <= |Frames(es[1..])|
    ensures Read(Frames(es)[..p], "", eof) == [es[0]] + Read(Frames(es[1..])[..p - |Frame(es[0])|], "", eof)
  {
    hide *;
    PrintableRest(es);
    FramesRest(es);
    var first, rest := Frame(es[0]), Frames(es[1..]);
    TakeBehind(first, rest, p);
    ReadFrame(es[0], rest[..p - |first|], eof);
  }

  lemma FramesRest(es: seq<Event>)
    requires es != []
    ensures Frames(es) == Frame(es[0]) + Frames(es[1..])
  {
  }

  lemma TakeBehind(a: string, b: string, p: nat)
    requires |a| <= p <= |a| + |b|
    ensures (a + b)[..p] == a + b[..p - |a|]
  {
  }

  lemma DeliveredFirst(es: seq<Event>, p: nat, eof: bool)
    requires es != [] && p >= |Frame(es[0])|
    ensures Delivered(es, p, eof) == [es[0]] + Delivered(es[1..], p - |Frame(es[0])|, eof)
  {
    hide Frame, ClosedAfter, Printable;
    var k := Whole(es[1..], p - |Frame(es[0])|);
    assert es[..k + 1] == [es[0]] + es[1..][..k];
    assert k < |es| - 1 ==> es[1..][k] == es[k + 1];
  }

  lemma NothingRead(eof: bool)
    ensures Read("", "", eof) == []
  {
    ParsedBlank();
    EmptyIsPlain();
    hide Parsed, TrimEol;
    ReadEnd("", "", eof);
  }

  /** The connection did not close in the middle of a payload. */
  predicate ClosedOutsidePayload(es: seq<Event>, p: nat) {
    var k := Whole(es, p);
    k < |es| ==>
      var e, q := es[k], Left(es, p);
      q < |Head(e)| || q > |Head(e)| + |e.payload| || e.payload == ""
  }

  /** A broken connection delivers whole events only; so does a closed one exactly if it was not closed inside a payload. */
  lemma DeliversAPrefix(es: seq<Event>, p: nat, eof: bool)
    requires AllPrintable(es)
    ensures Delivered(es, p, eof) <= es <==> (!eof || ClosedOutsidePayload(es, p))
  {
    hide Whole, Left, Head, Frame, TrimSpace;
    var k := Whole(es, p);
    if eof && k < |es| {
      var q := Left(es, p);
      ClosedIsEvent(es[k], q);
      var d := Delivered(es, p, eof);
      assert d == es[..k] + ClosedAfter(es[k], q);
      assert q >= |Head(es[k])| ==> |d| == k + 1 && d[k] == ClosedAfter(es[k], q)[0];
      hide ClosedAfter;
      assert es[..k + 1] == es[..k] + [es[k]];
    }
  }

  lemma ClosedIsEvent(e: Event, q: nat)
    requires Printable(e) && q < |Frame(e)|
    ensures q < |Head(e)| ==> ClosedAfter(e, q) == []
    ensures q >= |Head(e)| ==> (ClosedAfter(e, q) == [e] <==> (q > |Head(e)| + |e.payload| || e.payload == ""))
  {
    FrameParts(e);
    if q >= |Head(e)| {
      var p := Frame(e)[|Head(e)|..q];
      var text := (" " + e.payload) + "\n";
      assert p == text[..q - |Head(e)|];
      hide Frame, Head, TypePart, Printable;
      TrimOfCut(e.payload, q - |Head(e)|);
    }
  }

  lemma TrimOfCut(payload: string, n: nat)
    requires Trimmed(payload) && n <= |payload| + 2
    ensures TrimSpace(((" " + payload) + "\n")[..n]) == payload <==> (n > |payload| || payload == "")
  {
    assert IsBlank("\n") && IsBlank("") && IsBlank(" ") && IsBlank(" \n");
    var p := ((" " + payload) + "\n")[..n];
    TrimSpaceTrims(payload);
    TrimSpaceIgnoresBlank(payload);
    TrimSpaceIgnoresEnd(" " + payload, "\n");
    hide IsSpace, TrimSpace, IsBlank;
    if n > |payload| {
      assert n == |payload| + 1 ==> p == " " + payload;
      assert n == |payload| + 2 ==> p == (" " + payload) + "\n";
    } else if payload == "" {
      assert p == "";
    } else {
      TrimSpaceShorter(p, payload, n);
    }
  }

  lemma TrimSpaceShorter(p: string, payload: string, n: nat)
    requires n <= |payload| && p == ((" " + payload) + "\n")[..n] && payload != ""
    ensures |TrimSpace(p)| < |payload|
  {
    if n > 0 {
      assert p == " " + payload[..n - 1];
      TrimSpaceIgnoresBlank(payload[..n - 1]);
    }
    hide IsSpace;
  }
}
