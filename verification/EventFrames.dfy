// Server-sent event frames: what the server prints (internal/v2/app/routes.go)
// and how the client reads it (internal/v2/client/client.go).
module EventFrames {
  import opened Basics
  import opened Text

  datatype Event = Event(seqNo: int, typ: string, payload: string)

  const INT64_MAX := 0x7fff_ffff_ffff_ffff

  // -------- printing --------

  /** %d */
  function Number(n: int): string {
    if n < 0 then "-" + Decimal(-n) else Decimal(n)
  }

  function IdLine(e: Event): string {
    "id: " + Number(e.seqNo)
  }

  function TypeLine(e: Event): string {
    "event: " + e.typ
  }

  function DataLine(e: Event): string {
    "data: " + e.payload
  }

  /** One event as the server prints it. */
  function Frame(e: Event): string {
    IdLine(e) + "\n" + (TypeLine(e) + "\n" + (DataLine(e) + "\n\n"))
  }

  predicate OneLine(s: string) {
    '\n' !in s
  }

  /** What the frame format can carry. */
  predicate Printable(e: Event) {
    && 0 < e.seqNo <= INT64_MAX
    && OneLine(e.typ) && Trimmed(e.typ) && e.typ != "" && e.typ != "keepalive"
    && OneLine(e.payload) && Trimmed(e.payload)
  }

  ghost predicate AllPrintable(es: seq<Event>) {
    forall i :: 0 <= i < |es| ==> Printable(es[i])
  }

  function Frames(es: seq<Event>): string {
    if es == [] then "" else Frame(es[0]) + Frames(es[1..])
  }

  // -------- parsing one frame --------

  /** strings.Split(s, "\n") */
  function Split(s: string): (lines: seq<string>)
    ensures lines != []
    decreases |s|
  {
    if OneLine(s) then [s]
    else
      var i := Pos(s, '\n');
      [s[..i]] + Split(s[i + 1..])
  }

  /** strings.Join(lines, "\n") */
  function Join(lines: seq<string>): string {
    if lines == [] then "" else if |lines| == 1 then lines[0] else lines[0] + "\n" + Join(lines[1..])
  }

  predicate AllDigits(s: string) {
    s != "" && forall i :: 0 <= i < |s| ==> IsDigit(s[i])
  }

  function DigitsValue(s: string): nat
    requires forall i :: 0 <= i < |s| ==> IsDigit(s[i])
  {
    if s == "" then 0
    else
      var last := s[|s| - 1];
      assert IsDigit(last);
      10 * DigitsValue(s[..|s| - 1]) + (last as int - '0' as int)
  }

  /** strconv.ParseInt(s, 10, 64) */
  function ParseInt(s: string): Option<int> {
    var signed := s != "" && (s[0] == '-' || s[0] == '+');
    var digits := if signed then s[1..] else s;
    if !AllDigits(digits) then None
    else
      var v: int := if signed && s[0] == '-' then 0 - DigitsValue(digits) else DigitsValue(digits);
      if -INT64_MAX - 1 <= v <= INT64_MAX then Some(v) else None
  }

  datatype Fields = Fields(typ: string, seqNo: int, data: seq<string>)

  function ScanLine(f: Fields, line: string): Fields {
    if HasPrefix(line, "id:") then
      var parsed := ParseInt(TrimSpace(TrimPrefix(line, "id:")));
      if parsed.Some? then f.(seqNo := parsed.value) else f
    else if HasPrefix(line, "event:") then f.(typ := TrimSpace(TrimPrefix(line, "event:")))
    else if HasPrefix(line, "data:") then f.(data := f.data + [TrimSpace(TrimPrefix(line, "data:"))])
    else f
  }

  function Scan(f: Fields, lines: seq<string>): Fields
    decreases |lines|
  {
    if lines == [] then f else Scan(ScanLine(f, lines[0]), lines[1..])
  }

  function Finish(f: Fields): Option<Event> {
    if f.typ == "" || f.typ == "keepalive" || f.data == [] then None
    else Some(Event(f.seqNo, f.typ, Join(f.data)))
  }

  function Parsed(frame: string): Option<Event> {
    Finish(Scan(Fields("", 0, []), Split(TrimSpace(frame))))
  }

  method ParseEventFrame(frame: string) returns (event: Option<Event>)
    ensures event == Parsed(frame)
  {
    hide ParseInt, TrimSpace, IsBlank, Split, Join;
    var lines := Split(TrimSpace(frame));
    var typ, seqNo, dataLines := "", 0, [];
    for i := 0 to |lines|
      invariant Scan(Fields(typ, seqNo, dataLines), lines[i..]) == Scan(Fields("", 0, []), lines)
    {
      var line := lines[i];
      assert lines[i..][0] == line && lines[i..][1..] == lines[i + 1..];
      if HasPrefix(line, "id:") {
        var parsed := ParseInt(TrimSpace(TrimPrefix(line, "id:")));
        if parsed.Some? {
          seqNo := parsed.value;
        }
      } else if HasPrefix(line, "event:") {
        typ := TrimSpace(TrimPrefix(line, "event:"));
      } else if HasPrefix(line, "data:") {
        dataLines := dataLines + [TrimSpace(TrimPrefix(line, "data:"))];
      }
    }
    if typ == "" || typ == "keepalive" || |dataLines| == 0 {
      return None;
    }
    return Some(Event(seqNo, typ, Join(dataLines)));
  }

  // -------- reading a connection --------

  /** strings.TrimRight(line, "\r\n") */
  function TrimEol(s: string): (t: string)
    ensures t <= s
  {
    if s != "" && (s[|s| - 1] == '\r' || s[|s| - 1] == '\n') then TrimEol(s[..|s| - 1]) else s
  }

  /**
   The events read from text, which ends with the connection closed by the server (eof)
   or broken; frame holds the lines of the frame begun.
   */
  function Read(text: string, frame: string, eof: bool): seq<Event>
    decreases |text|
  {
    if !OneLine(text) then
      var i := Pos(text, '\n');
      var line := TrimEol(text[..i]);
      if line == "" then Listed(Parsed(frame)) + Read(text[i + 1..], "", eof)
      else Read(text[i + 1..], frame + line + "\n", eof)
    else if eof then
      var line := TrimEol(text);
      if line == "" then Listed(Parsed(frame)) + Listed(Parsed("")) else Listed(Parsed(frame + line + "\n"))
    else []
  }

  lemma ReadLine(text: string, frame: string, eof: bool)
    requires !OneLine(text)
    ensures var i := Pos(text, '\n');
            var line := TrimEol(text[..i]);
            Read(text, frame, eof) == if line == "" then Listed(Parsed(frame)) + Read(text[i + 1..], "", eof)
                                      else Read(text[i + 1..], frame + line + "\n", eof)
  {
  }

  lemma ReadEnd(text: string, frame: string, eof: bool)
    requires OneLine(text)
    ensures var line := TrimEol(text);
            Read(text, frame, eof) == if !eof then []
                                      else if line == "" then Listed(Parsed(frame)) + Listed(Parsed(""))
                                      else Listed(Parsed(frame + line + "\n"))
  {
  }

  /** One line read: an empty one ends the frame. */
  method HandleLine(out: seq<Event>, frame: string, line: string) returns (out': seq<Event>, frame': string)
    ensures out' == (if line == "" then out + Listed(Parsed(frame)) else out)
    ensures frame' == if line == "" then "" else frame + line + "\n"
  {
    hide Parsed;
    if line == "" {
      var event := ParseEventFrame(frame);
      return out + Listed(event), "";
    }
    return out, frame + line + "\n";
  }

  lemma ReadNext(out: seq<Event>, text: string, frame: string, eof: bool)
    requires !OneLine(text)
    ensures var i := Pos(text, '\n');
            var line := TrimEol(text[..i]);
            out + Read(text, frame, eof)
            == (if line == "" then out + Listed(Parsed(frame)) else out)
               + Read(text[i + 1..], if line == "" then "" else frame + line + "\n", eof)
  {
    hide TrimEol, Parsed, Read, Pos, Listed;
    ReadLine(text, frame, eof);
    var rest := Read(text[Pos(text, '\n') + 1..], "", eof);
    assert (out + Listed(Parsed(frame))) + rest == out + (Listed(Parsed(frame)) + rest);
  }

  lemma ReadLast(out: seq<Event>, text: string, frame: string, eof: bool)
    requires OneLine(text)
    ensures var line := TrimEol(text);
            out + Read(text, frame, eof)
            == if !eof then out
               else (if line == "" then out + Listed(Parsed(frame)) else out)
                    + Listed(Parsed(if line == "" then "" else frame + line + "\n"))
  {
    hide TrimEol, Parsed, Read, Listed;
    ReadEnd(text, frame, eof);
    assert out + [] == out;
    assert (out + Listed(Parsed(frame))) + Listed(Parsed("")) == out + (Listed(Parsed(frame)) + Listed(Parsed("")));
  }

  /** The reader of StreamEvents; text is everything the connection brings before it ends. */
  method StreamEvents(text: string, eof: bool) returns (out: seq<Event>)
    ensures out == Read(text, "", eof)
  {
    hide TrimEol, Parsed, Read, Pos, Listed;
    out := [];
    var frame, rest := "", text;
    while !OneLine(rest)
      invariant out + Read(rest, frame, eof) == Read(text, "", eof)
      decreases |rest|
    {
      ReadNext(out, rest, frame, eof);
      var end := Pos(rest, '\n');
      out, frame := HandleLine(out, frame, TrimEol(rest[..end]));
      rest := rest[end + 1..];
    }
    ReadLast(out, rest, frame, eof);
    if eof {
      out, frame := HandleLine(out, frame, TrimEol(rest));
      var event := ParseEventFrame(frame);
      out := out + Listed(event);
    }
  }
}
