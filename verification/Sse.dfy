/** Server-sent events: the frame printer of the dashboard and the parser that section
    9.2.6 of the WHATWG HTML Standard prescribes for it. */
module Sse {
  import opened Common

  // ---------- the printer ----------

  /** A scanner token must leave room for its newline in a 64 KiB buffer. */
  const MAX_LINE: nat := 65_535

  /** Position of the first `c`, or the length. */
  function Find(s: string, c: char): (i: nat)
    ensures i <= |s| && (i < |s| ==> s[i] == c) && forall j :: 0 <= j < i ==> s[j] != c
  {
    if s == [] || s[0] == c then 0 else 1 + Find(s[1..], c)
  }

  function DropCR(line: string): string {
    if line != [] && line[|line| - 1] == '\r' then line[..|line| - 1] else line
  }

  /** What follows the line that ends at i. */
  function Next(rest: string, i: nat): (next: string)
    requires i <= |rest|
    ensures rest != "" ==> |next| < |rest|
  {
    if i == |rest| then "" else rest[i + 1..]
  }

  /** The raw lines of a text; a final newline starts no further line. */
  function RawLines(s: string): seq<string>
    decreases |s|
  {
    if s == "" then []
    else
      var i := Find(s, '\n');
      [s[..i]] + RawLines(Next(s, i))
  }

  /** The scanner stops for good at a line that does not fit. */
  function Scanned(lines: seq<string>): seq<string> {
    if lines == [] || |lines[0]| > MAX_LINE then [] else [DropCR(lines[0])] + Scanned(lines[1..])
  }

  function DataLine(line: string): string {
    "data: " + line + "\n"
  }

  function DataLines(lines: seq<string>): string {
    if lines == [] then "" else DataLine(lines[0]) + DataLines(lines[1..])
  }

  /** The data lines of a text, without the blank line that ends the frame. */
  function Body(html: string): string {
    DataLines(Scanned(RawLines(html)))
  }

  function Frame(html: string): string {
    Body(html) + "\n"
  }

  /** What the first line contributes. */
  lemma {:induction false} BodyStep(rest: string, i: nat)
    requires rest != "" && i == Find(rest, '\n')
    ensures Body(rest) == if i > MAX_LINE then "" else DataLine(DropCR(rest[..i])) + Body(Next(rest, i))
  {
    FirstScanned(rest[..i], RawLines(Next(rest, i)));
  }

  lemma {:induction false} FirstScanned(raw: string, more: seq<string>)
    ensures DataLines(Scanned([raw] + more)) ==
            if |raw| > MAX_LINE then "" else DataLine(DropCR(raw)) + DataLines(Scanned(more))
  {
    if |raw| <= MAX_LINE {
      Unroll(raw, more);
    }
  }

  method WriteSSE(html: string) returns (out: string)
    ensures out == Frame(html)
  {
    out := "";
    var rest := html;
    assert out + Body(rest) == Body(html);
    while rest != ""
      invariant out + Body(rest) == Body(html)
      decreases |rest|
    {
      var i := Find(rest, '\n');
      BodyStep(rest, i);
      if i > MAX_LINE {
        break;
      }
      var line := "data: " + DropCR(rest[..i]) + "\n";
      rest := Next(rest, i);
      Assoc(out, line, Body(rest));
      out := out + line;
    }
    out := out + "\n";
  }

  lemma {:induction false} Unroll(raw: string, more: seq<string>)
    requires |raw| <= MAX_LINE
    ensures DataLines(Scanned([raw] + more)) == DataLine(DropCR(raw)) + DataLines(Scanned(more))
  {
    assert ([raw] + more)[1..] == more;
    assert ([DropCR(raw)] + Scanned(more))[1..] == Scanned(more);
  }

  // ---------- the parser of the standard ----------

  predicate IsEnd(c: char) {
    c == '\n' || c == '\r'
  }

  /** Position of the first line terminator, or the length. */
  function LineEnd(s: string): (i: nat)
    ensures i <= |s| && (i < |s| ==> IsEnd(s[i])) && forall j :: 0 <= j < i ==> !IsEnd(s[j])
  {
    if s == [] || IsEnd(s[0]) then 0 else 1 + LineEnd(s[1..])
  }

  /** The text after a terminator: CR LF counts as one. */
  function AfterEnd(s: string, i: nat): (r: string)
    requires i < |s|
    ensures |r| < |s|
  {
    if s[i] == '\r' && i + 1 < |s| && s[i + 1] == '\n' then s[i + 2..] else s[i + 1..]
  }

  function ChopSpace(v: string): string {
    if v != "" && v[0] == ' ' then v[1..] else v
  }

  /** The data buffer after a non-empty line; comments and other fields leave it alone. */
  function Process(buffer: string, line: string): string {
    var i := Find(line, ':');
    var value := if i < |line| then ChopSpace(line[i + 1..]) else "";
    if line[..i] == "data" then buffer + (value + "\n") else buffer
  }

  /** A blank line dispatches the buffer, less its last newline, unless it is empty. */
  function Dispatch(buffer: string): seq<string> {
    if buffer == "" then [] else [buffer[..|buffer| - 1]]
  }

  /** The data of the events in a stream; what the end of the stream cuts off is lost. */
  function Decode(buffer: string, s: string): seq<string>
    decreases |s|
  {
    var i := LineEnd(s);
    if i == |s| then []
    else if i == 0 then Dispatch(buffer) + Decode("", AfterEnd(s, 0))
    else Decode(Process(buffer, s[..i]), AfterEnd(s, i))
  }

  // ---------- round trip ----------

  predicate NoEnd(s: string) {
    forall i :: 0 <= i < |s| ==> !IsEnd(s[i])
  }

  lemma {:induction false} LineEndOf(line: string, rest: string)
    requires NoEnd(line)
    ensures LineEnd(line + "\n" + rest) == |line|
    ensures AfterEnd(line + "\n" + rest, |line|) == rest
  {
    var s := line + "\n" + rest;
    var i := LineEnd(s);
    assert forall j :: 0 <= j < |line| ==> s[j] == line[j];
    assert s[|line|] == '\n';
  }

  lemma {:induction false} ProcessData(buffer: string, line: string)
    ensures Process(buffer, "data: " + line) == buffer + (line + "\n")
  {
    var s := "data: " + line;
    assert s[0] == 'd' && s[1] == 'a' && s[2] == 't' && s[3] == 'a' && s[4] == ':' && s[5] == ' ';
    assert Find(s, ':') == 4;
    assert s[..4] == "data" && s[5..] == " " + line;
    assert (" " + line)[1..] == line;
  }

  lemma {:induction false} DecodeDataLine(buffer: string, line: string, rest: string)
    requires NoEnd(line)
    ensures Decode(buffer, DataLine(line) + rest) == Decode(buffer + (line + "\n"), rest)
  {
    var full := "data: " + line;
    var s := full + "\n" + rest;
    assert DataLine(line) + rest == s;
    LineEndOf(full, rest);
    assert s[..|full|] == full;
    ProcessData(buffer, line);
  }

  ghost predicate AllNoEnd(lines: seq<string>) {
    forall i :: 0 <= i < |lines| ==> NoEnd(lines[i])
  }

  function Terminated(lines: seq<string>): string {
    if lines == [] then "" else (lines[0] + "\n") + Terminated(lines[1..])
  }

  lemma {:induction false} DecodeBlank(buffer: string, rest: string)
    ensures Decode(buffer, "\n" + rest) == Dispatch(buffer) + Decode("", rest)
  {
    LineEndOf("", rest);
    assert "" + "\n" + rest == "\n" + rest;
  }

  lemma {:induction false} DecodeDataLines(buffer: string, lines: seq<string>, rest: string)
    requires AllNoEnd(lines)
    ensures Decode(buffer, DataLines(lines) + ("\n" + rest)) == Dispatch(buffer + Terminated(lines)) + Decode("", rest)
    decreases |lines|
  {
    if lines == [] {
      assert "" + ("\n" + rest) == "\n" + rest && buffer + "" == buffer;
      DecodeBlank(buffer, rest);
    } else {
      Assoc(DataLine(lines[0]), DataLines(lines[1..]), "\n" + rest);
      DecodeDataLine(buffer, lines[0], DataLines(lines[1..]) + ("\n" + rest));
      DecodeDataLines(buffer + (lines[0] + "\n"), lines[1..], rest);
      Assoc(buffer, lines[0] + "\n", Terminated(lines[1..]));
    }
  }

  predicate NoCR(s: string) {
    forall i :: 0 <= i < |s| ==> s[i] != '\r'
  }

  /** The text with its last newline, if it ends in one, removed. */
  function StripNewline(s: string): string {
    if s != "" && s[|s| - 1] == '\n' then s[..|s| - 1] else s
  }

  ghost predicate Fits(html: string) {
    forall i :: 0 <= i < |RawLines(html)| ==> |RawLines(html)[i]| <= 65_535
  }

  /** What a faithful frame must decode to. */
  function Expected(html: string): seq<string> {
    if html == "" then [] else [StripNewline(html)]
  }

  lemma {:induction false} RawLinesHaveNoEnd(s: string)
    requires NoCR(s)
    ensures AllNoEnd(RawLines(s))
    decreases |s|
  {
    if s != "" {
      var i := Find(s, '\n');
      assert NoEnd(s[..i]);
      RawLinesHaveNoEnd(Next(s, i));
    }
  }

  /** A text made of a first line and the rest. */
  lemma {:induction false} StripTail(line: string, more: string)
    ensures var s := (line + "\n") + more;
            StripNewline(s) + "\n" == if more == "" then line + "\n" else (line + "\n") + (StripNewline(more) + "\n")
  {
    var s := (line + "\n") + more;
    if more == "" {
      assert s[..|s| - 1] == line;
    } else if more[|more| - 1] == '\n' {
      assert s[|s| - 1] == '\n' && s[..|s| - 1] == (line + "\n") + more[..|more| - 1];
    } else {
      assert s[|s| - 1] == more[|more| - 1];
    }
  }

  lemma {:induction false} SplitFirst(s: string, i: nat)
    requires i < |s| && s[i] == '\n'
    ensures s == (s[..i] + "\n") + s[i + 1..]
  {}

  lemma {:induction false} RawLinesRebuild(s: string)
    ensures Terminated(RawLines(s)) == if s == "" then "" else StripNewline(s) + "\n"
    decreases |s|
  {
    if s != "" {
      var i := Find(s, '\n');
      if i == |s| {
        assert [s][1..] == [] && Terminated([]) == "";
        assert (s + "\n") + "" == s + "\n";
      } else {
        RawLinesRebuild(s[i + 1..]);
        assert ([s[..i]] + RawLines(s[i + 1..]))[1..] == RawLines(s[i + 1..]);
        SplitFirst(s, i);
        StripTail(s[..i], s[i + 1..]);
        assert (s[..i] + "\n") + "" == s[..i] + "\n";
      }
    }
  }

  lemma {:induction false} ScannedAll(lines: seq<string>)
    requires AllNoEnd(lines) && forall i :: 0 <= i < |lines| ==> |lines[i]| <= MAX_LINE
    ensures Scanned(lines) == lines
  {
    if lines != [] {
      ScannedAll(lines[1..]);
      assert DropCR(lines[0]) == lines[0];
    }
  }

  /** What the lines of a text leave in the buffer is dispatched as the text. */
  lemma {:induction false} DispatchesText(html: string)
    ensures Dispatch(Terminated(RawLines(html))) == Expected(html)
  {
    RawLinesRebuild(html);
    if html != "" {
      var buffer := StripNewline(html) + "\n";
      assert buffer[..|buffer| - 1] == StripNewline(html);
    }
  }

  /** A frame decodes to its input, wherever in a stream it stands. */
  lemma {:induction false} FrameDecodes(html: string, rest: string)
    requires NoCR(html) && Fits(html)
    ensures Decode("", Frame(html) + rest) == Expected(html) + Decode("", rest)
  {
    var lines := RawLines(html);
    RawLinesHaveNoEnd(html);
    ScannedAll(lines);
    DecodeDataLines("", lines, rest);
    DispatchesText(html);
    assert "" + Terminated(lines) == Terminated(lines);
    Assoc(DataLines(lines), "\n", rest);
  }

  function Frames(htmls: seq<string>): string {
    if htmls == [] then "" else Frame(htmls[0]) + Frames(htmls[1..])
  }

  function ExpectedAll(htmls: seq<string>): seq<string> {
    if htmls == [] then [] else Expected(htmls[0]) + ExpectedAll(htmls[1..])
  }

  /** A stream of frames decodes to its non-empty inputs in order. */
  lemma {:induction false} StreamDecodes(htmls: seq<string>)
    requires forall i :: 0 <= i < |htmls| ==> NoCR(htmls[i]) && Fits(htmls[i])
    ensures Decode("", Frames(htmls)) == ExpectedAll(htmls)
  {
    if htmls != [] {
      StreamDecodes(htmls[1..]);
      FrameDecodes(htmls[0], Frames(htmls[1..]));
    }
  }

  // ---------- and only then ----------

  /** No event ever carries a CR: the parser treats it as the end of a line. */
  lemma {:induction false} EventsHaveNoCR(buffer: string, s: string)
    requires NoCR(buffer)
    ensures forall i :: 0 <= i < |Decode(buffer, s)| ==> NoCR(Decode(buffer, s)[i])
    decreases |s|
  {
    var i := LineEnd(s);
    if i < |s| {
      if i == 0 {
        EventsHaveNoCR("", AfterEnd(s, 0));
      } else {
        assert NoEnd(s[..i]);
        assert NoCR(Process(buffer, s[..i]));
        EventsHaveNoCR(Process(buffer, s[..i]), AfterEnd(s, i));
      }
    }
  }

  lemma {:induction false} StripKeepsCR(s: string)
    requires !NoCR(s)
    ensures !NoCR(StripNewline(s))
  {
    var i :| 0 <= i < |s| && s[i] == '\r';
    assert StripNewline(s)[i] == '\r';
  }

  lemma {:induction false} ScannedIsPrefix(lines: seq<string>)
    requires AllNoEnd(lines)
    ensures Scanned(lines) <= lines
    ensures |Scanned(lines)| < |lines| <==> exists i :: 0 <= i < |lines| && |lines[i]| > MAX_LINE
  {
    if lines != [] && |lines[0]| <= MAX_LINE {
      ScannedIsPrefix(lines[1..]);
      assert DropCR(lines[0]) == lines[0];
      if |Scanned(lines[1..])| < |lines[1..]| {
        var i :| 0 <= i < |lines[1..]| && |lines[1..][i]| > MAX_LINE;
        assert |lines[i + 1]| > MAX_LINE;
      }
      if exists i :: 0 <= i < |lines| && |lines[i]| > MAX_LINE {
        var i :| 0 <= i < |lines| && |lines[i]| > MAX_LINE;
        assert |lines[1..][i - 1]| > MAX_LINE;
      }
    }
  }

  lemma {:induction false} TerminatedGrows(a: seq<string>, b: seq<string>)
    requires a < b
    ensures |Terminated(a)| < |Terminated(b)|
  {
    if a != [] {
      assert a[1..] < b[1..] && a[0] == b[0];
      TerminatedGrows(a[1..], b[1..]);
    }
  }

  /** A frame decodes to its input exactly when the input has no CR and every line fits
      the scanner. */
  lemma {:induction false} FrameDecodesExactly(html: string)
    ensures Decode("", Frame(html)) == Expected(html) <==> NoCR(html) && Fits(html)
  {
    if NoCR(html) && Fits(html) {
      FrameDecodes(html, "");
      assert Frame(html) + "" == Frame(html);
    } else if !NoCR(html) {
      CarriageReturnIsLost(html);
    } else {
      LongLineIsLost(html);
    }
  }

  lemma {:induction false} CarriageReturnIsLost(html: string)
    requires !NoCR(html)
    ensures Decode("", Frame(html)) != Expected(html)
  {
    var events := Decode("", Frame(html));
    EventsHaveNoCR("", Frame(html));
    StripKeepsCR(html);
    assert Expected(html)[0] == StripNewline(html);
    assert events != [] ==> events[0] != Expected(html)[0];
  }

  /** What is decoded is what the scanner kept. */
  lemma {:induction false} FrameDecodesToKept(html: string)
    requires NoCR(html)
    ensures Decode("", Frame(html)) == Dispatch(Terminated(Scanned(RawLines(html))))
  {
    var kept := Scanned(RawLines(html));
    RawLinesHaveNoEnd(html);
    ScannedIsPrefix(RawLines(html));
    DecodeBody(kept);
  }

  lemma {:induction false} DecodeBody(lines: seq<string>)
    requires AllNoEnd(lines)
    ensures Decode("", DataLines(lines) + "\n") == Dispatch(Terminated(lines))
  {
    DecodeDataLines("", lines, "");
    assert "\n" + "" == "\n" && "" + Terminated(lines) == Terminated(lines);
    assert Decode("", "") == [] && Dispatch(Terminated(lines)) + [] == Dispatch(Terminated(lines));
  }

  lemma {:induction false} LongLineIsLost(html: string)
    requires NoCR(html) && !Fits(html)
    ensures Decode("", Frame(html)) != Expected(html)
  {
    FrameDecodesToKept(html);
    RawLinesHaveNoEnd(html);
    ScannedIsPrefix(RawLines(html));
    TerminatedGrows(Scanned(RawLines(html)), RawLines(html));
    RawLinesRebuild(html);
  }
}
