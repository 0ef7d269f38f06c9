/** Streamed completions: the read loop of the OpenAI-compatible client, and the single
    home of the non-streaming fallback. */
module Streaming {
  import opened Common

  /** White space as Go trims it, and the decoding of one chunk into the delta contents of
      its choices; both are uninterpreted. */
  datatype Codec = Codec(space: char -> bool, decode: string -> Option<seq<string>>)

  function TrimLeft(c: Codec, s: string): string {
    if s != "" && c.space(s[0]) then TrimLeft(c, s[1..]) else s
  }

  function TrimRight(c: Codec, s: string): string {
    if s != "" && c.space(s[|s| - 1]) then TrimRight(c, s[..|s| - 1]) else s
  }

  function Trim(c: Codec, s: string): string {
    TrimRight(c, TrimLeft(c, s))
  }

  const DATA: string := "data: "

  datatype Meaning = Nothing | DoneMark | Delta(text: string)

  /** Blank lines, other fields, undecodable chunks and empty deltas mean nothing. */
  function MeaningOf(c: Codec, line: string): (m: Meaning)
    ensures m.Delta? ==> m.text != ""
  {
    var t := Trim(c, line);
    if !(DATA <= t) then Nothing
    else if t[|DATA|..] == "[DONE]" then DoneMark
    else
      match c.decode(t[|DATA|..])
      case None => Nothing
      case Some(choices) => if choices == [] || choices[0] == "" then Nothing else Delta(choices[0])
  }

  /** Some line is the done mark. */
  predicate HasDone(c: Codec, lines: seq<string>) {
    lines != [] && (MeaningOf(c, lines[0]).DoneMark? || HasDone(c, lines[1..]))
  }

  /** The deltas of a stream, up to its done mark. */
  function Deltas(c: Codec, lines: seq<string>): seq<string> {
    if lines == [] then []
    else
      match MeaningOf(c, lines[0])
      case DoneMark => []
      case Nothing => Deltas(c, lines[1..])
      case Delta(text) => [text] + Deltas(c, lines[1..])
  }

  function Concat(parts: seq<string>): string {
    if parts == [] then "" else Concat(parts[..|parts| - 1]) + parts[|parts| - 1]
  }

  lemma {:induction false} ConcatAppend(parts: seq<string>, x: string)
    ensures Concat(parts + [x]) == Concat(parts) + x
  {
    assert (parts + [x])[..|parts|] == parts;
  }

  lemma {:induction false} ConcatOne(x: string)
    ensures Concat([x]) == x
  {
    ConcatAppend([], x);
    assert [] + [x] == [x] && "" + x == x;
  }

  /** One line moves the remaining deltas along. */
  lemma {:induction false} LineStep(c: Codec, lines: seq<string>, i: nat, delivered: seq<string>)
    requires i < |lines| && delivered + Deltas(c, lines[i..]) == Deltas(c, lines)
    ensures MeaningOf(c, lines[i]).Nothing? ==> delivered + Deltas(c, lines[i + 1..]) == Deltas(c, lines)
    ensures MeaningOf(c, lines[i]).DoneMark? ==> delivered == Deltas(c, lines)
    ensures MeaningOf(c, lines[i]).Delta? ==>
            (delivered + [MeaningOf(c, lines[i]).text]) + Deltas(c, lines[i + 1..]) == Deltas(c, lines)
    ensures HasDone(c, lines[i..]) <==> MeaningOf(c, lines[i]).DoneMark? || HasDone(c, lines[i + 1..])
  {
    assert lines[i..][0] == lines[i] && lines[i..][1..] == lines[i + 1..];
    var more := Deltas(c, lines[i + 1..]);
    if MeaningOf(c, lines[i]).Delta? {
      var text := MeaningOf(c, lines[i]).text;
      assert delivered + ([text] + more) == (delivered + [text]) + more;
    }
  }

  // ---------- what a line means ----------

  predicate IsBlank(c: Codec, s: string) {
    forall i :: 0 <= i < |s| ==> c.space(s[i])
  }

  /** No white space at either end. */
  predicate IsTrimmed(c: Codec, t: string) {
    t == "" || (!c.space(t[0]) && !c.space(t[|t| - 1]))
  }

  lemma {:induction false} LeftBlanksGo(c: Codec, pre: string, rest: string)
    requires IsBlank(c, pre)
    ensures TrimLeft(c, pre + rest) == TrimLeft(c, rest)
  {
    if pre == "" {
      assert pre + rest == rest;
    } else {
      LeftBlanksGo(c, pre[1..], rest);
      assert (pre + rest)[1..] == pre[1..] + rest;
    }
  }

  lemma {:induction false} RightBlanksGo(c: Codec, t: string, post: string)
    requires IsBlank(c, post)
    ensures TrimRight(c, t + post) == TrimRight(c, t)
  {
    if post == "" {
      assert t + post == t;
    } else {
      var n := |post| - 1;
      RightBlanksGo(c, t, post[..n]);
      assert (t + post)[..|t| + n] == t + post[..n];
    }
  }

  /** Trimming takes exactly the white space around a text. */
  lemma {:induction false} TrimsBlanks(c: Codec, pre: string, t: string, post: string)
    requires IsBlank(c, pre) && IsTrimmed(c, t) && IsBlank(c, post)
    ensures Trim(c, pre + (t + post)) == t
  {
    LeftBlanksGo(c, pre, t + post);
    if t == "" {
      assert t + post == post && post + "" == post;
      LeftBlanksGo(c, post, "");
    } else {
      assert (t + post)[0] == t[0];
      RightBlanksGo(c, t, post);
    }
  }

  /** A trimmed line that starts with the data field and is not the done mark delivers the
      content of the first choice it decodes to; every other line means nothing. */
  lemma {:induction false} LineMeans(c: Codec, pre: string, t: string, post: string)
    requires IsBlank(c, pre) && IsTrimmed(c, t) && IsBlank(c, post)
    ensures var m := MeaningOf(c, pre + (t + post));
            (m == DoneMark <==> t == "data: [DONE]") &&
            (forall x :: m == Delta(x) <==>
              "data: " <= t && t != "data: [DONE]" && x != "" &&
              c.decode(t[6..]).Some? && c.decode(t[6..]).value != [] && c.decode(t[6..]).value[0] == x)
  {
    TrimsBlanks(c, pre, t, post);
    if "data: " <= t {
      assert t == "data: " + t[6..];
      assert t[6..] == "[DONE]" <==> t == "data: [DONE]" by {
        assert "data: [DONE]"[6..] == "[DONE]" && "data: " + "[DONE]" == "data: [DONE]";
      }
    } else {
      assert "data: [DONE]"[..6] == "data: ";
    }
  }

  /** A stream reads like its lines one after the other, up to the first done mark. */
  lemma {:induction false} StreamReadsOn(c: Codec, a: seq<string>, b: seq<string>)
    ensures Deltas(c, a + b) == if HasDone(c, a) then Deltas(c, a) else Deltas(c, a) + Deltas(c, b)
    ensures HasDone(c, a + b) <==> HasDone(c, a) || HasDone(c, b)
  {
    if a == [] {
      assert a + b == b && [] + Deltas(c, b) == Deltas(c, b);
    } else {
      StreamReadsOn(c, a[1..], b);
      assert (a + b)[0] == a[0] && (a + b)[1..] == a[1..] + b;
      if MeaningOf(c, a[0]).Delta? {
        Assoc([MeaningOf(c, a[0]).text], Deltas(c, a[1..]), Deltas(c, b));
      }
    }
  }

  lemma {:induction false} OneLineStream(c: Codec, line: string)
    ensures var m := MeaningOf(c, line);
            Deltas(c, [line]) == (if m.Delta? then [m.text] else []) && (HasDone(c, [line]) <==> m.DoneMark?)
  {
    assert [line][1..] == [] && Deltas(c, []) == [];
  }

  lemma {:induction false} DeltasAreNotEmpty(c: Codec, lines: seq<string>)
    ensures "" !in Deltas(c, lines)
  {
    if lines != [] {
      DeltasAreNotEmpty(c, lines[1..]);
    }
  }

  /** How reading the body ends: regularly, with an error that only the end of the given
      lines brings to light, or with an error that came along with bytes already scanned. */
  datatype Ending = Regular | FailsAtEnd | FailedEarly

  /** The read loop finds an error on its scanner when it leaves the loop.  A done mark ends
      the loop before an error at the end of the lines could be met. */
  predicate Interrupted(c: Codec, lines: seq<string>, ending: Ending) {
    ending.FailedEarly? || (ending.FailsAtEnd? && !HasDone(c, lines))
  }

  /** The consumer returns an error for one of the first n deltas. */
  predicate RefusesWithin(refuses: nat -> bool, n: nat) {
    exists i: nat :: i < n && refuses(i)
  }

  /** The consumer's first refusal comes with the last of these deltas. */
  predicate StopsAtRefusal(refuses: nat -> bool, delivered: seq<string>) {
    delivered != [] && refuses(|delivered| - 1) && !RefusesWithin(refuses, |delivered| - 1)
  }

  /** A reply with the contents of its choices, a refusal by the consumer, or an error. */
  datatype Answer = Answer(choices: seq<string>) | Refused | Broken

  /** Read the body line by line; `refuses(i)` says that the consumer returned an error for
      the i-th delta. */
  method CompleteStream(c: Codec, lines: seq<string>, ending: Ending, refuses: nat -> bool)
    returns (answer: Answer, delivered: seq<string>)
    ensures answer.Refused? <==> RefusesWithin(refuses, |Deltas(c, lines)|)
    ensures answer.Broken? <==> !RefusesWithin(refuses, |Deltas(c, lines)|) && Interrupted(c, lines, ending)
    ensures answer.Refused? ==> delivered <= Deltas(c, lines) && StopsAtRefusal(refuses, delivered)
    ensures !answer.Refused? ==> delivered == Deltas(c, lines)
    ensures answer.Answer? ==> answer.choices == [Concat(Deltas(c, lines))]
  {
    var accumulated := "";
    delivered := [];
    var i := 0;
    var done := false;
    assert lines[0..] == lines && [] + Deltas(c, lines) == Deltas(c, lines);
    while i < |lines| && !done
      invariant i <= |lines|
      invariant accumulated == Concat(delivered)
      invariant if done then delivered == Deltas(c, lines) else delivered + Deltas(c, lines[i..]) == Deltas(c, lines)
      invariant !RefusesWithin(refuses, |delivered|)
      invariant HasDone(c, lines) <==> done || HasDone(c, lines[i..])
      decreases |lines| - i, !done
    {
      var m := MeaningOf(c, lines[i]);
      LineStep(c, lines, i, delivered);
      match m {
        case Nothing =>
        case DoneMark => done := true;
        case Delta(text) =>
          ConcatAppend(delivered, text);
          accumulated := accumulated + text;
          delivered := delivered + [text];
          if refuses(|delivered| - 1) {
            return Refused, delivered;
          }
      }
      i := i + 1;
    }
    assert lines[|lines|..] == [];
    if ending.FailedEarly? || (ending.FailsAtEnd? && !done) {
      return Broken, delivered;
    }
    return Answer([accumulated]), delivered;
  }

  /** A streaming provider with the lines it will send, or one that answers in one piece. */
  datatype Provider = Streams(lines: seq<string>, ending: Ending) | Completes(choices: Option<seq<string>>)

  function ContentOf(choices: seq<string>): string {
    if choices == [] then "" else choices[0]
  }

  /** What the provider has to say, piece by piece. */
  function DeltasOf(c: Codec, p: Provider): seq<string> {
    match p
    case Streams(lines, _) => Deltas(c, lines)
    case Completes(choices) => if choices.None? || choices.value == [] then [] else [choices.value[0]]
  }

  /** The provider delivers a whole answer. */
  predicate Gives(c: Codec, p: Provider) {
    match p
    case Streams(lines, ending) => !Interrupted(c, lines, ending)
    case Completes(choices) => choices.Some?
  }

  function Text(c: Codec, p: Provider): string {
    Concat(DeltasOf(c, p))
  }

  /** Streaming and one-shot answers look the same to the consumer: the answer succeeds
      exactly when the provider gives a whole one and the consumer takes every piece, and
      then the pieces it saw concatenate to the content returned. */
  method StreamOrComplete(c: Codec, p: Provider, refuses: nat -> bool)
    returns (answer: Answer, delivered: seq<string>)
    ensures answer.Refused? <==> RefusesWithin(refuses, |DeltasOf(c, p)|)
    ensures answer.Answer? <==> !RefusesWithin(refuses, |DeltasOf(c, p)|) && Gives(c, p)
    ensures answer.Refused? ==> delivered <= DeltasOf(c, p) && StopsAtRefusal(refuses, delivered)
    ensures !answer.Refused? ==> delivered == DeltasOf(c, p)
    ensures answer.Answer? ==> ContentOf(answer.choices) == Text(c, p) == Concat(delivered)
    ensures answer.Answer? && p.Completes? ==> Some(answer.choices) == p.choices
  {
    if p.Streams? {
      answer, delivered := CompleteStream(c, p.lines, p.ending, refuses);
      return;
    }
    delivered := [];
    if p.choices.None? {
      return Broken, delivered;
    }
    var choices := p.choices.value;
    if |choices| > 0 {
      delivered := [choices[0]];
      ConcatOne(choices[0]);
      if refuses(0) {
        return Refused, delivered;
      }
    }
    return Answer(choices), delivered;
  }
}
