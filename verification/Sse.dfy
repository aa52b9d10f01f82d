/**
 Server-sent-event text, read two ways and printed one way.

 The offline parser splits the body at blank lines, the live loop reads it line by line, and the hub's
 viewers are sent printed envelopes.

 LF is the only line break here.
 */
module Sse {
  import opened Prelude
  import opened Broadcast

  const LF := '\n'

  const DATA: string := ['d', 'a', 't', 'a', ':']

  predicate Space(c: char) { c == ' ' || c == '\t' || c == '\n' || c == '\r' || c == '\U{0B}' || c == '\U{0C}' }

  function LStrip(s: string): string { if |s| > 0 && Space(s[0]) then LStrip(s[1..]) else s }

  function RStrip(s: string): string { if |s| > 0 && Space(s[|s| - 1]) then RStrip(s[..|s| - 1]) else s }

  function Strip(s: string): string { RStrip(LStrip(s)) }

  /** ASCII whitespace. */
  const BLANKS: set<char> := {' ', '\t', '\n', '\r', '\U{0B}', '\U{0C}'}

  predicate AllBlank(s: string) { forall i | 0 <= i < |s| :: s[i] in BLANKS }

  lemma {:induction false} LStripTrims(s: string) returns (i: nat)
    ensures i <= |s| && LStrip(s) == s[i..] && AllBlank(s[..i]) && (i < |s| ==> s[i] !in BLANKS)
  {
    if |s| > 0 && Space(s[0]) {
      var j := LStripTrims(s[1..]);
      i := j + 1;
      assert s[1..][j..] == s[i..];
      assert forall k | 0 < k < i :: s[..i][k] == s[1..][..j][k - 1];
    } else {
      i := 0;
    }
  }

  lemma {:induction false} RStripTrims(s: string) returns (j: nat)
    ensures j <= |s| && RStrip(s) == s[..j] && AllBlank(s[j..]) && (0 < j ==> s[j - 1] !in BLANKS)
  {
    var n := |s| - 1;
    if |s| > 0 && Space(s[n]) {
      j := RStripTrims(s[..n]);
      assert s[..n][..j] == s[..j];
      assert forall k | 0 <= k < n - j :: s[j..][k] == s[..n][j..][k];
    } else {
      j := |s|;
    }
  }

  /** Strip takes the blanks off both ends, and nothing else. */
  lemma {:induction false} StripTrims(s: string) returns (before: string, after: string)
    ensures s == before + Strip(s) + after && AllBlank(before) && AllBlank(after)
    ensures Strip(s) == [] || (Strip(s)[0] !in BLANKS && Strip(s)[|Strip(s)| - 1] !in BLANKS)
  {
    var i := LStripTrims(s);
    var j := RStripTrims(s[i..]);
    before, after := s[..i], s[i..][j..];
    assert s[i..] == s[i..][..j] + after;
  }

  function FirstLf(s: string): (k: nat)
    ensures k <= |s| && (k < |s| ==> s[k] == LF) && forall i | 0 <= i < k :: s[i] != LF
  {
    if |s| == 0 || s[0] == LF then 0 else 1 + FirstLf(s[1..])
  }

  predicate GapAt(s: string, k: nat) { k + 1 < |s| && s[k] == LF && s[k + 1] == LF }

  function FirstGap(s: string): (k: nat)
    ensures k <= |s| && (k < |s| ==> GapAt(s, k)) && forall i: nat | i < k :: !GapAt(s, i)
  {
    if |s| < 2 then |s|
    else if GapAt(s, 0) then 0
    else
      var rest := FirstGap(s[1..]);
      assert forall i: nat | 0 < i :: GapAt(s, i) == GapAt(s[1..], i - 1);
      1 + rest
  }

  /** splitlines: no line after a final LF. */
  function Lines(s: string): seq<string> {
    if |s| == 0 then []
    else
      var k := FirstLf(s);
      if k == |s| then [s] else [s[..k]] + Lines(s[k + 1..])
  }

  /** split at each blank line, leftmost first. */
  function Frames(s: string): seq<string> {
    var k := FirstGap(s);
    if k == |s| then [s] else [s[..k]] + Frames(s[k + 2..])
  }

  predicate IsData(line: string) { DATA <= line }

  function Datum(line: string): string
    requires IsData(line)
  {
    Strip(line[|DATA|..])
  }

  function Collected(lines: seq<string>): seq<string> {
    if |lines| == 0 then []
    else
      var rest := Collected(lines[..|lines| - 1]);
      if IsData(lines[|lines| - 1]) then rest + [Datum(lines[|lines| - 1])] else rest
  }

  function Joined(parts: seq<string>): string {
    if |parts| == 0 then [] else Joined(parts[..|parts| - 1]) + parts[|parts| - 1]
  }

  function Payload(frame: string): string { Joined(Collected(Lines(frame))) }

  function One(payload: string): seq<string> { if payload == [] then [] else [payload] }

  /** The payloads of the frames that have one. */
  function Payloads(frames: seq<string>): seq<string> {
    if |frames| == 0 then [] else One(Payload(frames[0])) + Payloads(frames[1..])
  }

  /** What the offline parser hands to the JSON decoder. */
  function Parsed(text: string): seq<string> { Payloads(Frames(text)) }

  /** The live loop: data lines of the frame still open, and the payloads fed so far. */
  datatype Reader = Reader(data: seq<string>, fed: seq<string>)

  const IDLE := Reader([], [])

  function Close(r: Reader): Reader { if |r.data| > 0 then Reader([], r.fed + [Joined(r.data)]) else r }

  function ReadLine(r: Reader, line: string): Reader {
    if IsData(line) then r.(data := r.data + [Datum(line)])
    else if Strip(line) == [] then Close(r)
    else r
  }

  function ReadFrom(r: Reader, lines: seq<string>): Reader {
    if |lines| == 0 then r else ReadLine(ReadFrom(r, lines[..|lines| - 1]), lines[|lines| - 1])
  }

  /** What the live loop hands to the JSON decoder, its last open frame included. */
  function Driven(lines: seq<string>): seq<string> { Close(ReadFrom(IDLE, lines)).fed }

  method DriveStream(lines: seq<string>) returns (fed: seq<string>)
    ensures fed == Driven(lines)
  {
    fed := [];
    var data: seq<string> := [];
    for i := 0 to |lines|
      invariant Reader(data, fed) == ReadFrom(IDLE, lines[..i])
    {
      assert lines[..i + 1][..i] == lines[..i];
      if IsData(lines[i]) {
        data := data + [Strip(lines[i][|DATA|..])];
      } else if Strip(lines[i]) == [] {
        if |data| > 0 {
          fed := fed + [Joined(data)];
          data := [];
        }
      }
    }
    assert lines[..|lines|] == lines;
    if |data| > 0 {
      fed := fed + [Joined(data)];
    }
  }

  method PayloadOf(frame: string) returns (payload: string)
    ensures payload == Payload(frame)
  {
    payload := [];
    var lines := Lines(frame);
    for j := 0 to |lines|
      invariant payload == Joined(Collected(lines[..j]))
    {
      assert lines[..j + 1][..j] == lines[..j];
      if IsData(lines[j]) {
        payload := payload + Strip(lines[j][|DATA|..]);
      }
    }
    assert lines[..|lines|] == lines;
  }

  method IterSseEvents(text: string) returns (fed: seq<string>)
    ensures fed == Parsed(text)
  {
    fed := [];
    var frames := Frames(text);
    assert frames[0..] == frames && [] + Payloads(frames) == Payloads(frames);
    for i := 0 to |frames|
      invariant fed + Payloads(frames[i..]) == Payloads(frames)
    {
      PayloadsUnfold(fed, frames, i);
      var payload := PayloadOf(frames[i]);
      if payload != [] {
        fed := fed + [payload];
      } else {
        assert fed + [] == fed;
      }
    }
    assert Payloads(frames[|frames|..]) == [] && fed + [] == fed;
  }

  lemma {:induction false} PayloadsUnfold(fed: seq<string>, frames: seq<string>, i: nat)
    requires i < |frames|
    ensures fed + Payloads(frames[i..]) == fed + One(Payload(frames[i])) + Payloads(frames[i + 1..])
  {
    assert frames[i..][1..] == frames[i + 1..];
    ConcatAssoc(fed, One(Payload(frames[i])), Payloads(frames[i + 1..]));
  }

  // ----- the two readers agree -----

  predicate OneLine(s: string) { forall i | 0 <= i < |s| :: s[i] != LF }

  lemma {:induction false} LinesUnfold(x: string, rest: string)
    requires OneLine(x)
    ensures Lines(x + [LF] + rest) == [x] + Lines(rest)
  {
    var s := x + [LF] + rest;
    assert s[|x|] == LF && forall i | 0 <= i < |x| :: s[i] == x[i];
    assert FirstLf(s) == |x|;
    assert s[..|x|] == x && s[|x| + 1..] == rest;
  }

  lemma {:induction false} SplitAtLf(s: string, k: nat)
    requires k < |s| && s[k] == LF
    ensures s == s[..k] + [LF] + s[k + 1..]
  {
  }

  lemma {:induction false} LinesConcatStep(x: string, rest: string, b: string)
    requires OneLine(x) && Lines(rest + [LF] + b) == Lines(rest + [LF]) + Lines(b)
    ensures Lines(x + [LF] + rest + [LF] + b) == Lines(x + [LF] + rest + [LF]) + Lines(b)
  {
    var head := x + [LF];
    LinesUnfold(x, rest + [LF] + b);
    LinesUnfold(x, rest + [LF]);
    ConcatAssoc(head, rest, [LF]);
    ConcatAssoc(head, rest + [LF], b);
    ConcatAssoc([x], Lines(rest + [LF]), Lines(b));
  }

  lemma {:induction false} LinesConcat(a: string, b: string)
    ensures Lines(a + [LF] + b) == Lines(a + [LF]) + Lines(b)
    decreases |a|
  {
    var k := FirstLf(a);
    if k == |a| {
      LinesUnfold(a, b);
      LinesUnfold(a, []);
      assert a + [LF] + [] == a + [LF];
    } else {
      LinesConcat(a[k + 1..], b);
      LinesConcatStep(a[..k], a[k + 1..], b);
      SplitAtLf(a, k);
    }
  }

  lemma {:induction false} ReadConcat(r: Reader, a: seq<string>, b: seq<string>)
    ensures ReadFrom(r, a + b) == ReadFrom(ReadFrom(r, a), b)
  {
    if |b| == 0 {
      assert a + b == a;
    } else {
      ReadConcat(r, a, b[..|b| - 1]);
      assert (a + b)[..|a + b| - 1] == a + b[..|b| - 1];
    }
  }

  /** Whitespace-only lines end a frame for the live loop only. */
  predicate NoWhitespaceOnly(lines: seq<string>) {
    forall i | 0 <= i < |lines| :: lines[i] == [] || Strip(lines[i]) != []
  }

  ghost predicate NoGap(s: string) { forall i: nat :: !GapAt(s, i) }

  /** Without a blank line inside, only the first line can be empty. */
  lemma {:induction false} OnlyFirstEmpty(s: string)
    requires NoGap(s)
    ensures forall i | 0 < i < |Lines(s)| :: Lines(s)[i] != []
    ensures |s| > 0 && s[0] != LF ==> Lines(s) != [] && Lines(s)[0] != []
    decreases |s|
  {
    if |s| == 0 {
    } else {
      var k := FirstLf(s);
      if k < |s| {
        var rest := s[k + 1..];
        assert forall i: nat :: GapAt(rest, i) ==> GapAt(s, i + k + 1);
        assert !GapAt(s, k);
        OnlyFirstEmpty(rest);
        assert Lines(s) == [s[..k]] + Lines(rest);
      }
    }
  }

  function NonEmpty(payloads: seq<string>): seq<string> {
    if |payloads| == 0 then []
    else NonEmpty(payloads[..|payloads| - 1]) + One(payloads[|payloads| - 1])
  }

  lemma {:induction false} NoGapUpTo(text: string, k: nat)
    requires k == FirstGap(text) < |text|
    ensures NoGap(text[..k + 1])
  {
    var head := text[..k + 1];
    forall i: nat ensures !GapAt(head, i) {
      assert i < k ==> !GapAt(text, i);
    }
  }

  lemma {:induction false} SplitAtGap(text: string, k: nat)
    requires GapAt(text, k)
    ensures text[..k + 1] == text[..k] + [LF]
    ensures text == text[..k] + [LF] + ([LF] + text[k + 2..])
  {
    SplitAtLf(text, k);
    assert text[k + 1..] == [LF] + text[k + 2..];
  }

  lemma {:induction false} EndsAtGap(text: string, k: nat)
    requires k == FirstGap(text) < |text|
    ensures NoGap(text[..k] + [LF])
    ensures Lines(text) == Lines(text[..k] + [LF]) + ([[]] + Lines(text[k + 2..]))
  {
    NoGapUpTo(text, k);
    SplitAtGap(text, k);
    LinesConcat(text[..k], [LF] + text[k + 2..]);
    LinesUnfold([], text[k + 2..]);
    assert [] + [LF] + text[k + 2..] == [LF] + text[k + 2..];
  }

  lemma {:induction false} FinalLfAddsNoLine(s: string)
    requires |s| > 0 && s[|s| - 1] != LF
    ensures Lines(s + [LF]) == Lines(s)
    decreases |s|
  {
    var k := FirstLf(s);
    if k < |s| {
      var x, rest := s[..k], s[k + 1..];
      SplitAtLf(s, k);
      FinalLfAddsNoLine(rest);
      LinesUnfold(x, rest);
      LinesUnfold(x, rest + [LF]);
      assert s + [LF] == x + [LF] + (rest + [LF]);
    } else {
      LinesUnfold(s, []);
      assert s + [LF] + [] == s + [LF];
    }
  }

  lemma {:induction false} PartsNoWhitespaceOnly(a: seq<string>, b: seq<string>, all: seq<string>)
    requires NoWhitespaceOnly(all) && all == a + ([[]] + b)
    ensures NoWhitespaceOnly(a) && NoWhitespaceOnly(b)
  {
    forall i | 0 <= i < |a| ensures a[i] == [] || Strip(a[i]) != [] {
      assert a[i] == all[i];
    }
    forall i | 0 <= i < |b| ensures b[i] == [] || Strip(b[i]) != [] {
      assert b[i] == all[|a| + 1 + i];
    }
  }

  lemma {:induction false} ReadPastGap(r: Reader, a: seq<string>, b: seq<string>)
    ensures ReadFrom(r, a + ([[]] + b)) == ReadFrom(Close(ReadFrom(r, a)), b)
  {
    ReadConcat(r, a, [[]] + b);
    ReadConcat(ReadFrom(r, a), [[]], b);
  }

  lemma {:induction false} NonEmptyIsAllIff(payloads: seq<string>)
    ensures |NonEmpty(payloads)| <= |payloads|
    ensures NonEmpty(payloads) == payloads <==> [] !in payloads
  {
    if |payloads| == 0 {
    } else {
      NonEmptyIsAllIff(payloads[..|payloads| - 1]);
    }
  }

  lemma {:induction false} ThreeLines(a: string, b: string, c: string)
    requires OneLine(a) && OneLine(b) && OneLine(c) && b != [] && c != []
    ensures NoGap(a + [LF] + (b + [LF] + c)) && Lines(a + [LF] + (b + [LF] + c)) == [a, b, c]
  {
    LinesUnfold(a, b + [LF] + c);
    LinesUnfold(b, c);
  }

  lemma {:induction false} OneFrame(text: string)
    requires NoGap(text)
    ensures Parsed(text) == One(Payload(text))
  {
    assert FirstGap(text) == |text|;
    var frames := Frames(text);
    assert frames == [text] && frames[1..] == [];
    assert Payloads(frames) == One(Payload(frames[0])) + Payloads(frames[1..]);
  }

  lemma {:induction false} ReadSnoc(r: Reader, lines: seq<string>, x: string)
    ensures ReadFrom(r, lines + [x]) == ReadLine(ReadFrom(r, lines), x)
  {
    assert (lines + [x])[..|lines|] == lines;
  }

  lemma {:induction false} CollectedThree(a: string, b: string, c: string)
    requires IsData(a) && !IsData(b) && IsData(c)
    ensures Joined(Collected([a, b, c])) == Datum(a) + Datum(c)
  {
    assert [a, b] + [c] == [a, b, c] && [a] + [b] == [a, b];
    CollectedOne(a);
  }

  lemma {:induction false} DrivenThree(a: string, b: string, c: string)
    requires IsData(a) && !IsData(b) && Strip(b) == [] && IsData(c)
    ensures Driven([a, b, c]) == [] + [Datum(a)] + [Datum(c)]
  {
    assert [a, b, c] == [] + [a] + [b] + [c];
    ReadSnoc(IDLE, [], a);
    ReadSnoc(IDLE, [] + [a], b);
    ReadSnoc(IDLE, [] + [a] + [b], c);
    JoinedOne(Datum(a));
    JoinedOne(Datum(c));
  }

  lemma {:induction false} JoinedOne(part: string)
    ensures Joined([] + [part]) == part
  {
  }

  // ----- printing and parsing back -----

  function Digit(d: nat): char
    requires d < 10
  {
    '0' + d as char
  }

  function Decimal(n: nat): (s: string)
    ensures OneLine(s)
  {
    if n < 10 then [Digit(n)] else Decimal(n / 10) + [Digit(n % 10)]
  }

  const ID: string := ['i', 'd', ':', ' ']

  const KEEP_ALIVE: string := [':', ' ', 'k', 'e', 'e', 'p', '-', 'a', 'l', 'i', 'v', 'e']

  /** The lines of an envelope's frame. */
  function FrameLines(e: Envelope): seq<string> {
    if e.id.Some? then [ID + Decimal(e.id.value), DATA + [' '] + e.data]
    else if e.data != [] then [DATA + [' '] + e.data]
    else [KEEP_ALIVE]
  }

  /** Envelope.sse: a real event with its id, a notification without one, or a heartbeat comment. */
  function Print(e: Envelope): string {
    if e.id.Some? then ID + Decimal(e.id.value) + [LF] + (DATA + [' '] + e.data) + [LF, LF]
    else if e.data != [] then DATA + [' '] + e.data + [LF, LF]
    else KEEP_ALIVE + [LF, LF]
  }

  function PrintAll(envs: seq<Envelope>): string {
    if |envs| == 0 then [] else Print(envs[0]) + PrintAll(envs[1..])
  }

  function Datas(envs: seq<Envelope>): seq<string> {
    if |envs| == 0 then [] else One(envs[0].data) + Datas(envs[1..])
  }

  /** A payload is one line of JSON: no LF, no blank at either end. */
  predicate Clean(e: Envelope) { OneLine(e.data) && Strip(e.data) == e.data }

  lemma {:induction false} DatumOfPrinted(data: string)
    ensures IsData(DATA + [' '] + data) && Datum(DATA + [' '] + data) == Strip(data)
  {
    assert (DATA + [' '] + data)[|DATA|..] == [' '] + data;
    assert ([' '] + data)[1..] == data;
  }

  /** A frame body: what Print puts before the blank line. */
  ghost predicate Body(body: string, lines: seq<string>) {
    body != [] && body[|body| - 1] != LF && NoGap(body) && Lines(body) == lines
  }

  lemma {:induction false} OneLineBody(x: string)
    requires OneLine(x) && x != []
    ensures Body(x, [x])
  {
  }

  lemma {:induction false} TwoLineBody(x: string, y: string)
    requires OneLine(x) && OneLine(y) && y != []
    ensures Body(x + [LF] + y, [x, y])
  {
    LinesUnfold(x, y);
  }

  /** A real event's frame. */
  lemma {:induction false} EventBody(first: string, data: string)
    requires OneLine(first) && ID <= first && OneLine(data) && Strip(data) == data
    ensures var line := DATA + [' '] + data;
      Body(first + [LF] + line, [first, line]) && Payload(first + [LF] + line) == data
  {
    var line := DATA + [' '] + data;
    DatumOfPrinted(data);
    TwoLineBody(first, line);
    assert first[0] == 'i';
    CollectedTwo(first, line);
  }

  lemma {:induction false} PrintedBody(e: Envelope) returns (body: string)
    requires Clean(e)
    ensures Print(e) == body + [LF, LF] && Body(body, FrameLines(e))
    ensures One(Payload(body)) == One(e.data)
  {
    var line := DATA + [' '] + e.data;
    if e.id.Some? {
      var first := ID + Decimal(e.id.value);
      body := first + [LF] + line;
      EventBody(first, e.data);
    } else if e.data != [] {
      DatumOfPrinted(e.data);
      body := line;
      OneLineBody(line);
      CollectedOne(line);
    } else {
      body := KEEP_ALIVE;
      OneLineBody(body);
      CollectedOne(body);
    }
  }

  lemma {:induction false} CollectedOne(a: string)
    ensures Joined(Collected([a])) == if IsData(a) then Datum(a) else []
  {
    assert [a] == [] + [a];
  }

  lemma {:induction false} CollectedTwo(a: string, b: string)
    requires !IsData(a) && IsData(b)
    ensures Joined(Collected([a, b])) == Datum(b)
  {
    assert [a, b] == [a] + [b];
    CollectedOne(a);
  }

  lemma {:induction false} GapAfterBody(body: string, rest: string)
    requires body != [] && body[|body| - 1] != LF && NoGap(body)
    ensures Parsed(body + [LF, LF] + rest) == One(Payload(body)) + Parsed(rest)
  {
    var text := body + [LF, LF] + rest;
    var k := |body|;
    assert GapAt(text, k);
    forall i: nat | i < k ensures !GapAt(text, i) {
      assert text[i] == body[i] && (i + 1 < k ==> text[i + 1] == body[i + 1]);
      assert !GapAt(body, i);
    }
    assert FirstGap(text) == k;
    assert text[..k] == body && text[k + 2..] == rest;
  }

  /**
   Printing then parsing: the payloads of the printed envelopes come back in order, byte for byte;
   heartbeats, ids and frame boundaries leave nothing behind.
   */
  lemma {:induction false} PrintThenParse(envs: seq<Envelope>)
    requires forall k | 0 <= k < |envs| :: Clean(envs[k])
    ensures Parsed(PrintAll(envs)) == Datas(envs)
  {
    if |envs| == 0 {
      assert Frames([])[1..] == [];
    } else {
      var body := PrintedBody(envs[0]);
      PrintThenParse(envs[1..]);
      GapAfterBody(body, PrintAll(envs[1..]));
    }
  }
}
