/**
 The two readers compared. A whitespace-only line is a line like any other to the splitter and the end
 of a frame to the line loop, so the loop reads each of the splitter's frames as groups of data lines.
 */
module Framers {
  import opened Prelude
  import opened Sse

  /** The data lines of a frame, in groups parted by its whitespace-only lines. */
  function Groups(lines: seq<string>): (groups: seq<seq<string>>)
    ensures |groups| > 0
  {
    if |lines| == 0 then [[]]
    else
      var rest, line := Groups(lines[..|lines| - 1]), lines[|lines| - 1];
      var n := |rest| - 1;
      if IsData(line) then rest[..n] + [rest[n] + [Datum(line)]]
      else if Strip(line) == [] then rest + [[]]
      else rest
  }

  /** What the loop feeds when it closes a group: its payload, if it has a line at all. */
  function Closed(group: seq<string>): seq<string> { if group == [] then [] else [Joined(group)] }

  /** What the loop feeds of these groups. */
  function Spoken(groups: seq<seq<string>>): seq<string> {
    if |groups| == 0 then [] else Spoken(groups[..|groups| - 1]) + Closed(groups[|groups| - 1])
  }

  function SpokenOf(frame: string): seq<string> { Spoken(Groups(Lines(frame))) }

  function AllSpoken(frames: seq<string>): seq<string> {
    if |frames| == 0 then [] else SpokenOf(frames[0]) + AllSpoken(frames[1..])
  }

  /** The payloads of the groups that have one. */
  function Loud(groups: seq<seq<string>>): seq<string> {
    if |groups| == 0 then [] else Loud(groups[..|groups| - 1]) + One(Joined(groups[|groups| - 1]))
  }

  function LoudOf(frame: string): seq<string> { Loud(Groups(Lines(frame))) }

  function AllLoud(frames: seq<string>): seq<string> {
    if |frames| == 0 then [] else LoudOf(frames[0]) + AllLoud(frames[1..])
  }

  /** No frame has two groups with a payload. */
  predicate OneGroupEach(frames: seq<string>) { forall k | 0 <= k < |frames| :: |LoudOf(frames[k])| <= 1 }

  /** No group's data lines are all blank. */
  predicate NoneBlank(groups: seq<seq<string>>) {
    forall g | 0 <= g < |groups| && groups[g] != [] :: Joined(groups[g]) != []
  }

  /** No frame has a group of data lines that are all blank. */
  predicate NoBlankGroup(frames: seq<string>) { forall k | 0 <= k < |frames| :: NoneBlank(Groups(Lines(frames[k]))) }

  function Init(groups: seq<seq<string>>): seq<seq<string>>
    requires |groups| > 0
  {
    groups[..|groups| - 1]
  }

  function Last(groups: seq<seq<string>>): seq<string>
    requires |groups| > 0
  {
    groups[|groups| - 1]
  }

  lemma {:induction false} GroupsSnoc(lines: seq<string>, line: string)
    ensures var g, h := Groups(lines), Groups(lines + [line]);
      if IsData(line) then Init(h) == Init(g) && Last(h) == Last(g) + [Datum(line)]
      else if Strip(line) == [] then Init(h) == g && Last(h) == []
      else h == g
  {
    assert (lines + [line])[..|lines|] == lines;
  }

  /** What the line loop has after the frame's lines: the open group, and what it fed of those before it. */
  ghost predicate ReadsGroups(fed: seq<string>, lines: seq<string>) {
    var r, g := ReadFrom(Reader([], fed), lines), Groups(lines);
    r.data == Last(g) && r.fed == fed + Spoken(Init(g))
  }

  lemma {:induction false} ReadLineGroups(fed: seq<string>, lines: seq<string>, line: string)
    requires ReadsGroups(fed, lines)
    ensures ReadsGroups(fed, lines + [line])
  {
    ReadSnoc(Reader([], fed), lines, line);
    GroupsSnoc(lines, line);
  }

  lemma {:induction false} AllReadsGroups(fed: seq<string>, lines: seq<string>)
    ensures ReadsGroups(fed, lines)
  {
    if |lines| == 0 {
      assert Groups(lines) == [[]] && Init([[]]) == [];
      assert fed + [] == fed;
    } else {
      var init, line := lines[..|lines| - 1], lines[|lines| - 1];
      AllReadsGroups(fed, init);
      ReadLineGroups(fed, init, line);
      assert lines == init + [line];
    }
  }

  /** Closed at its end, a frame's lines feed what its groups speak. */
  lemma {:induction false} FrameFeeds(fed: seq<string>, lines: seq<string>)
    ensures Close(ReadFrom(Reader([], fed), lines)) == Reader([], fed + Spoken(Groups(lines)))
  {
    AllReadsGroups(fed, lines);
  }

  /** A final LF adds no data to a frame. */
  lemma {:induction false} FinalLfIsQuiet(frame: string)
    requires NoGap(frame + [LF])
    ensures LoudOf(frame + [LF]) == LoudOf(frame) && SpokenOf(frame + [LF]) == SpokenOf(frame)
  {
    if |frame| > 0 {
      assert !GapAt(frame + [LF], |frame| - 1);
      FinalLfAddsNoLine(frame);
    } else {
      assert frame + [LF] == [] + [LF] + [];
      LinesUnfold([], []);
    }
  }

  /** The line loop over a whole text feeds what the groups of its frames speak, frame by frame. */
  lemma {:induction false} TextFeeds(fed: seq<string>, text: string)
    ensures Close(ReadFrom(Reader([], fed), Lines(text))).fed == fed + AllSpoken(Frames(text))
    decreases |text|
  {
    var k := FirstGap(text);
    if k == |text| {
      FrameFeeds(fed, Lines(text));
    } else {
      TextFeedsOn(fed, text, k);
      TextFeeds(fed + SpokenOf(text[..k]), text[k + 2..]);
      ConcatAssoc(fed, SpokenOf(text[..k]), AllSpoken(Frames(text[k + 2..])));
    }
  }

  lemma {:induction false} TextFeedsOn(fed: seq<string>, text: string, k: nat)
    requires k == FirstGap(text) < |text|
    ensures ReadFrom(Reader([], fed), Lines(text))
         == ReadFrom(Reader([], fed + SpokenOf(text[..k])), Lines(text[k + 2..]))
  {
    var frame := text[..k];
    EndsAtGap(text, k);
    ReadPastGap(Reader([], fed), Lines(frame + [LF]), Lines(text[k + 2..]));
    FrameFeeds(fed, Lines(frame + [LF]));
    FinalLfIsQuiet(frame);
  }

  /** In particular, what it hands on is read off the frames. */
  lemma {:induction false} DrivenIsSpoken(text: string)
    ensures Driven(Lines(text)) == AllSpoken(Frames(text))
  {
    TextFeeds([], text);
    assert [] + AllSpoken(Frames(text)) == AllSpoken(Frames(text));
  }

  // ----- of what is spoken, the payloads that are not empty -----

  lemma {:induction false} NonEmptyConcat(a: seq<string>, b: seq<string>)
    ensures NonEmpty(a + b) == NonEmpty(a) + NonEmpty(b)
  {
    if |b| == 0 {
      assert a + b == a && NonEmpty(a) + [] == NonEmpty(a);
    } else {
      var init, p := b[..|b| - 1], b[|b| - 1];
      NonEmptyConcat(a, init);
      assert a + b == a + init + [p];
      assert (a + init + [p])[..|a + init|] == a + init;
      ConcatAssoc(NonEmpty(a), NonEmpty(init), One(p));
    }
  }

  lemma {:induction false} LoudIsNonEmpty(groups: seq<seq<string>>)
    ensures NonEmpty(Spoken(groups)) == Loud(groups)
  {
    if |groups| == 0 {
    } else {
      var init, g := Init(groups), Last(groups);
      LoudIsNonEmpty(init);
      NonEmptyConcat(Spoken(init), Closed(g));
    }
  }

  lemma {:induction false} BlankIsSpoken(groups: seq<seq<string>>)
    ensures [] !in Spoken(groups) <==> NoneBlank(groups)
  {
    if |groups| == 0 {
    } else {
      BlankIsSpoken(Init(groups));
      assert NoneBlank(groups) <==> NoneBlank(Init(groups)) && [] !in Closed(Last(groups));
    }
  }

  lemma {:induction false} AllLoudIsNonEmpty(frames: seq<string>)
    ensures NonEmpty(AllSpoken(frames)) == AllLoud(frames)
    ensures [] !in AllSpoken(frames) <==> NoBlankGroup(frames)
  {
    if |frames| == 0 {
    } else {
      AllLoudIsNonEmpty(frames[1..]);
      LoudIsNonEmpty(Groups(Lines(frames[0])));
      BlankIsSpoken(Groups(Lines(frames[0])));
      NonEmptyConcat(SpokenOf(frames[0]), AllSpoken(frames[1..]));
      NoBlankGroupTail(frames);
    }
  }

  lemma {:induction false} NoBlankGroupTail(frames: seq<string>)
    requires |frames| > 0
    ensures NoBlankGroup(frames) <==> NoneBlank(Groups(Lines(frames[0]))) && NoBlankGroup(frames[1..])
  {
    forall k | 0 < k < |frames| ensures frames[k] == frames[1..][k - 1] {
    }
    assert forall k | 0 <= k < |frames[1..]| :: frames[1..][k] == frames[k + 1];
  }

  // ----- the splitter, frame by frame -----

  /** The splitter joins what the loop parts. */
  lemma {:induction false} PayloadIsLoud(lines: seq<string>)
    ensures Joined(Collected(lines)) == Joined(Loud(Groups(lines)))
  {
    if |lines| == 0 {
      assert Init(Groups(lines)) == [];
      assert [] + [[]] == Groups(lines);
    } else {
      var init, line := lines[..|lines| - 1], lines[|lines| - 1];
      PayloadIsLoud(init);
      assert lines == init + [line];
      GroupsSnoc(init, line);
      JoinedLoud(Groups(init));
      JoinedLoud(Groups(lines));
      if IsData(line) {
        ConcatAssoc(Joined(Loud(Init(Groups(init)))), Joined(Last(Groups(init))), Datum(line));
      }
    }
  }

  lemma {:induction false} JoinedLoud(groups: seq<seq<string>>)
    requires |groups| > 0
    ensures Joined(Loud(groups)) == Joined(Loud(Init(groups))) + Joined(Last(groups))
  {
    var payload := Joined(Last(groups));
    if payload == [] {
      assert Loud(Init(groups)) + [] == Loud(Init(groups));
    }
  }

  lemma {:induction false} LoudAreLoud(groups: seq<seq<string>>)
    ensures forall k | 0 <= k < |Loud(groups)| :: Loud(groups)[k] != []
  {
    if |groups| == 0 {
    } else {
      LoudAreLoud(groups[..|groups| - 1]);
    }
  }

  /** On one frame the splitter yields what the loop feeds, or less. */
  lemma {:induction false} FrameAgreesIff(frame: string)
    ensures |One(Payload(frame))| <= |LoudOf(frame)|
    ensures One(Payload(frame)) == LoudOf(frame) <==> |LoudOf(frame)| <= 1
  {
    var loud := LoudOf(frame);
    PayloadIsLoud(Lines(frame));
    LoudAreLoud(Groups(Lines(frame)));
    if |loud| == 1 {
      assert loud == [] + [loud[0]];
      JoinedOne(loud[0]);
    } else if |loud| == 0 {
      assert Payload(frame) == [];
    }
  }

  lemma {:induction false} FramesAgreeIff(frames: seq<string>)
    ensures |Payloads(frames)| <= |AllLoud(frames)|
    ensures Payloads(frames) == AllLoud(frames) <==> OneGroupEach(frames)
  {
    if |frames| == 0 {
    } else {
      FramesAgreeIff(frames[1..]);
      FrameAgreesIff(frames[0]);
      Cancel(One(Payload(frames[0])), LoudOf(frames[0]), Payloads(frames[1..]), AllLoud(frames[1..]));
    }
  }

  /** Lists whose parts only get shorter are equal exactly if their parts are. */
  lemma {:induction false} Cancel(a: seq<string>, b: seq<string>, c: seq<string>, d: seq<string>)
    requires |a| <= |b| && |c| <= |d|
    ensures a + c == b + d <==> a == b && c == d
  {
    if a + c == b + d {
      assert (a + c)[..|a|] == a && (b + d)[..|b|] == b;
      assert (a + c)[|a|..] == c && (b + d)[|b|..] == d;
    }
  }

  /**
   Exactly when the two framers agree: the splitter yields the loop's non-empty payloads if and only if
   no frame has two groups of data lines with a payload, parted by a whitespace-only line.
   */
  lemma {:induction false} FramersAgreeIff(text: string)
    ensures Parsed(text) == NonEmpty(Driven(Lines(text))) <==> OneGroupEach(Frames(text))
  {
    DrivenIsSpoken(text);
    AllLoudIsNonEmpty(Frames(text));
    FramesAgreeIff(Frames(text));
  }

  /** It yields all the loop's payloads if and only if, besides, no group's data lines are all blank. */
  lemma {:induction false} FramersCoincideIff(text: string)
    ensures Parsed(text) == Driven(Lines(text)) <==> OneGroupEach(Frames(text)) && NoBlankGroup(Frames(text))
  {
    DrivenIsSpoken(text);
    AllLoudIsNonEmpty(Frames(text));
    FramesAgreeIff(Frames(text));
    NonEmptyIsAllIff(Driven(Lines(text)));
    PayloadsAreNonEmpty(Frames(text));
  }

  lemma {:induction false} PayloadsAreNonEmpty(frames: seq<string>)
    ensures [] !in Payloads(frames)
  {
    if |frames| == 0 {
    } else {
      PayloadsAreNonEmpty(frames[1..]);
    }
  }

  // ----- text without whitespace-only lines -----

  lemma {:induction false} OneGroupOfPlainLines(lines: seq<string>)
    requires NoWhitespaceOnly(lines) && forall i | 0 < i < |lines| :: lines[i] != []
    ensures Loud(Init(Groups(lines))) == []
  {
    if |lines| == 0 {
    } else {
      var init, line := lines[..|lines| - 1], lines[|lines| - 1];
      OneGroupOfPlainLines(init);
      GroupsSnoc(init, line);
      assert lines == init + [line];
      if line == [] {
        assert init == [] && Groups(init) == [] + [[]];
      }
    }
  }

  lemma {:induction false} PlainLinesAreOneGroup(lines: seq<string>)
    requires NoWhitespaceOnly(lines) && forall i | 0 < i < |lines| :: lines[i] != []
    ensures |Loud(Groups(lines))| <= 1
  {
    OneGroupOfPlainLines(lines);
  }

  lemma {:induction false} PlainFrameHasOneGroup(frame: string)
    requires NoGap(frame) && NoWhitespaceOnly(Lines(frame))
    ensures |LoudOf(frame)| <= 1
  {
    OnlyFirstEmpty(frame);
    PlainLinesAreOneGroup(Lines(frame));
  }

  lemma {:induction false} PlainTextHasOneGroupEach(text: string)
    requires NoWhitespaceOnly(Lines(text))
    ensures OneGroupEach(Frames(text))
    decreases |text|
  {
    var k := FirstGap(text);
    if k == |text| {
      PlainFrameHasOneGroup(text);
    } else {
      EndsAtGap(text, k);
      PartsNoWhitespaceOnly(Lines(text[..k] + [LF]), Lines(text[k + 2..]), Lines(text));
      PlainFrameHasOneGroup(text[..k] + [LF]);
      FinalLfIsQuiet(text[..k]);
      PlainTextHasOneGroupEach(text[k + 2..]);
      assert Frames(text)[1..] == Frames(text[k + 2..]);
    }
  }

  /** So on text without whitespace-only lines they differ at most by empty payloads. */
  lemma {:induction false} FramersAgree(text: string)
    requires NoWhitespaceOnly(Lines(text))
    ensures Parsed(text) == NonEmpty(Driven(Lines(text)))
    ensures Parsed(text) == Driven(Lines(text)) <==> NoBlankGroup(Frames(text))
  {
    PlainTextHasOneGroupEach(text);
    FramersAgreeIff(text);
    FramersCoincideIff(text);
  }

  /** A whitespace-only line inside a frame is a line like any other to one reader, and its end to the other. */
  lemma {:induction false} WhitespaceLineSplits(x: string, y: string)
    requires OneLine(x) && OneLine(y) && Strip(x) + Strip(y) != []
    ensures var text := DATA + x + [LF] + ([' '] + [LF] + (DATA + y));
      Parsed(text) == [Strip(x) + Strip(y)] && Driven(Lines(text)) == [Strip(x), Strip(y)]
  {
    var a, b, c := DATA + x, [' '], DATA + y;
    var text := a + [LF] + (b + [LF] + c);
    ThreeLines(a, b, c);
    assert a[|DATA|..] == x && c[|DATA|..] == y;
    assert b[1..] == [];
    assert LStrip(b) == [];
    CollectedThree(a, b, c);
    DrivenThree(a, b, c);
    OneFrame(text);
  }
}
