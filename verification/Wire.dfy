/** What a browser makes of the printed frames, and what the server makes of the id it sends back. */
module Wire {
  import opened Prelude
  import opened Broadcast
  import opened Stream
  import opened Protocol
  import opened Sse

  // ----- the browser's reader -----

  const ID_FIELD: string := ['i', 'd', ':']

  const DATA_FIELD: string := ['d', 'a', 't', 'a', ':']

  /** The id last named, the id of the last frame that ended, the open frame's data, and the events fired. */
  datatype Browser = Browser(named: string, lastEventId: string, data: seq<string>, fired: seq<string>)

  const OPENED := Browser([], [], [], [])

  /** A field's value: one blank after the colon does not count. */
  function FieldValue(s: string): string { if s != [] && s[0] == ' ' then s[1..] else s }

  function JoinLines(lines: seq<string>): string
    requires lines != []
  {
    if |lines| == 1 then lines[0] else JoinLines(lines[..|lines| - 1]) + [LF] + lines[|lines| - 1]
  }

  /** One line of text/event-stream: an empty one ends the frame, and fires an event if it had data. */
  function Hear(b: Browser, line: string): Browser {
    if line == [] then
      Browser(b.named, b.named, [], if b.data == [] then b.fired else b.fired + [JoinLines(b.data)])
    else if ID_FIELD <= line then b.(named := FieldValue(line[|ID_FIELD|..]))
    else if DATA_FIELD <= line then b.(data := b.data + [FieldValue(line[|DATA_FIELD|..])])
    else b
  }

  function HearAll(b: Browser, lines: seq<string>): Browser
    decreases |lines|
  {
    if |lines| == 0 then b else HearAll(Hear(b, lines[0]), lines[1..])
  }

  // ----- the server's reader -----

  /** The number a string of digits names, the most significant first. */
  function Number(digits: string): nat {
    if |digits| == 0 then 0
    else
      var c := digits[|digits| - 1];
      10 * Number(digits[..|digits| - 1]) + if '0' <= c <= '9' then (c - '0') as int else 0
  }

  predicate IsDigits(s: string) { s != [] && forall i | 0 <= i < |s| :: '0' <= s[i] <= '9' }

  /** The cursor of a request: the Last-Event-ID header, or the since parameter if there is none; 0 if malformed. */
  function LastSeen(header: string, since: string): nat {
    var raw := if header != [] then header else since;
    if IsDigits(raw) then Number(raw) else 0
  }

  // ----- there and back -----

  lemma {:induction false} DecimalReadsBack(n: nat)
    ensures IsDigits(Decimal(n)) && Number(Decimal(n)) == n
  {
    if n < 10 {
      assert Decimal(n)[..0] == [];
    } else {
      DecimalReadsBack(n / 10);
      var init, last := Decimal(n / 10), Digit(n % 10);
      assert (init + [last])[..|init|] == init;
    }
  }

  /** The events an envelope fires: none if it is a heartbeat. */
  function Heard(e: Envelope): seq<string> { if e.id.None? && e.data == [] then [] else [e.data] }

  function AllHeard(envs: seq<Envelope>): seq<string> {
    if |envs| == 0 then [] else Heard(envs[0]) + AllHeard(envs[1..])
  }

  /** Between two frames. */
  predicate BetweenFrames(b: Browser) { b.data == [] && b.named == b.lastEventId }

  function Named(b: Browser, e: Envelope): string { if e.id.Some? then Decimal(e.id.value) else b.named }

  function Past(b: Browser, e: Envelope): Browser { Browser(Named(b, e), Named(b, e), [], b.fired + Heard(e)) }

  lemma {:induction false} HearLine(b: Browser, x: string, rest: string)
    requires OneLine(x)
    ensures HearAll(b, Lines(x + [LF] + rest)) == HearAll(Hear(b, x), Lines(rest))
  {
    LinesUnfold(x, rest);
    assert ([x] + Lines(rest))[1..] == Lines(rest);
  }

  lemma {:induction false} HearFields(b: Browser, value: string)
    ensures Hear(b, DATA + [' '] + value) == b.(data := b.data + [value])
    ensures Hear(b, ID + value) == b.(named := value)
    ensures Hear(b, KEEP_ALIVE) == b
  {
    var data, id := DATA + [' '] + value, ID + value;
    assert data[0] == 'd' && id[0] == 'i' && KEEP_ALIVE[0] == ':';
    assert data[|DATA_FIELD|..] == [' '] + value && id[|ID_FIELD|..] == [' '] + value;
    assert ([' '] + value)[1..] == value;
  }

  lemma {:induction false} HearEnd(b: Browser, rest: string)
    ensures HearAll(b, Lines([LF] + rest)) == HearAll(Hear(b, []), Lines(rest))
  {
    assert [] + [LF] + rest == [LF] + rest;
    HearLine(b, [], rest);
  }

  /** The last two lines of a frame, the second one empty. */
  lemma {:induction false} HearLast(b: Browser, line: string, rest: string)
    requires OneLine(line)
    ensures HearAll(b, Lines(line + [LF] + ([LF] + rest))) == HearAll(Hear(Hear(b, line), []), Lines(rest))
  {
    HearLine(b, line, [LF] + rest);
    HearEnd(Hear(b, line), rest);
  }

  lemma {:induction false} FrameText(first: string, line: string, rest: string)
    ensures line + [LF, LF] + rest == line + [LF] + ([LF] + rest)
    ensures first + [LF] + line + [LF, LF] + rest == first + [LF] + (line + [LF] + ([LF] + rest))
  {
  }

  lemma {:induction false} HearEvent(b: Browser, id: string, data: string, rest: string)
    requires b.data == [] && OneLine(id) && OneLine(data)
    ensures HearAll(b, Lines(ID + id + [LF] + (DATA + [' '] + data) + [LF, LF] + rest))
         == HearAll(Browser(id, id, [], b.fired + [data]), Lines(rest))
  {
    var first, line := ID + id, DATA + [' '] + data;
    FrameText(first, line, rest);
    HearLine(b, first, line + [LF] + ([LF] + rest));
    HearFields(b, id);
    HearNamed(b.(named := id), data, rest);
  }

  /** A frame's data line and its end. */
  lemma {:induction false} HearNamed(b: Browser, data: string, rest: string)
    requires b.data == [] && OneLine(data)
    ensures HearAll(b, Lines(DATA + [' '] + data + [LF] + ([LF] + rest)))
         == HearAll(Browser(b.named, b.named, [], b.fired + [data]), Lines(rest))
  {
    HearFields(b, data);
    assert b.data + [data] == [data];
    HearLast(b, DATA + [' '] + data, rest);
    HearBlank(b, data);
  }

  lemma {:induction false} HearBlank(b: Browser, data: string)
    ensures Hear(b.(data := [data]), []) == Browser(b.named, b.named, [], b.fired + [data])
  {
    assert JoinLines([data]) == data;
  }

  lemma {:induction false} HearNote(b: Browser, data: string, rest: string)
    requires b.data == [] && OneLine(data)
    ensures HearAll(b, Lines(DATA + [' '] + data + [LF, LF] + rest))
         == HearAll(Browser(b.named, b.named, [], b.fired + [data]), Lines(rest))
  {
    FrameText([], DATA + [' '] + data, rest);
    HearNamed(b, data, rest);
  }

  lemma {:induction false} HearKeepAlive(b: Browser, rest: string)
    requires b.data == []
    ensures HearAll(b, Lines(KEEP_ALIVE + [LF, LF] + rest)) == HearAll(b.(lastEventId := b.named), Lines(rest))
  {
    FrameText([], KEEP_ALIVE, rest);
    HearFields(b, []);
    HearLast(b, KEEP_ALIVE, rest);
  }

  lemma {:induction false} HearFrame(b: Browser, e: Envelope, rest: string)
    requires BetweenFrames(b) && OneLine(e.data)
    ensures HearAll(b, Lines(Print(e) + rest)) == HearAll(Past(b, e), Lines(rest))
  {
    if e.id.Some? {
      HearEvent(b, Decimal(e.id.value), e.data, rest);
    } else if e.data != [] {
      HearNote(b, e.data, rest);
    } else {
      HearKeepAlive(b, rest);
      assert b.fired + [] == b.fired;
    }
  }

  predicate OneLiners(envs: seq<Envelope>) { forall k | 0 <= k < |envs| :: OneLine(envs[k].data) }

  /** The last id of `envs`, as printed. */
  function LastNamed(b: Browser, envs: seq<Envelope>): string {
    var ids := Real(envs);
    if ids == [] || ids[|ids| - 1].id.None? then b.named else Decimal(ids[|ids| - 1].id.value)
  }

  lemma {:induction false} RealHaveIds(envs: seq<Envelope>)
    ensures forall k | 0 <= k < |Real(envs)| :: Real(envs)[k].id.Some?
  {
    if |envs| == 0 {
    } else {
      RealHaveIds(envs[..|envs| - 1]);
    }
  }

  lemma {:induction false} LastNamedTail(b: Browser, envs: seq<Envelope>)
    requires envs != []
    ensures LastNamed(Past(b, envs[0]), envs[1..]) == LastNamed(b, envs)
  {
    RealTail(envs);
    RealHaveIds(envs[1..]);
  }

  /** What it has after the frames of these envelopes. */
  function Onward(b: Browser, envs: seq<Envelope>): Browser {
    Browser(LastNamed(b, envs), LastNamed(b, envs), [], b.fired + AllHeard(envs))
  }

  lemma {:induction false} OnwardTail(b: Browser, envs: seq<Envelope>)
    requires envs != []
    ensures Onward(Past(b, envs[0]), envs[1..]) == Onward(b, envs)
  {
    LastNamedTail(b, envs);
    ConcatAssoc(b.fired, Heard(envs[0]), AllHeard(envs[1..]));
  }

  lemma {:induction false} HearPrinted(b: Browser, envs: seq<Envelope>)
    requires BetweenFrames(b) && OneLiners(envs)
    ensures HearAll(b, Lines(PrintAll(envs))) == Onward(b, envs)
    decreases |envs|
  {
    if |envs| == 0 {
      assert b.fired + AllHeard(envs) == b.fired;
    } else {
      HearFrame(b, envs[0], PrintAll(envs[1..]));
      HearPrinted(Past(b, envs[0]), envs[1..]);
      OnwardTail(b, envs);
    }
  }

  function Browsed(envs: seq<Envelope>): Browser { HearAll(OPENED, Lines(PrintAll(envs))) }

  /** Each event and notification fires once, in order, with its own payload; a heartbeat fires nothing. */
  lemma {:induction false} BrowserFires(envs: seq<Envelope>)
    requires OneLiners(envs)
    ensures Browsed(envs).fired == AllHeard(envs)
  {
    HearPrinted(OPENED, envs);
    assert [] + AllHeard(envs) == AllHeard(envs);
  }

  /**
   The cursor comes back: the id the browser keeps of the frames a client received, sent back as its
   Last-Event-ID, is read by the server as the client's cursor in the protocol.
   */
  lemma {:induction false} CursorComesBack(c: Client, since: string)
    requires OneLiners(c.received) && IsDigits(since) && Number(since) == c.start
    ensures LastSeen(Browsed(c.received).lastEventId, since) == Cursor(c)
  {
    var ids := Real(c.received);
    HearPrinted(OPENED, c.received);
    if ids != [] && ids[|ids| - 1].id.Some? {
      DecimalReadsBack(ids[|ids| - 1].id.value);
    }
  }
}
