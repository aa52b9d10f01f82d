/** The incremental stream assembler: server-sent events folded into content blocks. */
module Assembler {
  import opened Prelude

  /** A JSON value, known by its canonical text. `loads` is the parser: None when the text is not JSON. */
  datatype Json = EmptyObject | Json(canonical: string)

  type Loads = string -> Option<Json>

  datatype Kind = ToolUse | Thinking | OtherKind

  /** A content block; an absent key is None. */
  datatype Block = Block(kind: Kind, id: string, name: string, input: Json,
                         thinking: Option<string>, signature: Option<string>, text: Option<string>)

  datatype Field = ThinkingText | Signature | PlainText | PartialJson | OtherField

  datatype Delta = Delta(field: Field, fragment: string)

  datatype StreamEvent =
    | MessageStart(model: Option<string>, usage: map<string, int>)
    | BlockStart(index: int, block: Block)
    | BlockDelta(index: int, delta: Delta)
    | BlockStop(index: int)
    | MessageDelta(stopReason: Option<string>, usage: map<string, int>)
    | MessageStop
    | OtherEvent

  datatype Assembly = Assembly(blocks: map<int, Block>, buffers: map<int, string>, model: Option<string>,
                               stopReason: Option<string>, usage: map<string, int>, complete: bool)

  const START := Assembly(map[], map[], None, None, map[], false)

  function Append(field: Option<string>, fragment: string): Option<string> { Some(field.GetOr("") + fragment) }

  function Buffer(a: Assembly, i: int): string { if i in a.buffers then a.buffers[i] else "" }

  function ApplyDelta(a: Assembly, i: int, d: Delta): Assembly {
    if i !in a.blocks then a
    else
      var b := a.blocks[i];
      match d.field
      case ThinkingText => a.(blocks := a.blocks[i := b.(thinking := Append(b.thinking, d.fragment))])
      case Signature => a.(blocks := a.blocks[i := b.(signature := Append(b.signature, d.fragment))])
      case PlainText => a.(blocks := a.blocks[i := b.(text := Append(b.text, d.fragment))])
      case PartialJson => a.(buffers := a.buffers[i := Buffer(a, i) + d.fragment])
      case OtherField => a
  }

  /** The value a finished tool_use's input takes; None when its buffer is not JSON. */
  function ParsedInput(loads: Loads, buffer: string): Option<Json> {
    if buffer == "" then Some(EmptyObject) else loads(buffer)
  }

  /** The assembly after one event; None when finalizing raises. */
  function Feed(loads: Loads, a: Assembly, e: StreamEvent): Option<Assembly> {
    match e
    case MessageStart(model, usage) => Some(a.(model := model, usage := a.usage + usage))
    case BlockStart(i, b) => Some(a.(blocks := a.blocks[i := b]))
    case BlockDelta(i, d) => Some(ApplyDelta(a, i, d))
    case BlockStop(i) =>
      if i in a.blocks && a.blocks[i].kind.ToolUse? then
        var input := ParsedInput(loads, Buffer(a, i));
        if input.None? then None else Some(a.(blocks := a.blocks[i := a.blocks[i].(input := input.value)]))
      else Some(a)
    case MessageDelta(stop, usage) =>
      Some(a.(stopReason := if stop.Some? then stop else a.stopReason,
              complete := a.complete || stop.Some?, usage := a.usage + usage))
    case MessageStop => Some(a.(complete := true))
    case OtherEvent => Some(a)
  }

  /** The text `feed` hands back for the live relay. */
  function Relay(a: Assembly, e: StreamEvent): Option<string> {
    if e.BlockDelta? && e.index in a.blocks && e.delta.field.ThinkingText? then Some(e.delta.fragment) else None
  }

  function Assemble(loads: Loads, es: seq<StreamEvent>): Option<Assembly> {
    if |es| == 0 then Some(START)
    else
      var before := Assemble(loads, es[..|es| - 1]);
      if before.None? then None else Feed(loads, before.value, es[|es| - 1])
  }

  /** The assembler as the source writes it, its dictionaries updated in place. */
  class StreamAssembler {
    const loads: Loads
    var blocks: map<int, Block>
    var buffers: map<int, string>
    var model: Option<string>
    var stopReason: Option<string>
    var usage: map<string, int>
    var complete: bool

    ghost function State(): Assembly
      reads this
    {
      Assembly(blocks, buffers, model, stopReason, usage, complete)
    }

    constructor (loads: Loads)
      ensures State() == START && this.loads == loads
    {
      this.loads := loads;
      blocks, buffers, model, stopReason, usage, complete := map[], map[], None, None, map[], false;
    }

    /** Ok carries the text to relay; Err is a finished tool_use whose buffer is not JSON. */
    method FeedEvent(e: StreamEvent) returns (r: Result<Option<string>, string>)
      modifies this
      ensures r.Err? <==> Feed(loads, old(State()), e).None?
      ensures r.Err? ==> State() == old(State())
      ensures r.Ok? ==> Some(State()) == Feed(loads, old(State()), e) && r.value == Relay(old(State()), e)
    {
      match e {
        case MessageStart(m, u) =>
          model := m;
          usage := usage + u;
        case BlockStart(i, b) =>
          blocks := blocks[i := b];
        case BlockDelta(i, d) =>
          if i in blocks {
            var b := blocks[i];
            match d.field {
              case ThinkingText =>
                blocks := blocks[i := b.(thinking := Some(b.thinking.GetOr("") + d.fragment))];
                return Ok(Some(d.fragment));
              case Signature =>
                blocks := blocks[i := b.(signature := Some(b.signature.GetOr("") + d.fragment))];
              case PlainText =>
                blocks := blocks[i := b.(text := Some(b.text.GetOr("") + d.fragment))];
              case PartialJson =>
                buffers := buffers[i := (if i in buffers then buffers[i] else "") + d.fragment];
              case OtherField =>
            }
          }
        case BlockStop(i) =>
          if i in blocks && blocks[i].kind.ToolUse? {
            var buffer := if i in buffers then buffers[i] else "";
            var input := if buffer == "" then Some(EmptyObject) else loads(buffer);
            if input.None? {
              return Err(buffer);
            }
            blocks := blocks[i := blocks[i].(input := input.value)];
          }
        case MessageDelta(stop, u) =>
          if stop.Some? {
            stopReason := stop;
            complete := true;
          }
          usage := usage + u;
        case MessageStop =>
          complete := true;
        case OtherEvent =>
      }
      return Ok(None);
    }
  }

  /** The indices in order, each once. */
  predicate Ordered(indices: seq<int>) { forall i, j | 0 <= i < j < |indices| :: indices[i] < indices[j] }

  lemma {:induction false} LeastOf(keys: set<int>, some: int) returns (least: int)
    requires some in keys
    ensures least in keys && forall j | j in keys :: least <= j
    decreases |keys|
  {
    var others := keys - {some};
    assert forall j | j in keys :: j == some || j in others;
    least := some;
    if other :| other in others {
      var rest := LeastOf(others, other);
      least := if rest < some then rest else some;
    }
  }

  /** The assembled content: every block, in content-index order, whatever order they started in. */
  method Content(blocks: map<int, Block>) returns (indices: seq<int>, content: seq<Block>)
    ensures Ordered(indices) && (forall k :: k in indices <==> k in blocks)
    ensures |content| == |indices|
    ensures forall i | 0 <= i < |indices| :: indices[i] in blocks && content[i] == blocks[indices[i]]
  {
    indices, content := [], [];
    var todo := blocks.Keys;
    while true
      invariant todo <= blocks.Keys && Ordered(indices)
      invariant forall k :: k in indices <==> k in blocks && k !in todo
      invariant forall i, k | 0 <= i < |indices| && k in todo :: indices[i] < k
      invariant |content| == |indices|
      invariant forall i | 0 <= i < |indices| :: indices[i] in blocks && content[i] == blocks[indices[i]]
      decreases todo
    {
      if some :| some in todo {
        ghost var least := LeastOf(todo, some);
        var k :| k in todo && forall j | j in todo :: k <= j;
        todo := todo - {k};
        indices := indices + [k];
        content := content + [blocks[k]];
      } else {
        return;
      }
    }
  }

  predicate Completes(e: StreamEvent) { e.MessageStop? || (e.MessageDelta? && e.stopReason.Some?) }

  lemma {:induction false} FeedCompletes(loads: Loads, a: Assembly, e: StreamEvent)
    requires Feed(loads, a, e).Some?
    ensures Feed(loads, a, e).value.complete <==> a.complete || Completes(e)
  {
  }

  /** The stream is complete exactly once a message_stop or a stop_reason has arrived. */
  lemma {:induction false} CompleteIff(loads: Loads, es: seq<StreamEvent>)
    requires Assemble(loads, es).Some?
    ensures Assemble(loads, es).value.complete <==> exists k | 0 <= k < |es| :: Completes(es[k])
  {
    if |es| == 0 {
    } else {
      var init, e := es[..|es| - 1], es[|es| - 1];
      CompleteIff(loads, init);
      FeedCompletes(loads, Assemble(loads, init).value, e);
      assert forall k | 0 <= k < |init| :: init[k] == es[k];
    }
  }

  // ----- the rest of the response -----

  /** The model the last message_start named. */
  function LastModel(es: seq<StreamEvent>): Option<string> {
    if |es| == 0 then None
    else if es[|es| - 1].MessageStart? then es[|es| - 1].model else LastModel(es[..|es| - 1])
  }

  /** The last stop_reason a message_delta gave. */
  function LastStop(es: seq<StreamEvent>): Option<string> {
    if |es| == 0 then None
    else if es[|es| - 1].MessageDelta? && es[|es| - 1].stopReason.Some? then es[|es| - 1].stopReason
    else LastStop(es[..|es| - 1])
  }

  /** The last count an event gave under this key; the counts are cumulative, so it is the one that holds. */
  function LastCount(es: seq<StreamEvent>, key: string): Option<int> {
    if |es| == 0 then None
    else
      var e := es[|es| - 1];
      if (e.MessageStart? || e.MessageDelta?) && key in e.usage then Some(e.usage[key])
      else LastCount(es[..|es| - 1], key)
  }

  /** The response so far, but for its blocks, is what the stream's last events say. */
  ghost predicate SaysLast(a: Assembly, es: seq<StreamEvent>) {
    && a.model == LastModel(es) && a.stopReason == LastStop(es)
    && forall key :: LastCount(es, key) == if key in a.usage then Some(a.usage[key]) else None
  }

  lemma {:induction false} FeedSaysLast(loads: Loads, a: Assembly, init: seq<StreamEvent>, e: StreamEvent)
    requires SaysLast(a, init) && Feed(loads, a, e).Some?
    ensures SaysLast(Feed(loads, a, e).value, init + [e])
  {
    var es, next := init + [e], Feed(loads, a, e).value;
    assert es[..|init|] == init && es[|init|] == e;
    forall key ensures LastCount(es, key) == if key in next.usage then Some(next.usage[key]) else None {
      assert LastCount(init, key) == if key in a.usage then Some(a.usage[key]) else None;
    }
  }

  /** Model, stop reason and each usage count are the last ones the stream gave. */
  lemma {:induction false} LastOnesHold(loads: Loads, es: seq<StreamEvent>)
    requires Assemble(loads, es).Some?
    ensures SaysLast(Assemble(loads, es).value, es)
  {
    if |es| == 0 {
    } else {
      var init, e := es[..|es| - 1], es[|es| - 1];
      LastOnesHold(loads, init);
      FeedSaysLast(loads, Assemble(loads, init).value, init, e);
      assert es == init + [e];
    }
  }

  // ----- each index is its own -----

  predicate About(e: StreamEvent, i: int) { (e.BlockStart? || e.BlockDelta? || e.BlockStop?) && e.index == i }

  /** The sub-stream of one content index. */
  function Only(es: seq<StreamEvent>, i: int): seq<StreamEvent> {
    if |es| == 0 then []
    else
      var rest := Only(es[..|es| - 1], i);
      if About(es[|es| - 1], i) then rest + [es[|es| - 1]] else rest
  }

  /** What the assembly holds at one index. */
  datatype Slot = Slot(block: Option<Block>, buffer: string)

  function At(a: Assembly, i: int): Slot {
    Slot(if i in a.blocks then Some(a.blocks[i]) else None, Buffer(a, i))
  }

  /** One event of an index, seen by that index alone. */
  function FeedSlot(loads: Loads, s: Slot, e: StreamEvent): Option<Slot> {
    match e
    case BlockStart(_, b) => Some(s.(block := Some(b)))
    case BlockDelta(_, d) =>
      if s.block.None? then Some(s)
      else
        var b := s.block.value;
        (match d.field
         case ThinkingText => Some(s.(block := Some(b.(thinking := Append(b.thinking, d.fragment)))))
         case Signature => Some(s.(block := Some(b.(signature := Append(b.signature, d.fragment)))))
         case PlainText => Some(s.(block := Some(b.(text := Append(b.text, d.fragment)))))
         case PartialJson => Some(s.(buffer := s.buffer + d.fragment))
         case OtherField => Some(s))
    case BlockStop(_) =>
      if s.block.Some? && s.block.value.kind.ToolUse? then
        var input := ParsedInput(loads, s.buffer);
        if input.None? then None else Some(s.(block := Some(s.block.value.(input := input.value))))
      else Some(s)
    case _ => Some(s)
  }

  lemma {:induction false} FeedElsewhere(loads: Loads, a: Assembly, e: StreamEvent, i: int)
    requires Feed(loads, a, e).Some? && !About(e, i)
    ensures At(Feed(loads, a, e).value, i) == At(a, i)
  {
  }

  lemma {:induction false} FeedHere(loads: Loads, a: Assembly, e: StreamEvent, i: int)
    requires About(e, i)
    ensures Feed(loads, a, e).Some? <==> FeedSlot(loads, At(a, i), e).Some?
    ensures Feed(loads, a, e).Some? ==> At(Feed(loads, a, e).value, i) == FeedSlot(loads, At(a, i), e).value
  {
  }

  /** The block at each index depends on that index's events alone, however the indices interleave. */
  lemma {:induction false} IndicesAreIndependent(loads: Loads, es: seq<StreamEvent>, i: int)
    requires Assemble(loads, es).Some?
    ensures Assemble(loads, Only(es, i)).Some?
    ensures At(Assemble(loads, es).value, i) == At(Assemble(loads, Only(es, i)).value, i)
  {
    if |es| == 0 {
    } else {
      var init, e := es[..|es| - 1], es[|es| - 1];
      IndicesAreIndependent(loads, init, i);
      var a := Assemble(loads, init).value;
      if About(e, i) {
        FeedHere(loads, a, e, i);
        FeedHere(loads, Assemble(loads, Only(init, i)).value, e, i);
        assert (Only(init, i) + [e])[..|Only(init, i)|] == Only(init, i);
      } else {
        FeedElsewhere(loads, a, e, i);
      }
    }
  }

  // ----- a well-formed index: one start, its deltas, then perhaps its stop -----

  /** The fragments of one field, concatenated; None when there is no delta of it. */
  function Collect(ds: seq<Delta>, f: Field): Option<string> {
    if |ds| == 0 then None
    else
      var rest := Collect(ds[..|ds| - 1], f);
      if ds[|ds| - 1].field == f then Some(rest.GetOr("") + ds[|ds| - 1].fragment) else rest
  }

  function Join(field: Option<string>, more: Option<string>): Option<string> {
    if more.None? then field else Some(field.GetOr("") + more.value)
  }

  function DeltaEvents(i: int, ds: seq<Delta>): seq<StreamEvent> {
    seq(|ds|, k requires 0 <= k < |ds| => BlockDelta(i, ds[k]))
  }

  /** The block before its stop: every field grown by its fragments, the input still the start's. */
  function Streamed(b: Block, ds: seq<Delta>): Block {
    b.(thinking := Join(b.thinking, Collect(ds, ThinkingText)),
       signature := Join(b.signature, Collect(ds, Signature)),
       text := Join(b.text, Collect(ds, PlainText)))
  }

  /** `block` is `b`, each field grown by its own fragments, but for its input. */
  predicate Grown(b: Block, ds: seq<Delta>, block: Block) {
    && block.kind == b.kind && block.id == b.id && block.name == b.name
    && block.thinking == Join(b.thinking, Collect(ds, ThinkingText))
    && block.signature == Join(b.signature, Collect(ds, Signature))
    && block.text == Join(b.text, Collect(ds, PlainText))
  }

  lemma {:induction false} JoinAppend(field: Option<string>, more: Option<string>, s: string)
    ensures Join(field, Append(more, s)) == Append(Join(field, more), s)
  {
    assert "" + s == s;
    assert field.GetOr("") + (more.GetOr("") + s) == field.GetOr("") + more.GetOr("") + s;
  }

  lemma {:induction false} DeltaStreams(loads: Loads, b: Block, init: seq<Delta>, d: Delta, i: int)
    ensures FeedSlot(loads, Slot(Some(Streamed(b, init)), Collect(init, PartialJson).GetOr("")), BlockDelta(i, d))
      == Some(Slot(Some(Streamed(b, init + [d])), Collect(init + [d], PartialJson).GetOr("")))
  {
    assert (init + [d])[..|init|] == init;
    JoinAppend(b.thinking, Collect(init, ThinkingText), d.fragment);
    JoinAppend(b.signature, Collect(init, Signature), d.fragment);
    JoinAppend(b.text, Collect(init, PlainText), d.fragment);
  }

  /** After a start and its deltas the slot holds the block grown by them. */
  ghost predicate Streams(loads: Loads, es: seq<StreamEvent>, i: int, b: Block, ds: seq<Delta>) {
    && Assemble(loads, es).Some?
    && At(Assemble(loads, es).value, i) == Slot(Some(Streamed(b, ds)), Collect(ds, PartialJson).GetOr(""))
  }

  lemma {:induction false} NextStreams(loads: Loads, es: seq<StreamEvent>, i: int, b: Block, init: seq<Delta>, d: Delta)
    requires Streams(loads, es, i, b, init)
    ensures Streams(loads, es + [BlockDelta(i, d)], i, b, init + [d])
  {
    FeedHere(loads, Assemble(loads, es).value, BlockDelta(i, d), i);
    DeltaStreams(loads, b, init, d, i);
  }

  lemma {:induction false} DeltasStream(loads: Loads, i: int, b: Block, ds: seq<Delta>)
    ensures Streams(loads, [BlockStart(i, b)] + DeltaEvents(i, ds), i, b, ds)
  {
    var start := [BlockStart(i, b)];
    if |ds| == 0 {
      assert start + DeltaEvents(i, ds) == start;
    } else {
      var init, d := ds[..|ds| - 1], ds[|ds| - 1];
      DeltasStream(loads, i, b, init);
      NextStreams(loads, start + DeltaEvents(i, init), i, b, init, d);
      assert DeltaEvents(i, ds) == DeltaEvents(i, init) + [BlockDelta(i, d)] && ds == init + [d];
      ConcatAssoc(start, DeltaEvents(i, init), [BlockDelta(i, d)]);
    }
  }

  /**
   Display streams, execution waits: in any stream whose events at index `i` are a start and its
   deltas, the block is the start grown by each field's concatenated fragments, its input untouched.
   How the fragments were cut, and what came in between at other indices, makes no difference.
   */
  lemma {:induction false} OpenBlock(loads: Loads, es: seq<StreamEvent>, i: int, b: Block, ds: seq<Delta>)
    requires Assemble(loads, es).Some? && Only(es, i) == [BlockStart(i, b)] + DeltaEvents(i, ds)
    ensures i in Assemble(loads, es).value.blocks
    ensures Grown(b, ds, Assemble(loads, es).value.blocks[i])
    ensures Assemble(loads, es).value.blocks[i].input == b.input
  {
    IndicesAreIndependent(loads, es, i);
    DeltasStream(loads, i, b, ds);
  }

  /** Once its stop arrives too, a tool_use's input is the parse of its whole buffer; other kinds keep theirs. */
  lemma {:induction false} ClosedBlock(loads: Loads, es: seq<StreamEvent>, i: int, b: Block, ds: seq<Delta>)
    requires Assemble(loads, es).Some?
    requires Only(es, i) == [BlockStart(i, b)] + DeltaEvents(i, ds) + [BlockStop(i)]
    ensures i in Assemble(loads, es).value.blocks
    ensures var block := Assemble(loads, es).value.blocks[i];
      && Grown(b, ds, block)
      && if !b.kind.ToolUse? then block.input == b.input
         else if Collect(ds, PartialJson).GetOr("") == "" then block.input == EmptyObject
         else loads(Collect(ds, PartialJson).value) == Some(block.input)
  {
    IndicesAreIndependent(loads, es, i);
    DeltasStream(loads, i, b, ds);
  }

  /** Re-chunking: two ways of cutting the same fragments give the same block, open or closed. */
  lemma {:induction false} RechunkingChangesNothing(loads: Loads, es: seq<StreamEvent>, fs: seq<StreamEvent>, i: int,
          b: Block, ds: seq<Delta>, cs: seq<Delta>, tail: seq<StreamEvent>)
    requires Assemble(loads, es).Some? && Assemble(loads, fs).Some?
    requires tail == [] || tail == [BlockStop(i)]
    requires Only(es, i) == [BlockStart(i, b)] + DeltaEvents(i, ds) + tail
    requires Only(fs, i) == [BlockStart(i, b)] + DeltaEvents(i, cs) + tail
    requires Collect(ds, ThinkingText) == Collect(cs, ThinkingText) && Collect(ds, Signature) == Collect(cs, Signature)
    requires Collect(ds, PlainText) == Collect(cs, PlainText)
    requires Collect(ds, PartialJson).GetOr("") == Collect(cs, PartialJson).GetOr("")
    ensures At(Assemble(loads, es).value, i).block == At(Assemble(loads, fs).value, i).block
  {
    if tail == [] {
      OpenBlock(loads, es, i, b, ds);
      OpenBlock(loads, fs, i, b, cs);
    } else {
      ClosedBlock(loads, es, i, b, ds);
      ClosedBlock(loads, fs, i, b, cs);
    }
  }

  // ----- the live relay -----

  /** Everything `feed` handed back, concatenated. */
  function Relayed(loads: Loads, es: seq<StreamEvent>): string
    requires Assemble(loads, es).Some?
  {
    if |es| == 0 then ""
    else
      var init := es[..|es| - 1];
      Relayed(loads, init) + Relay(Assemble(loads, init).value, es[|es| - 1]).GetOr("")
  }

  predicate ThinksOnlyAt(e: StreamEvent, i: int) {
    e.BlockDelta? && e.delta.field.ThinkingText? ==> e.index == i
  }

  /** The thinking held at one index; empty while there is no block. */
  function Thought(a: Assembly, i: int): string {
    if i in a.blocks then a.blocks[i].thinking.GetOr("") else ""
  }

  lemma {:induction false} RelayStep(loads: Loads, a: Assembly, e: StreamEvent, i: int)
    requires Feed(loads, a, e).Some? && ThinksOnlyAt(e, i)
    requires About(e, i) && e.BlockStart? ==> i !in a.blocks && e.block.thinking.GetOr("") == ""
    ensures Thought(Feed(loads, a, e).value, i) == Thought(a, i) + Relay(a, e).GetOr("")
    ensures i in Feed(loads, a, e).value.blocks <==> i in a.blocks || (About(e, i) && e.BlockStart?)
  {
    if !About(e, i) {
      FeedElsewhere(loads, a, e, i);
    }
  }

  predicate StartsAt(e: StreamEvent, i: int) { e.BlockStart? && e.index == i }

  /** The index is started at most once, by a block with no thinking yet, and nobody else thinks. */
  predicate SingleThinker(es: seq<StreamEvent>, i: int) {
    && (forall k | 0 <= k < |es| :: ThinksOnlyAt(es[k], i))
    && (forall k | 0 <= k < |es| && StartsAt(es[k], i) :: es[k].block.thinking.GetOr("") == "")
    && (forall j, k | 0 <= j < k < |es| && StartsAt(es[j], i) :: !StartsAt(es[k], i))
  }

  /** For a single thinking block that starts empty, the relayed texts are its thinking field. */
  lemma {:induction false} RelayIsThinking(loads: Loads, es: seq<StreamEvent>, i: int)
    requires Assemble(loads, es).Some? && SingleThinker(es, i)
    ensures Relayed(loads, es) == Thought(Assemble(loads, es).value, i)
    ensures i in Assemble(loads, es).value.blocks <==> exists k | 0 <= k < |es| :: StartsAt(es[k], i)
  {
    if |es| == 0 {
    } else {
      var init, e := es[..|es| - 1], es[|es| - 1];
      RelayIsThinking(loads, init, i);
      assert (exists k | 0 <= k < |es| :: StartsAt(es[k], i)) <==>
        ((exists k | 0 <= k < |init| :: StartsAt(init[k], i)) || StartsAt(e, i)) by {
        assert forall k | 0 <= k < |init| :: init[k] == es[k];
      }
      RelayStep(loads, Assemble(loads, init).value, e, i);
    }
  }
}
