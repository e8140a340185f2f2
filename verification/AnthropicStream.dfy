/**
  The Anthropic event stream: its grammar as a reader sees it, the decoder of an upstream
  stream, and the encoder that rebuilds the stream for a client.
 */
module AnthropicStream {
  import opened Canonical
  import opened Outcomes

  datatype Kind = TextBlock | ToolBlock(id: string, name: string) | ThinkingBlock

  datatype Frame =
    | MessageStart
    | BlockStart(index: int, kind: Kind)
    | TextPiece(index: int, text: string)
    | JsonPiece(index: int, json: string)
    | ThinkingPiece(index: int, thought: string)
    | BlockEnd(index: int)
    | MessageDelta(stop: string)
    | MessageStop

  // ---- The grammar: message_start, blocks 0, 1, 2, ... one at a time, message_delta, message_stop ----

  datatype Phase = Fresh | Idle | Inside | Closing | Over | Broken

  datatype Reading = Reading(phase: Phase, parts: seq<Part>, stop: string)

  const UNREAD := Reading(Fresh, [], "")

  function Opened(kind: Kind): Part {
    match kind
    case TextBlock => Text("")
    case ToolBlock(id, name) => Tool(id, name, "")
    case ThinkingBlock => Thinking("")
  }

  /** The open block, if the frame is for it. */
  predicate Current(r: Reading, index: int) { r.phase.Inside? && r.parts != [] && index == |r.parts| - 1 }

  function ExtendThinking(parts: seq<Part>, t: string): seq<Part>
    requires parts != [] && parts[|parts| - 1].Thinking?
  {
    parts[..|parts| - 1] + [Thinking(parts[|parts| - 1].text + t)]
  }

  function Read(r: Reading, f: Frame): Reading {
    var broken := r.(phase := Broken);
    match f
    case MessageStart => if r.phase.Fresh? then r.(phase := Idle) else broken
    case BlockStart(index, kind) =>
      if r.phase.Idle? && index == |r.parts| then r.(phase := Inside, parts := r.parts + [Opened(kind)]) else broken
    case TextPiece(index, t) =>
      if Current(r, index) && r.parts[index].Text? then r.(parts := ExtendText(r.parts, t)) else broken
    case JsonPiece(index, json) =>
      if Current(r, index) && r.parts[index].Tool? then r.(parts := ExtendArgs(r.parts, json)) else broken
    case ThinkingPiece(index, t) =>
      if Current(r, index) && r.parts[index].Thinking? then r.(parts := ExtendThinking(r.parts, t)) else broken
    case BlockEnd(index) => if Current(r, index) then r.(phase := Idle) else broken
    case MessageDelta(stop) => if r.phase.Idle? then r.(phase := Closing, stop := stop) else broken
    case MessageStop => if r.phase.Closing? then r.(phase := Over) else broken
  }

  function ReadAll(r: Reading, frames: seq<Frame>): Reading
    decreases |frames|
  {
    if frames == [] then r else ReadAll(Read(r, frames[0]), frames[1..])
  }

  lemma {:induction false} ReadConcat(r: Reading, x: seq<Frame>, y: seq<Frame>)
    ensures ReadAll(r, x + y) == ReadAll(ReadAll(r, x), y)
    decreases |x|
  {
    if x == [] {
      assert x + y == y;
    } else {
      assert (x + y)[1..] == x[1..] + y;
      ReadConcat(Read(r, x[0]), x[1..], y);
    }
  }

  lemma {:induction false} BrokenStays(r: Reading, frames: seq<Frame>)
    requires r.phase.Broken?
    ensures ReadAll(r, frames).phase.Broken?
    decreases |frames|
  {
    if frames != [] {
      BrokenStays(Read(r, frames[0]), frames[1..]);
    }
  }

  // ---- The encoder ----

  datatype BlockType = NoType | TypeText | TypeToolUse

  datatype Coding = Coding(started: bool, blockIndex: int, blockOpen: bool, blockType: BlockType, stopReason: string)

  const UNSTARTED := Coding(false, -1, false, NoType, "")

  function Started(c: Coding): seq<Frame> { if c.started then [] else [MessageStart] }

  function Closed(c: Coding): seq<Frame> { if c.blockOpen then [BlockEnd(c.blockIndex)] else [] }

  /** The encoder's state after an event, and the frames it emitted for it. */
  function Encoded(c: Coding, e: Event): (Coding, seq<Frame>) {
    var s := c.(started := true);
    match e
    case TextDelta(t) =>
      if !c.blockOpen || !c.blockType.TypeText? then
        (s.(blockIndex := c.blockIndex + 1, blockOpen := true, blockType := TypeText),
         Started(c) + Closed(c) + [BlockStart(c.blockIndex + 1, TextBlock), TextPiece(c.blockIndex + 1, t)])
      else (s, Started(c) + [TextPiece(c.blockIndex, t)])
    case ToolStart(id, name) =>
      (s.(blockIndex := c.blockIndex + 1, blockOpen := true, blockType := TypeToolUse),
       Started(c) + Closed(c) + [BlockStart(c.blockIndex + 1, ToolBlock(id, name))])
    case ArgsDelta(args) => (s, Started(c) + [JsonPiece(c.blockIndex, args)])
    case BlockStop => (s.(blockOpen := false), Started(c) + Closed(c))
    case Finish(reason) => (s.(stopReason := reason), Started(c))
  }

  function EncodedAll(c: Coding, events: seq<Event>): (Coding, seq<Frame>)
    decreases |events|
  {
    if events == [] then (c, [])
    else
      var one := Encoded(c, events[0]);
      var rest := EncodedAll(one.0, events[1..]);
      (rest.0, one.1 + rest.1)
  }

  function Finished(c: Coding): (Coding, seq<Frame>) {
    (c.(started := true, blockOpen := false),
     Started(c) + Closed(c) + [MessageDelta(if c.stopReason == "" then END_TURN else c.stopReason), MessageStop])
  }

  class Encoder {
    var started: bool
    var blockIndex: int
    var blockOpen: bool
    var blockType: BlockType
    var stopReason: string

    constructor ()
      ensures Current() == UNSTARTED
    {
      started, blockIndex, blockOpen, blockType, stopReason := false, -1, false, NoType, "";
    }

    function Current(): Coding reads this { Coding(started, blockIndex, blockOpen, blockType, stopReason) }

    method EnsureStart() returns (frames: seq<Frame>)
      modifies `started
      ensures started && frames == Started(old(Current()))
    {
      frames := if started then [] else [MessageStart];
      started := true;
    }

    method CloseBlock() returns (frames: seq<Frame>)
      modifies `blockOpen
      ensures !blockOpen && frames == Closed(old(Current()))
    {
      frames := if blockOpen then [BlockEnd(blockIndex)] else [];
      blockOpen := false;
    }

    method Encode(e: Event) returns (frames: seq<Frame>)
      modifies this
      ensures (Current(), frames) == Encoded(old(Current()), e)
    {
      frames := EnsureStart();
      match e
      case TextDelta(t) =>
        if !blockOpen || !blockType.TypeText? {
          var closing := CloseBlock();
          blockIndex := blockIndex + 1;
          blockOpen, blockType := true, TypeText;
          frames := frames + closing + [BlockStart(blockIndex, TextBlock)];
        }
        frames := frames + [TextPiece(blockIndex, t)];
        assert frames == Encoded(old(Current()), e).1;
      case ToolStart(id, name) =>
        var closing := CloseBlock();
        blockIndex := blockIndex + 1;
        blockOpen, blockType := true, TypeToolUse;
        frames := frames + closing + [BlockStart(blockIndex, ToolBlock(id, name))];
      case ArgsDelta(args) =>
        frames := frames + [JsonPiece(blockIndex, args)];
      case BlockStop =>
        var closing := CloseBlock();
        frames := frames + closing;
      case Finish(reason) =>
        stopReason := reason;
    }

    method FinishStream() returns (frames: seq<Frame>)
      modifies this
      ensures (Current(), frames) == Finished(old(Current()))
    {
      frames := EnsureStart();
      var closing := CloseBlock();
      var stop := if stopReason == "" then END_TURN else stopReason;
      frames := frames + closing + [MessageDelta(stop), MessageStop];
    }
  }

  /** Encoder, client and content move together. */
  predicate InStep(c: Coding, r: Reading, a: Assembly) {
    && Fits(a) && a.orderly && c.stopReason == a.stop && r.parts == a.parts
    && c.blockIndex == |a.parts| - 1
    && (if !c.started then r.phase.Fresh? && !c.blockOpen else if c.blockOpen then r.phase.Inside? else r.phase.Idle?)
    && (c.blockOpen <==> !a.open.Nothing?)
    && (c.blockOpen ==> (if a.open.InText? then c.blockType.TypeText? else c.blockType.TypeToolUse?))
  }

  lemma AfterStart(c: Coding, r: Reading, a: Assembly)
    requires InStep(c, r, a)
    ensures InStep(c.(started := true), ReadAll(r, Started(c)), a)
  {
    if !c.started {
      assert ReadAll(r, [MessageStart]) == Read(r, MessageStart);
    }
  }

  lemma AfterClose(c: Coding, r: Reading, a: Assembly)
    requires InStep(c, r, a) && c.started
    ensures InStep(c.(blockOpen := false), ReadAll(r, Closed(c)), a.(open := Nothing))
  {
    if c.blockOpen {
      assert ReadAll(r, Closed(c)) == Read(r, BlockEnd(c.blockIndex));
    }
  }

  lemma AfterOpen(c: Coding, r: Reading, a: Assembly, kind: Kind)
    requires InStep(c, r, a) && c.started && !c.blockOpen && !kind.ThinkingBlock?
    ensures InStep(c.(blockIndex := c.blockIndex + 1, blockOpen := true, blockType := if kind.TextBlock? then TypeText else TypeToolUse),
                   Read(r, BlockStart(c.blockIndex + 1, kind)),
                   a.(parts := a.parts + [Opened(kind)], open := if kind.TextBlock? then InText else InTool))
  {
  }

  lemma ReadTwo(r: Reading, f: Frame, g: Frame)
    ensures ReadAll(r, [f, g]) == Read(Read(r, f), g)
  {
    assert [f, g][1..] == [g];
    assert ReadAll(Read(r, f), [g]) == Read(Read(r, f), g);
  }

  /** Text that opens a block. */
  lemma EncodeNewText(c: Coding, r: Reading, a: Assembly, t: string)
    requires InStep(c, r, a) && (!c.blockOpen || !c.blockType.TypeText?)
    ensures var (c', frames) := Encoded(c, TextDelta(t)); InStep(c', ReadAll(r, frames), Feed(a, TextDelta(t)))
  {
    AfterStart(c, r, a);
    var s, r1 := c.(started := true), ReadAll(r, Started(c));
    AfterClose(s, r1, a);
    var r2 := ReadAll(r1, Closed(c));
    assert Closed(c) == Closed(s);
    AfterOpen(s.(blockOpen := false), r2, a.(open := Nothing), TextBlock);
    var start, piece := BlockStart(c.blockIndex + 1, TextBlock), TextPiece(c.blockIndex + 1, t);
    ReadTwo(r2, start, piece);
    assert "" + t == t;
    ReadConcat(r, Started(c), Closed(c));
    ReadConcat(r, Started(c) + Closed(c), [start, piece]);
  }

  /** Text that continues its block. */
  lemma EncodeMoreText(c: Coding, r: Reading, a: Assembly, t: string)
    requires InStep(c, r, a) && c.blockOpen && c.blockType.TypeText?
    ensures var (c', frames) := Encoded(c, TextDelta(t)); InStep(c', ReadAll(r, frames), Feed(a, TextDelta(t)))
  {
    AfterStart(c, r, a);
    var r1 := ReadAll(r, Started(c));
    assert ReadAll(r1, [TextPiece(c.blockIndex, t)]) == Read(r1, TextPiece(c.blockIndex, t));
    ReadConcat(r, Started(c), [TextPiece(c.blockIndex, t)]);
  }

  lemma EncodeTool(c: Coding, r: Reading, a: Assembly, id: string, name: string)
    requires InStep(c, r, a)
    ensures var (c', frames) := Encoded(c, ToolStart(id, name)); InStep(c', ReadAll(r, frames), Feed(a, ToolStart(id, name)))
  {
    AfterStart(c, r, a);
    var s, r1 := c.(started := true), ReadAll(r, Started(c));
    AfterClose(s, r1, a);
    assert Closed(c) == Closed(s);
    var r2, tail := ReadAll(r1, Closed(c)), [BlockStart(c.blockIndex + 1, ToolBlock(id, name))];
    AfterOpen(s.(blockOpen := false), r2, a.(open := Nothing), ToolBlock(id, name));
    assert ReadAll(r2, tail) == Read(r2, tail[0]);
    ReadConcat(r, Started(c), Closed(c));
    ReadConcat(r, Started(c) + Closed(c), tail);
  }

  lemma EncodeRest(c: Coding, r: Reading, a: Assembly, e: Event)
    requires InStep(c, r, a) && !e.TextDelta? && !e.ToolStart?
    ensures var (c', frames) := Encoded(c, e);
      if Feed(a, e).orderly then InStep(c', ReadAll(r, frames), Feed(a, e)) else ReadAll(r, frames).phase.Broken?
  {
    AfterStart(c, r, a);
    var s, r1 := c.(started := true), ReadAll(r, Started(c));
    match e
    case ArgsDelta(args) =>
      assert ReadAll(r1, [JsonPiece(c.blockIndex, args)]) == Read(r1, JsonPiece(c.blockIndex, args));
      ReadConcat(r, Started(c), [JsonPiece(c.blockIndex, args)]);
    case BlockStop =>
      AfterClose(s, r1, a);
      assert Closed(c) == Closed(s);
      ReadConcat(r, Started(c), Closed(c));
    case Finish(reason) =>
  }

  lemma {:induction false} EncodeAllInStep(c: Coding, r: Reading, a: Assembly, events: seq<Event>)
    requires InStep(c, r, a)
    ensures var (c', frames) := EncodedAll(c, events); var a' := FeedAll(a, events);
      if a'.orderly then InStep(c', ReadAll(r, frames), a') else ReadAll(r, frames).phase.Broken?
    decreases |events|
  {
    if events != [] {
      var e := events[0];
      var (c1, first) := Encoded(c, e);
      var rest := EncodedAll(c1, events[1..]).1;
      match e {
        case TextDelta(t) =>
          if !c.blockOpen || !c.blockType.TypeText? { EncodeNewText(c, r, a, t); } else { EncodeMoreText(c, r, a, t); }
        case ToolStart(id, name) => EncodeTool(c, r, a, id, name);
        case _ => EncodeRest(c, r, a, e);
      }
      ReadConcat(r, first, rest);
      if Feed(a, e).orderly {
        EncodeAllInStep(c1, ReadAll(r, first), Feed(a, e), events[1..]);
      } else {
        DisorderStays(Feed(a, e), events[1..]);
        BrokenStays(ReadAll(r, first), rest);
      }
    }
  }

  /** All frames of one stream. */
  function Stream(events: seq<Event>): seq<Frame> {
    EncodedAll(UNSTARTED, events).1 + Finished(EncodedAll(UNSTARTED, events).0).1
  }

  /** The closing frames complete the message. */
  lemma FinishReads(c: Coding, r: Reading, a: Assembly)
    requires InStep(c, r, a)
    ensures ReadAll(r, Finished(c).1) == Reading(Over, a.parts, if a.stop == "" then END_TURN else a.stop)
  {
    var s, r1 := c.(started := true), ReadAll(r, Started(c));
    AfterStart(c, r, a);
    AfterClose(s, r1, a);
    assert Closed(c) == Closed(s);
    var r2, delta := ReadAll(r1, Closed(c)), MessageDelta(if c.stopReason == "" then END_TURN else c.stopReason);
    ReadTwo(r2, delta, MessageStop);
    ReadConcat(r, Started(c), Closed(c));
    ReadConcat(r, Started(c) + Closed(c), [delta, MessageStop]);
  }

  /**
    The client reads a complete message with exactly the content blocks and the stop reason
    the events carry; and the frames follow the grammar only if every argument delta came
    while a tool block was open.
   */
  lemma StreamFollowsGrammarIff(events: seq<Event>)
    ensures var r, a := ReadAll(UNREAD, Stream(events)), Assemble(events);
      && (r.phase.Over? <==> a.orderly)
      && (a.orderly ==> r.parts == a.parts && r.stop == if a.stop == "" then END_TURN else a.stop)
  {
    var (c, frames) := EncodedAll(UNSTARTED, events);
    var r, a := ReadAll(UNREAD, frames), Assemble(events);
    EncodeAllInStep(UNSTARTED, UNREAD, EMPTY, events);
    ReadConcat(UNREAD, frames, Finished(c).1);
    if a.orderly {
      FinishReads(c, r, a);
    } else {
      BrokenStays(r, Finished(c).1);
    }
  }

  // ---- The decoder ----

  datatype Within = NoBlock | WithinText | WithinToolUse | WithinThinking

  function KindName(kind: Kind): Within {
    match kind
    case TextBlock => WithinText
    case ToolBlock(_, _) => WithinToolUse
    case ThinkingBlock => WithinThinking
  }

  function Decoded(w: Within, f: Frame): (Within, seq<Event>) {
    match f
    case BlockStart(_, kind) => (KindName(kind), if kind.ToolBlock? then [ToolStart(kind.id, kind.name)] else [])
    case TextPiece(_, t) => (w, if w.WithinThinking? then [] else [TextDelta(t)])
    case JsonPiece(_, json) => (w, if w.WithinThinking? then [] else [ArgsDelta(json)])
    case BlockEnd(_) => (NoBlock, if w.WithinThinking? then [] else [BlockStop])
    case MessageDelta(stop) => (w, if stop == "" then [] else [Finish(stop)])
    case _ => (w, [])
  }

  function DecodedAll(w: Within, frames: seq<Frame>): (Within, seq<Event>)
    decreases |frames|
  {
    if frames == [] then (w, [])
    else
      var one := Decoded(w, frames[0]);
      var rest := DecodedAll(one.0, frames[1..]);
      (rest.0, one.1 + rest.1)
  }

  lemma {:induction false} DecodedAppend(w: Within, frames: seq<Frame>, f: Frame)
    ensures DecodedAll(w, frames + [f]).0 == Decoded(DecodedAll(w, frames).0, f).0
    ensures DecodedAll(w, frames + [f]).1 == DecodedAll(w, frames).1 + Decoded(DecodedAll(w, frames).0, f).1
    decreases |frames|
  {
    if frames == [] {
      assert [] + [f] == [f];
      assert DecodedAll(w, [f]).1 == Decoded(w, f).1 + [];
    } else {
      var (w1, first) := Decoded(w, frames[0]);
      var (w2, rest) := DecodedAll(w1, frames[1..]);
      assert (frames + [f])[1..] == frames[1..] + [f];
      DecodedAppend(w1, frames[1..], f);
      Regroup(first, rest, Decoded(w2, f).1);
    }
  }

  class Decoder {
    var blockType: Within

    constructor ()
      ensures blockType == NoBlock
    {
      blockType := NoBlock;
    }

    method Decode(f: Frame) returns (events: seq<Event>)
      modifies this
      ensures (blockType, events) == Decoded(old(blockType), f)
    {
      match f
      case BlockStart(_, kind) =>
        blockType := KindName(kind);
        events := if kind.ToolBlock? then [ToolStart(kind.id, kind.name)] else [];
      case TextPiece(_, t) =>
        events := if blockType.WithinThinking? then [] else [TextDelta(t)];
      case JsonPiece(_, json) =>
        events := if blockType.WithinThinking? then [] else [ArgsDelta(json)];
      case BlockEnd(_) =>
        var ended := blockType;
        blockType := NoBlock;
        events := if ended.WithinThinking? then [] else [BlockStop];
      case MessageDelta(stop) =>
        events := if stop == "" then [] else [Finish(stop)];
      case _ =>
        events := [];
    }
  }

  /** Client of the upstream, decoder and content move together. */
  predicate Follows(w: Within, r: Reading, a: Assembly) {
    && Fits(a) && a.orderly && !r.phase.Broken?
    && Norm(a.parts) == Norm(r.parts)
    && (r.stop == "" || a.stop == r.stop)
    && (if !r.phase.Inside? then a.open.Nothing?
        else
          && r.parts != []
          && match r.parts[|r.parts| - 1]
             case Text(_) => w.WithinText? && !a.open.InTool?
             case Tool(_, _, _) => w.WithinToolUse? && a.open.InTool?
             case Thinking(_) => w.WithinThinking? && a.open.Nothing?)
  }

  lemma NormExtendThinking(parts: seq<Part>, t: string)
    requires parts != [] && parts[|parts| - 1].Thinking?
    ensures Norm(ExtendThinking(parts, t)) == Norm(parts)
  {
    NormAppend(parts[..|parts| - 1], Thinking(parts[|parts| - 1].text + t));
  }

  lemma FeedOne(a: Assembly, e: Event)
    ensures FeedAll(a, [e]) == Feed(a, e)
  {
  }

  lemma DecodeStart(w: Within, r: Reading, a: Assembly, index: int, kind: Kind)
    requires Follows(w, r, a) && !Read(r, BlockStart(index, kind)).phase.Broken?
    ensures Follows(KindName(kind), Read(r, BlockStart(index, kind)), FeedAll(a, Decoded(w, BlockStart(index, kind)).1))
  {
    NormAppend(r.parts, Opened(kind));
    if kind.ToolBlock? {
      FeedOne(a, ToolStart(kind.id, kind.name));
      FeedNorm(a, ToolStart(kind.id, kind.name));
    }
  }

  /** Text in step: the block goes on, and both sides gain the same. */
  lemma SameText(a: Assembly, parts: seq<Part>, t: string)
    requires Fits(a) && Norm(a.parts) == Norm(parts) && parts != [] && parts[|parts| - 1].Text?
    ensures var longer := ExtendText(parts, t);
      && longer != [] && longer[|longer| - 1].Text?
      && Norm(Feed(a, TextDelta(t)).parts) == Norm(longer) && Fits(Feed(a, TextDelta(t)))
  {
    FeedNorm(a, TextDelta(t));
    NormExtendText(parts, t);
  }

  lemma DecodeText(w: Within, r: Reading, a: Assembly, index: int, t: string)
    requires Follows(w, r, a) && !Read(r, TextPiece(index, t)).phase.Broken?
    ensures Follows(w, Read(r, TextPiece(index, t)), FeedAll(a, Decoded(w, TextPiece(index, t)).1))
  {
    assert r.phase.Inside? && r.parts != [] && r.parts[|r.parts| - 1].Text? && w.WithinText?;
    SameText(a, r.parts, t);
    FeedOne(a, TextDelta(t));
  }

  lemma SameArgs(a: Assembly, parts: seq<Part>, json: string)
    requires Fits(a) && a.open.InTool? && Norm(a.parts) == Norm(parts) && parts != [] && parts[|parts| - 1].Tool?
    ensures var longer := ExtendArgs(parts, json);
      && longer != [] && longer[|longer| - 1].Tool?
      && Norm(Feed(a, ArgsDelta(json)).parts) == Norm(longer) && Fits(Feed(a, ArgsDelta(json)))
  {
    FeedNorm(a, ArgsDelta(json));
    NormExtendArgs(parts, json);
  }

  lemma DecodeJson(w: Within, r: Reading, a: Assembly, index: int, json: string)
    requires Follows(w, r, a) && !Read(r, JsonPiece(index, json)).phase.Broken?
    ensures Follows(w, Read(r, JsonPiece(index, json)), FeedAll(a, Decoded(w, JsonPiece(index, json)).1))
  {
    assert r.phase.Inside? && r.parts != [] && r.parts[|r.parts| - 1].Tool? && w.WithinToolUse?;
    SameArgs(a, r.parts, json);
    FeedOne(a, ArgsDelta(json));
  }

  lemma DecodeThought(w: Within, r: Reading, a: Assembly, index: int, t: string)
    requires Follows(w, r, a) && !Read(r, ThinkingPiece(index, t)).phase.Broken?
    ensures Follows(w, Read(r, ThinkingPiece(index, t)), a)
  {
    NormExtendThinking(r.parts, t);
  }

  lemma DecodeOne(w: Within, r: Reading, a: Assembly, f: Frame)
    requires Follows(w, r, a) && !Read(r, f).phase.Broken? && !r.phase.Closing?
    ensures Follows(Decoded(w, f).0, Read(r, f), FeedAll(a, Decoded(w, f).1))
  {
    match f
    case BlockStart(index, kind) => DecodeStart(w, r, a, index, kind);
    case BlockEnd(_) => FeedOne(a, BlockStop);
    case MessageDelta(stop) => FeedOne(a, Finish(stop));
    case TextPiece(index, t) => DecodeText(w, r, a, index, t);
    case JsonPiece(index, json) => DecodeJson(w, r, a, index, json);
    case ThinkingPiece(index, t) => DecodeThought(w, r, a, index, t);
    case _ =>
  }

  lemma ClosingIsLast(r: Reading, f: Frame)
    requires r.phase.Closing? && !Read(r, f).phase.Broken?
    ensures f.MessageStop?
  {
  }

  lemma {:induction false} DecodeAllFollows(w: Within, r: Reading, a: Assembly, frames: seq<Frame>)
    requires Follows(w, r, a) && !ReadAll(r, frames).phase.Broken?
    ensures Follows(DecodedAll(w, frames).0, ReadAll(r, frames), FeedAll(a, DecodedAll(w, frames).1))
    decreases |frames|
  {
    if frames != [] {
      var f, r1 := frames[0], Read(r, frames[0]);
      var (w1, first) := Decoded(w, f);
      if r1.phase.Broken? {
        BrokenStays(r1, frames[1..]);
      }
      if r.phase.Closing? {
        ClosingIsLast(r, f);
      } else {
        DecodeOne(w, r, a, f);
      }
      FeedConcat(a, first, DecodedAll(w1, frames[1..]).1);
      DecodeAllFollows(w1, r1, FeedAll(a, first), frames[1..]);
    }
  }

  /**
    From any complete upstream message, reasoning blocks included, the decoder makes orderly
    events with the same content up to block boundaries and the same stop reason.
   */
  lemma DecodePreservesContent(frames: seq<Frame>)
    requires ReadAll(UNREAD, frames).phase.Over?
    ensures var r, a := ReadAll(UNREAD, frames), Assemble(DecodedAll(NoBlock, frames).1);
      a.orderly && Norm(a.parts) == Norm(r.parts) && (r.stop != "" ==> a.stop == r.stop)
  {
    DecodeAllFollows(NoBlock, UNREAD, EMPTY, frames);
  }

  /** The decoder undoes the encoder. */
  lemma DecodeUndoesEncode(events: seq<Event>)
    requires Assemble(events).orderly
    ensures var a, b := Assemble(events), Assemble(DecodedAll(NoBlock, Stream(events)).1);
      b.orderly && Norm(b.parts) == Norm(a.parts) && b.stop == if a.stop == "" then END_TURN else a.stop
  {
    StreamFollowsGrammarIff(events);
    DecodePreservesContent(Stream(events));
  }

  /**
    The two codecs agree: any upstream message, decoded and encoded again, reads as a
    well-formed message with the same content.  (Between two Anthropic ends the server passes
    frames through instead.)
   */
  lemma RelayedMessage(frames: seq<Frame>)
    requires ReadAll(UNREAD, frames).phase.Over?
    ensures var r, out := ReadAll(UNREAD, frames), ReadAll(UNREAD, Stream(DecodedAll(NoBlock, frames).1));
      out.phase.Over? && Norm(out.parts) == Norm(r.parts) && (r.stop != "" ==> out.stop == r.stop)
  {
    DecodePreservesContent(frames);
    StreamFollowsGrammarIff(DecodedAll(NoBlock, frames).1);
  }
}
