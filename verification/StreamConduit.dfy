/**
  A translated stream: an upstream decoder feeding a client encoder, closed exactly once, and
  the loop that relays it line by line.
 */
module StreamConduit {
  import opened Outcomes
  import opened Canonical
  import A = AnthropicStream
  import G = GeminiStream
  import O = OpenAIStream

  /** A data line that is not valid JSON of its protocol says nothing. */
  datatype Payload = FromOpenAI(chunk: O.Chunk) | FromAnthropic(frame: A.Frame) | FromGemini(candidates: G.Chunk) | Unreadable

  datatype Frame = ToAnthropic(a: A.Frame) | ToOpenAI(o: O.Frame)

  datatype DecoderState = OpenAIUp(d: O.Decoding) | AnthropicUp(w: A.Within) | GeminiUp(n: nat)

  datatype EncoderState = AnthropicDown(a: A.Coding) | OpenAIDown(o: O.Coding)

  function Decode(d: DecoderState, p: Payload): (DecoderState, seq<Event>) {
    match (d, p)
    case (OpenAIUp(s), FromOpenAI(chunk)) => (OpenAIUp(O.DecodedAll(s, O.ChunkAtoms(chunk)).0), O.DecodedAll(s, O.ChunkAtoms(chunk)).1)
    case (AnthropicUp(w), FromAnthropic(frame)) => (AnthropicUp(A.Decoded(w, frame).0), A.Decoded(w, frame).1)
    case (GeminiUp(n), FromGemini(chunk)) => (GeminiUp(G.DecodedAll(n, G.ChunkAtoms(chunk)).0), G.DecodedAll(n, G.ChunkAtoms(chunk)).1)
    case _ => (d, [])
  }

  function WrapA(frames: seq<A.Frame>): seq<Frame> {
    if frames == [] then [] else [ToAnthropic(frames[0])] + WrapA(frames[1..])
  }

  function WrapO(frames: seq<O.Frame>): seq<Frame> {
    if frames == [] then [] else [ToOpenAI(frames[0])] + WrapO(frames[1..])
  }

  lemma {:induction false} WrapConcat(x: seq<A.Frame>, y: seq<A.Frame>)
    ensures WrapA(x + y) == WrapA(x) + WrapA(y)
  {
    if x == [] {
      assert x + y == y;
    } else {
      assert (x + y)[1..] == x[1..] + y;
      WrapConcat(x[1..], y);
    }
  }

  function Encode(c: EncoderState, e: Event): (EncoderState, seq<Frame>) {
    match c
    case AnthropicDown(s) => (AnthropicDown(A.Encoded(s, e).0), WrapA(A.Encoded(s, e).1))
    case OpenAIDown(s) => (OpenAIDown(O.Encoded(s, e).0), WrapO(O.Frames(O.Encoded(s, e).1)))
  }

  function EncodeAll(c: EncoderState, events: seq<Event>): (EncoderState, seq<Frame>)
    decreases |events|
  {
    if events == [] then (c, [])
    else
      var one := Encode(c, events[0]);
      var rest := EncodeAll(one.0, events[1..]);
      (rest.0, one.1 + rest.1)
  }

  function Finished(c: EncoderState): EncoderState {
    match c
    case AnthropicDown(s) => AnthropicDown(A.Finished(s).0)
    case OpenAIDown(_) => c
  }

  function FinishFrames(c: EncoderState): seq<Frame> {
    match c
    case AnthropicDown(s) => WrapA(A.Finished(s).1)
    case OpenAIDown(s) => WrapO([O.ChunkFrame(O.FinishChunk(s)), O.UsageFrame, O.DoneFrame])
  }

  lemma {:induction false} EncodeConcat(c: EncoderState, x: seq<Event>, y: seq<Event>)
    ensures EncodeAll(c, x + y).0 == EncodeAll(EncodeAll(c, x).0, y).0
    ensures EncodeAll(c, x + y).1 == EncodeAll(c, x).1 + EncodeAll(EncodeAll(c, x).0, y).1
    decreases |x|
  {
    if x == [] {
      assert x + y == y;
    } else {
      var (c1, first) := Encode(c, x[0]);
      var (c2, rest) := EncodeAll(c1, x[1..]);
      assert (x + y)[1..] == x[1..] + y;
      EncodeConcat(c1, x[1..], y);
      Regroup(first, rest, EncodeAll(c2, y).1);
    }
  }

  lemma EncodeAppend(c: EncoderState, x: seq<Event>, e: Event)
    ensures EncodeAll(c, x + [e]).0 == Encode(EncodeAll(c, x).0, e).0
    ensures EncodeAll(c, x + [e]).1 == EncodeAll(c, x).1 + Encode(EncodeAll(c, x).0, e).1
  {
    EncodeConcat(c, x, [e]);
    assert EncodeAll(EncodeAll(c, x).0, [e]).1 == Encode(EncodeAll(c, x).0, e).1 + [];
  }

  datatype Decoder = OpenAIDecoder(openai: O.Decoder) | AnthropicDecoder(anthropic: A.Decoder) | GeminiDecoder(gemini: G.Decoder)

  datatype Encoder = AnthropicEncoder(anthropic: A.Encoder) | OpenAIEncoder(openai: O.Encoder)

  function DecoderObject(d: Decoder): object {
    match d
    case OpenAIDecoder(o) => o
    case AnthropicDecoder(a) => a
    case GeminiDecoder(g) => g
  }

  function EncoderObject(e: Encoder): object {
    match e
    case AnthropicEncoder(a) => a
    case OpenAIEncoder(o) => o
  }

  function StateOf(d: Decoder): DecoderState
    reads DecoderObject(d)
  {
    match d
    case OpenAIDecoder(o) => OpenAIUp(o.Current())
    case AnthropicDecoder(a) => AnthropicUp(a.blockType)
    case GeminiDecoder(g) => GeminiUp(g.toolIdx)
  }

  function CodingOf(e: Encoder): EncoderState
    reads EncoderObject(e)
  {
    match e
    case AnthropicEncoder(a) => AnthropicDown(a.Current())
    case OpenAIEncoder(o) => OpenAIDown(o.Current())
  }

  method DecodeWith(d: Decoder, p: Payload) returns (events: seq<Event>)
    modifies DecoderObject(d)
    ensures StateOf(d) == Decode(old(StateOf(d)), p).0 && events == Decode(old(StateOf(d)), p).1
  {
    events := [];
    match d
    case OpenAIDecoder(o) => if p.FromOpenAI? { events := o.Decode(p.chunk); }
    case AnthropicDecoder(a) => if p.FromAnthropic? { events := a.Decode(p.frame); }
    case GeminiDecoder(g) => if p.FromGemini? { events := g.Decode(p.candidates); }
  }

  method EncodeWith(enc: Encoder, e: Event) returns (frames: seq<Frame>)
    modifies EncoderObject(enc)
    ensures CodingOf(enc) == Encode(old(CodingOf(enc)), e).0 && frames == Encode(old(CodingOf(enc)), e).1
  {
    match enc
    case AnthropicEncoder(a) =>
      var made := a.Encode(e);
      frames := WrapA(made);
    case OpenAIEncoder(o) =>
      var made := o.Encode(e);
      frames := WrapO(made);
  }

  method EncodeEvents(enc: Encoder, events: seq<Event>) returns (frames: seq<Frame>)
    modifies EncoderObject(enc)
    ensures CodingOf(enc) == EncodeAll(old(CodingOf(enc)), events).0 && frames == EncodeAll(old(CodingOf(enc)), events).1
  {
    frames := [];
    ghost var start := CodingOf(enc);
    for i := 0 to |events|
      invariant CodingOf(enc) == EncodeAll(start, events[..i]).0 && frames == EncodeAll(start, events[..i]).1
    {
      EncodeAppend(start, events[..i], events[i]);
      assert events[..i + 1] == events[..i] + [events[i]];
      var more := EncodeWith(enc, events[i]);
      frames := frames + more;
    }
    assert events[..|events|] == events;
  }

  class CanonicalStream {
    const dec: Decoder
    const enc: Encoder
    var done: bool

    constructor (dec: Decoder, enc: Encoder)
      ensures this.dec == dec && this.enc == enc && !done
    {
      this.dec, this.enc, done := dec, enc, false;
    }

    predicate Valid() { {this, DecoderObject(dec)} !! {EncoderObject(enc)} && this != DecoderObject(dec) }

    method ProcessPayload(p: Payload) returns (frames: seq<Frame>)
      requires Valid()
      modifies DecoderObject(dec), EncoderObject(enc)
      ensures StateOf(dec) == Decode(old(StateOf(dec)), p).0
      ensures CodingOf(enc) == EncodeAll(old(CodingOf(enc)), Decode(old(StateOf(dec)), p).1).0
      ensures frames == EncodeAll(old(CodingOf(enc)), Decode(old(StateOf(dec)), p).1).1
    {
      var events := DecodeWith(dec, p);
      frames := EncodeEvents(enc, events);
    }

    /** The closing frames are made once; asking again gives nothing. */
    method ProcessDone() returns (frames: seq<Frame>)
      requires Valid()
      modifies `done, EncoderObject(enc)
      ensures done && frames == if old(done) then [] else FinishFrames(old(CodingOf(enc)))
      ensures CodingOf(enc) == if old(done) then old(CodingOf(enc)) else Finished(old(CodingOf(enc)))
    {
      if done {
        return [];
      }
      done := true;
      match enc
      case AnthropicEncoder(a) =>
        var made := a.FinishStream();
        frames := WrapA(made);
      case OpenAIEncoder(o) =>
        var made := o.FinishStream();
        frames := WrapO(made);
    }
  }

  // ---- Relaying the upstream's lines ----

  /** Event, comment and blank lines are rebuilt by the encoder, not passed on. */
  datatype Line = Data(payload: Payload) | DoneMarker | Other

  /** Where a relayed stream stands, and the frames made so far. */
  datatype Relay = Relay(d: DecoderState, c: EncoderState, done: bool, made: seq<Frame>)

  function Close(s: Relay): Relay {
    if s.done then s else Relay(s.d, Finished(s.c), true, s.made + FinishFrames(s.c))
  }

  function RelayLine(s: Relay, line: Line): Relay {
    match line
    case Other => s
    case DoneMarker => Close(s)
    case Data(p) =>
      var (d, events) := Decode(s.d, p);
      var (c, frames) := EncodeAll(s.c, events);
      Relay(d, c, s.done, s.made + frames)
  }

  function RelayAll(s: Relay, lines: seq<Line>): Relay {
    if lines == [] then s else RelayLine(RelayAll(s, lines[..|lines| - 1]), lines[|lines| - 1])
  }

  method RelayOne(cs: CanonicalStream, line: Line) returns (frames: seq<Frame>)
    requires cs.Valid()
    modifies cs, DecoderObject(cs.dec), EncoderObject(cs.enc)
    ensures Relay(StateOf(cs.dec), CodingOf(cs.enc), cs.done, frames)
      == RelayLine(Relay(old(StateOf(cs.dec)), old(CodingOf(cs.enc)), old(cs.done), []), line)
  {
    frames := [];
    match line
    case Other =>
    case DoneMarker => frames := cs.ProcessDone();
    case Data(p) => frames := cs.ProcessPayload(p);
  }

  lemma RelayLineAdds(s: Relay, line: Line)
    ensures var t := RelayLine(s.(made := []), line);
      RelayLine(s, line) == t.(made := s.made + t.made)
  {
    match line
    case Other => assert s.made + [] == s.made;
    case DoneMarker => assert s.made + [] == s.made && s.made + ([] + FinishFrames(s.c)) == s.made + FinishFrames(s.c);
    case Data(p) =>
      var frames := EncodeAll(s.c, Decode(s.d, p).1).1;
      assert s.made + ([] + frames) == s.made + frames;
  }

  lemma PrefixGrows(made: seq<Frame>, more: seq<Frame>, patience: nat)
    ensures made[..Min(patience, |made|)] + more[..Min(patience - Min(patience, |made|), |more|)]
      == (made + more)[..Min(patience, |made + more|)]
  {
  }

  /** Relays one line; a client that still reads is sent its frames. */
  method RelayNext(cs: CanonicalStream, line: Line, made: seq<Frame>, sent: seq<Frame>, patience: nat, ghost s: Relay)
    returns (made': seq<Frame>, sent': seq<Frame>)
    requires cs.Valid() && Relay(StateOf(cs.dec), CodingOf(cs.enc), cs.done, made) == s
    requires sent == made[..Min(patience, |made|)]
    modifies cs, DecoderObject(cs.dec), EncoderObject(cs.enc)
    ensures Relay(StateOf(cs.dec), CodingOf(cs.enc), cs.done, made') == RelayLine(s, line)
    ensures sent' == made'[..Min(patience, |made'|)]
  {
    RelayLineAdds(s, line);
    var frames := RelayOne(cs, line);
    PrefixGrows(made, frames, patience);
    sent' := sent + frames[..Min(patience - |sent|, |frames|)];
    made' := made + frames;
  }

  lemma RelayLast(s: Relay, lines: seq<Line>, i: nat)
    requires i < |lines|
    ensures RelayAll(s, lines[..i + 1]) == RelayLine(RelayAll(s, lines[..i]), lines[i])
    ensures RelayAll(s, lines[..i + 1]).done == (RelayAll(s, lines[..i]).done || lines[i].DoneMarker?)
  {
    assert lines[..i + 1][..i] == lines[..i];
  }

  /**
    The relay loop.  A client that stops reading after some frames has received exactly
    those, while the upstream is read to its end.
   */
  method StreamResponse(cs: CanonicalStream, lines: seq<Line>, patience: nat) returns (made: seq<Frame>, sent: seq<Frame>)
    requires cs.Valid() && !cs.done
    modifies cs, DecoderObject(cs.dec), EncoderObject(cs.enc)
    ensures Relay(StateOf(cs.dec), CodingOf(cs.enc), cs.done, made)
      == Close(RelayAll(Relay(old(StateOf(cs.dec)), old(CodingOf(cs.enc)), false, []), lines))
    ensures sent == made[..Min(patience, |made|)]
  {
    made, sent := [], [];
    var doneSent := false;
    ghost var start := Relay(StateOf(cs.dec), CodingOf(cs.enc), false, []);
    for i := 0 to |lines|
      invariant sent == made[..Min(patience, |made|)] && doneSent == RelayAll(start, lines[..i]).done
      invariant Relay(StateOf(cs.dec), CodingOf(cs.enc), cs.done, made) == RelayAll(start, lines[..i])
    {
      RelayLast(start, lines, i);
      doneSent := doneSent || lines[i].DoneMarker?;
      made, sent := RelayNext(cs, lines[i], made, sent, patience, RelayAll(start, lines[..i]));
    }
    assert lines[..|lines|] == lines;
    if !doneSent {
      made, sent := RelayNext(cs, DoneMarker, made, sent, patience, RelayAll(start, lines));
    }
  }

  function EventsOf(d: DecoderState, lines: seq<Line>): (DecoderState, seq<Event>) {
    if lines == [] then (d, [])
    else
      var front := EventsOf(d, lines[..|lines| - 1]);
      var last := lines[|lines| - 1];
      if last.Data? then (Decode(front.0, last.payload).0, front.1 + Decode(front.0, last.payload).1) else front
  }

  /** No data after the marker that ends the stream. */
  predicate DoneIsLast(lines: seq<Line>) { forall i, j :: 0 <= i < j < |lines| && lines[i].DoneMarker? ==> !lines[j].Data? }

  predicate HasMarker(lines: seq<Line>) { exists i :: 0 <= i < |lines| && lines[i].DoneMarker? }

  /** Everything the client is to receive. */
  function WholeStream(d: DecoderState, c: EncoderState, lines: seq<Line>): seq<Frame> {
    var all := EncodeAll(c, EventsOf(d, lines).1);
    all.1 + FinishFrames(all.0)
  }

  lemma MarkerAppend(lines: seq<Line>)
    requires lines != []
    ensures HasMarker(lines) <==> HasMarker(lines[..|lines| - 1]) || lines[|lines| - 1].DoneMarker?
  {
    var front := lines[..|lines| - 1];
    if HasMarker(front) {
      var i :| 0 <= i < |front| && front[i].DoneMarker?;
      assert lines[i].DoneMarker?;
    }
    if HasMarker(lines) && !lines[|lines| - 1].DoneMarker? {
      var i :| 0 <= i < |lines| && lines[i].DoneMarker?;
      assert front[i].DoneMarker?;
    }
  }

  lemma {:induction false} RelaySoFar(d: DecoderState, c: EncoderState, lines: seq<Line>)
    requires DoneIsLast(lines)
    ensures var s := RelayAll(Relay(d, c, false, []), lines);
      && s.d == EventsOf(d, lines).0 && (s.done <==> HasMarker(lines))
      && if s.done then s.made == WholeStream(d, c, lines)
         else s.c == EncodeAll(c, EventsOf(d, lines).1).0 && s.made == EncodeAll(c, EventsOf(d, lines).1).1
  {
    if lines != [] {
      var front, last := lines[..|lines| - 1], lines[|lines| - 1];
      RelaySoFar(d, c, front);
      MarkerAppend(lines);
      if last.Data? {
        EncodeConcat(c, EventsOf(d, front).1, Decode(EventsOf(d, front).0, last.payload).1);
      }
    }
  }

  /** Whether or not the upstream sends its end marker, and however often, the client's stream is whole and closed once. */
  lemma RelayIsWholeStream(d: DecoderState, c: EncoderState, lines: seq<Line>)
    requires DoneIsLast(lines)
    ensures Close(RelayAll(Relay(d, c, false, []), lines)).made == WholeStream(d, c, lines)
  {
    RelaySoFar(d, c, lines);
  }

  // ---- From each upstream to each client ----

  lemma {:induction false} AnthropicFrames(c: A.Coding, events: seq<Event>)
    ensures EncodeAll(AnthropicDown(c), events).0 == AnthropicDown(A.EncodedAll(c, events).0)
    ensures EncodeAll(AnthropicDown(c), events).1 == WrapA(A.EncodedAll(c, events).1)
    decreases |events|
  {
    if events != [] {
      var (c1, first) := A.Encoded(c, events[0]);
      AnthropicFrames(c1, events[1..]);
      WrapConcat(first, A.EncodedAll(c1, events[1..]).1);
    }
  }

  /** What an Anthropic client receives is the encoder's stream of all the events. */
  lemma WholeAnthropicStream(d: DecoderState, lines: seq<Line>)
    ensures WholeStream(d, AnthropicDown(A.UNSTARTED), lines) == WrapA(A.Stream(EventsOf(d, lines).1))
  {
    var (c, frames) := A.EncodedAll(A.UNSTARTED, EventsOf(d, lines).1);
    AnthropicFrames(A.UNSTARTED, EventsOf(d, lines).1);
    WrapConcat(frames, A.Finished(c).1);
  }

  function OpenAILines(chunks: seq<O.Chunk>): seq<Line> { seq(|chunks|, i requires 0 <= i < |chunks| => Data(FromOpenAI(chunks[i]))) }

  function AnthropicLines(frames: seq<A.Frame>): seq<Line> { seq(|frames|, i requires 0 <= i < |frames| => Data(FromAnthropic(frames[i]))) }

  lemma EventsAppend(d: DecoderState, lines: seq<Line>, p: Payload)
    ensures var (d1, events) := EventsOf(d, lines);
      EventsOf(d, lines + [Data(p)]) == (Decode(d1, p).0, events + Decode(d1, p).1)
  {
    assert (lines + [Data(p)])[..|lines|] == lines;
  }

  lemma {:induction false} OpenAIEvents(chunks: seq<O.Chunk>)
    ensures EventsOf(OpenAIUp(O.UNSTARTED), OpenAILines(chunks)).0 == OpenAIUp(O.DecodedAll(O.UNSTARTED, O.AllAtoms(chunks)).0)
    ensures EventsOf(OpenAIUp(O.UNSTARTED), OpenAILines(chunks)).1 == O.DecodedAll(O.UNSTARTED, O.AllAtoms(chunks)).1
  {
    if chunks != [] {
      var front, last := chunks[..|chunks| - 1], chunks[|chunks| - 1];
      OpenAIEvents(front);
      assert OpenAILines(chunks) == OpenAILines(front) + [Data(FromOpenAI(last))];
      EventsAppend(OpenAIUp(O.UNSTARTED), OpenAILines(front), FromOpenAI(last));
      O.DecodedConcat(O.UNSTARTED, O.AllAtoms(front), O.ChunkAtoms(last));
    }
  }

  lemma StopOrDefault(finish: string)
    ensures var stop := if finish == "" then "" else FinishToCanon(finish);
      (if stop == "" then END_TURN else stop) == FinishToCanon(finish)
  {
    assert |END_TURN| == 8 && |MAX_TOKENS| == 10 && |TOOL_USE| == 8;
    assert |"length"| == 6 && |"tool_calls"| == 10 && |"function_call"| == 13;
  }

  lemma OpenAIFrames(chunks: seq<O.Chunk>)
    ensures WholeStream(OpenAIUp(O.UNSTARTED), AnthropicDown(A.UNSTARTED), OpenAILines(chunks))
      == WrapA(A.Stream(O.DecodedAll(O.UNSTARTED, O.AllAtoms(chunks)).1))
  {
    OpenAIEvents(chunks);
    WholeAnthropicStream(OpenAIUp(O.UNSTARTED), OpenAILines(chunks));
  }

  /**
    An OpenAI upstream relayed to an Anthropic client: if its calls are numbered, the client
    reads one well-formed message with the upstream's text and calls exactly when the deltas
    are in turn, and then with its stop reason.
   */
  lemma OpenAIToAnthropic(chunks: seq<O.Chunk>)
    requires O.Numbered(O.AllAtoms(chunks))
    ensures var m := O.CollectAll(O.AllAtoms(chunks));
      var frames := A.Stream(O.DecodedAll(O.UNSTARTED, O.AllAtoms(chunks)).1);
      var r := A.ReadAll(A.UNREAD, frames);
      && WholeStream(OpenAIUp(O.UNSTARTED), AnthropicDown(A.UNSTARTED), OpenAILines(chunks)) == WrapA(frames)
      && (r.phase.Over? && TextOf(Norm(r.parts)) == m.content && ToolsOf(Norm(r.parts)) == m.calls <==> O.ReadAll(O.AllAtoms(chunks)).inTurn)
      && (O.ReadAll(O.AllAtoms(chunks)).inTurn ==> r.stop == FinishToCanon(m.finish))
  {
    OpenAIFrames(chunks);
    O.ContentPreservedIff(O.AllAtoms(chunks));
    A.StreamFollowsGrammarIff(O.DecodedAll(O.UNSTARTED, O.AllAtoms(chunks)).1);
    if O.ReadAll(O.AllAtoms(chunks)).inTurn {
      O.ChunkingDoesNotMatter(chunks);
      StopOrDefault(O.CollectAll(O.AllAtoms(chunks)).finish);
    }
  }

  lemma {:induction false} AnthropicEvents(frames: seq<A.Frame>)
    ensures EventsOf(AnthropicUp(A.NoBlock), AnthropicLines(frames)).0 == AnthropicUp(A.DecodedAll(A.NoBlock, frames).0)
    ensures EventsOf(AnthropicUp(A.NoBlock), AnthropicLines(frames)).1 == A.DecodedAll(A.NoBlock, frames).1
  {
    if frames != [] {
      var front, last := frames[..|frames| - 1], frames[|frames| - 1];
      AnthropicEvents(front);
      assert AnthropicLines(frames) == AnthropicLines(front) + [Data(FromAnthropic(last))];
      EventsAppend(AnthropicUp(A.NoBlock), AnthropicLines(front), FromAnthropic(last));
      assert frames == front + [last];
      A.DecodedAppend(A.NoBlock, front, last);
    }
  }

  function GeminiLines(chunks: seq<G.Chunk>): seq<Line> { seq(|chunks|, i requires 0 <= i < |chunks| => Data(FromGemini(chunks[i]))) }

  lemma {:induction false} GeminiEvents(chunks: seq<G.Chunk>)
    ensures EventsOf(GeminiUp(0), GeminiLines(chunks)).0 == GeminiUp(G.DecodedAll(0, G.AllAtoms(chunks)).0)
    ensures EventsOf(GeminiUp(0), GeminiLines(chunks)).1 == G.DecodedAll(0, G.AllAtoms(chunks)).1
  {
    if chunks != [] {
      var front, last := chunks[..|chunks| - 1], chunks[|chunks| - 1];
      GeminiEvents(front);
      assert GeminiLines(chunks) == GeminiLines(front) + [Data(FromGemini(last))];
      EventsAppend(GeminiUp(0), GeminiLines(front), FromGemini(last));
      G.DecodedConcat(0, G.AllAtoms(front), G.ChunkAtoms(last));
    }
  }

  lemma {:induction false} WrapOConcat(x: seq<O.Frame>, y: seq<O.Frame>)
    ensures WrapO(x + y) == WrapO(x) + WrapO(y)
  {
    if x == [] {
      assert x + y == y;
    } else {
      assert (x + y)[1..] == x[1..] + y;
      WrapOConcat(x[1..], y);
    }
  }

  lemma FramesConcat(x: seq<O.Chunk>, y: seq<O.Chunk>)
    ensures WrapO(O.Frames(x + y)) == WrapO(O.Frames(x)) + WrapO(O.Frames(y))
  {
    assert O.Frames(x + y) == O.Frames(x) + O.Frames(y);
    WrapOConcat(O.Frames(x), O.Frames(y));
  }

  lemma {:induction false} OpenAIChunks(events: seq<Event>)
    ensures EncodeAll(OpenAIDown(O.IDLE), events).0 == OpenAIDown(O.EncodedAll(O.IDLE, events).0)
    ensures EncodeAll(OpenAIDown(O.IDLE), events).1 == WrapO(O.Frames(O.EncodedAll(O.IDLE, events).1))
  {
    if events != [] {
      var front, e := events[..|events| - 1], events[|events| - 1];
      var (c, chunks) := O.EncodedAll(O.IDLE, front);
      OpenAIChunks(front);
      assert events == front + [e];
      EncodeAppend(OpenAIDown(O.IDLE), front, e);
      FramesConcat(chunks, O.Encoded(c, e).1);
    }
  }

  function OpenAIOutput(events: seq<Event>): seq<Frame> { WrapO(O.Frames(O.Stream(events)) + [O.UsageFrame, O.DoneFrame]) }

  /** What an OpenAI client receives: the encoder's chunks of all the events, the usage, and the end marker. */
  lemma WholeOpenAIStream(d: DecoderState, lines: seq<Line>)
    ensures WholeStream(d, OpenAIDown(O.IDLE), lines) == OpenAIOutput(EventsOf(d, lines).1)
  {
    var events := EventsOf(d, lines).1;
    var c, chunks := O.EncodedAll(O.IDLE, events).0, O.EncodedAll(O.IDLE, events).1;
    var tail := [O.ChunkFrame(O.FinishChunk(c)), O.UsageFrame, O.DoneFrame];
    OpenAIChunks(events);
    WrapOConcat(O.Frames(chunks), tail);
    assert O.Frames(chunks) + tail == O.Frames(O.Stream(events)) + [O.UsageFrame, O.DoneFrame];
  }

  /** An Anthropic upstream translated for an OpenAI client: in turn, same content, matching finish reason. */
  lemma AnthropicToOpenAI(frames: seq<A.Frame>)
    requires A.ReadAll(A.UNREAD, frames).phase.Over? && O.NamedTools(A.DecodedAll(A.NoBlock, frames).1)
    ensures var events := A.DecodedAll(A.NoBlock, frames).1;
      var up, down := A.ReadAll(A.UNREAD, frames), O.ReadAll(O.AllAtoms(O.Stream(events)));
      && WholeStream(AnthropicUp(A.NoBlock), OpenAIDown(O.IDLE), AnthropicLines(frames)) == OpenAIOutput(events)
      && down.inTurn && down.parts == Norm(up.parts) && (up.stop != "" ==> down.finish == CanonToFinish(up.stop))
  {
    AnthropicEvents(frames);
    WholeOpenAIStream(AnthropicUp(A.NoBlock), AnthropicLines(frames));
    A.DecodePreservesContent(frames);
    O.StreamCarriesContent(A.DecodedAll(A.NoBlock, frames).1);
  }

  lemma GeminiFrames(chunks: seq<G.Chunk>)
    ensures var events := G.DecodedAll(0, G.AllAtoms(chunks)).1;
      && WholeStream(GeminiUp(0), AnthropicDown(A.UNSTARTED), GeminiLines(chunks)) == WrapA(A.Stream(events))
      && WholeStream(GeminiUp(0), OpenAIDown(O.IDLE), GeminiLines(chunks)) == OpenAIOutput(events)
  {
    GeminiEvents(chunks);
    WholeAnthropicStream(GeminiUp(0), GeminiLines(chunks));
    WholeOpenAIStream(GeminiUp(0), GeminiLines(chunks));
  }

  /** A Gemini upstream reaches either client with its content, whatever the stream. */
  lemma GeminiToBoth(chunks: seq<G.Chunk>)
    ensures var events, up := G.DecodedAll(0, G.AllAtoms(chunks)).1, G.ReadAll(G.UNREAD, G.AllAtoms(chunks));
      var a, o := A.ReadAll(A.UNREAD, A.Stream(events)), O.ReadAll(O.AllAtoms(O.Stream(events)));
      && WholeStream(GeminiUp(0), AnthropicDown(A.UNSTARTED), GeminiLines(chunks)) == WrapA(A.Stream(events))
      && WholeStream(GeminiUp(0), OpenAIDown(O.IDLE), GeminiLines(chunks)) == OpenAIOutput(events)
      && a.phase.Over? && Norm(a.parts) == up.parts && a.stop == (if up.stop == "" then END_TURN else up.stop)
      && o.inTurn && o.parts == up.parts && o.finish == CanonToFinish(up.stop)
  {
    var events := G.DecodedAll(0, G.AllAtoms(chunks)).1;
    GeminiFrames(chunks);
    G.DecodePreservesContent(chunks);
    A.StreamFollowsGrammarIff(events);
    G.CallsHaveIds(0, G.AllAtoms(chunks));
    O.StreamCarriesContent(events);
  }
}
