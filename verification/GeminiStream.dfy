/** The Gemini stream decoder, for text and function calls. */
module GeminiStream {
  import opened Outcomes
  import opened Canonical
  import opened Numerals

  datatype FunctionCall = FunctionCall(name: string, args: string)

  datatype ContentPart = ContentPart(text: string, call: Option<FunctionCall>)

  datatype Candidate = Candidate(parts: seq<ContentPart>, finishReason: string)

  type Chunk = seq<Candidate>

  datatype Atom = Piece(part: ContentPart) | End(reason: string)

  function Pieces(parts: seq<ContentPart>): seq<Atom> { seq(|parts|, i requires 0 <= i < |parts| => Piece(parts[i])) }

  function CandidateAtoms(c: Candidate): seq<Atom> { Pieces(c.parts) + [End(c.finishReason)] }

  function ChunkAtoms(chunk: Chunk): seq<Atom> {
    if chunk == [] then [] else ChunkAtoms(chunk[..|chunk| - 1]) + CandidateAtoms(chunk[|chunk| - 1])
  }

  function AllAtoms(chunks: seq<Chunk>): seq<Atom> {
    if chunks == [] then [] else AllAtoms(chunks[..|chunks| - 1]) + ChunkAtoms(chunks[|chunks| - 1])
  }

  // ---- Call ids ----

  function CallId(n: nat): string { "call_" + Decimal(n) }

  lemma CallIdsDiffer(m: nat, n: nat)
    requires m != n
    ensures CallId(m) != CallId(n)
  {
    if CallId(m) == CallId(n) {
      assert CallId(m)[5..] == Decimal(m) && CallId(n)[5..] == Decimal(n);
      DecimalIsInjective(m, n);
    }
  }

  // ---- What a stream says ----

  datatype Reading = Reading(parts: seq<Part>, calls: nat, stop: string)

  const UNREAD := Reading([], 0, "")

  function StopOf(reason: string): string { if reason == "MAX_TOKENS" then MAX_TOKENS else END_TURN }

  function Read(r: Reading, atom: Atom): Reading {
    match atom
    case Piece(p) =>
      var text := AddText(r.parts, p.text);
      if p.call.None? then r.(parts := text)
      else r.(parts := text + [Tool(CallId(r.calls + 1), p.call.value.name, p.call.value.args)], calls := r.calls + 1)
    case End(reason) => if reason == "" then r else r.(stop := StopOf(reason))
  }

  function ReadAll(r: Reading, atoms: seq<Atom>): Reading
    decreases |atoms|
  {
    if atoms == [] then r else ReadAll(Read(r, atoms[0]), atoms[1..])
  }

  // ---- The decoder ----

  function TextEvents(t: string): seq<Event> { if t == "" then [] else [TextDelta(t)] }

  function CallEvents(n: nat, call: FunctionCall): seq<Event> {
    [ToolStart(CallId(n), call.name), ArgsDelta(call.args), BlockStop]
  }

  function Decoded(n: nat, atom: Atom): (nat, seq<Event>) {
    match atom
    case Piece(p) =>
      var text := TextEvents(p.text);
      if p.call.None? then (n, text) else (n + 1, text + CallEvents(n + 1, p.call.value))
    case End(reason) => (n, if reason == "" then [] else [Finish(StopOf(reason))])
  }

  function DecodedAll(n: nat, atoms: seq<Atom>): (nat, seq<Event>)
    decreases |atoms|
  {
    if atoms == [] then (n, [])
    else
      var first := Decoded(n, atoms[0]);
      var rest := DecodedAll(first.0, atoms[1..]);
      (rest.0, first.1 + rest.1)
  }

  lemma {:induction false} DecodedConcat(n: nat, x: seq<Atom>, y: seq<Atom>)
    ensures DecodedAll(n, x + y).0 == DecodedAll(DecodedAll(n, x).0, y).0
    ensures DecodedAll(n, x + y).1 == DecodedAll(n, x).1 + DecodedAll(DecodedAll(n, x).0, y).1
    decreases |x|
  {
    if x == [] {
      assert x + y == y;
    } else {
      var (n1, first) := Decoded(n, x[0]);
      var (n2, rest) := DecodedAll(n1, x[1..]);
      assert (x + y)[1..] == x[1..] + y;
      DecodedConcat(n1, x[1..], y);
      Regroup(first, rest, DecodedAll(n2, y).1);
    }
  }

  lemma DecodedAppend(n: nat, atoms: seq<Atom>, atom: Atom)
    ensures DecodedAll(n, atoms + [atom]).0 == Decoded(DecodedAll(n, atoms).0, atom).0
    ensures DecodedAll(n, atoms + [atom]).1 == DecodedAll(n, atoms).1 + Decoded(DecodedAll(n, atoms).0, atom).1
  {
    DecodedConcat(n, atoms, [atom]);
    assert DecodedAll(DecodedAll(n, atoms).0, [atom]).1 == Decoded(DecodedAll(n, atoms).0, atom).1 + [];
  }

  class Decoder {
    var toolIdx: nat

    constructor ()
      ensures toolIdx == 0
    {
      toolIdx := 0;
    }

    method DecodePart(p: ContentPart) returns (events: seq<Event>)
      modifies this
      ensures toolIdx == Decoded(old(toolIdx), Piece(p)).0 && events == Decoded(old(toolIdx), Piece(p)).1
    {
      events := [];
      if p.text != "" {
        events := events + [TextDelta(p.text)];
      }
      if p.call.Some? {
        toolIdx := toolIdx + 1;
        events := events + [ToolStart(CallId(toolIdx), p.call.value.name), ArgsDelta(p.call.value.args), BlockStop];
      }
    }

    method DecodeCandidate(c: Candidate) returns (events: seq<Event>)
      modifies this
      ensures toolIdx == DecodedAll(old(toolIdx), CandidateAtoms(c)).0 && events == DecodedAll(old(toolIdx), CandidateAtoms(c)).1
    {
      events := [];
      ghost var start := toolIdx;
      for j := 0 to |c.parts|
        invariant toolIdx == DecodedAll(start, Pieces(c.parts[..j])).0 && events == DecodedAll(start, Pieces(c.parts[..j])).1
      {
        DecodedAppend(start, Pieces(c.parts[..j]), Piece(c.parts[j]));
        assert Pieces(c.parts[..j]) + [Piece(c.parts[j])] == Pieces(c.parts[..j + 1]);
        var more := DecodePart(c.parts[j]);
        events := events + more;
      }
      assert c.parts[..|c.parts|] == c.parts;
      DecodedAppend(start, Pieces(c.parts), End(c.finishReason));
      if c.finishReason != "" {
        var stop := END_TURN;
        if c.finishReason == "MAX_TOKENS" {
          stop := MAX_TOKENS;
        }
        events := events + [Finish(stop)];
      }
    }

    method Decode(chunk: Chunk) returns (events: seq<Event>)
      modifies this
      ensures toolIdx == DecodedAll(old(toolIdx), ChunkAtoms(chunk)).0 && events == DecodedAll(old(toolIdx), ChunkAtoms(chunk)).1
    {
      events := [];
      for i := 0 to |chunk|
        invariant toolIdx == DecodedAll(old(toolIdx), ChunkAtoms(chunk[..i])).0
        invariant events == DecodedAll(old(toolIdx), ChunkAtoms(chunk[..i])).1
      {
        assert chunk[..i + 1][..i] == chunk[..i];
        DecodedConcat(old(toolIdx), ChunkAtoms(chunk[..i]), CandidateAtoms(chunk[i]));
        var more := DecodeCandidate(chunk[i]);
        events := events + more;
      }
      assert chunk[..|chunk|] == chunk;
    }
  }

  predicate InStep(n: nat, a: Assembly, r: Reading) {
    Fits(a) && a.orderly && !a.open.InTool? && Norm(a.parts) == r.parts && n == r.calls && a.stop == r.stop
  }

  lemma FeedText(a: Assembly, t: string)
    requires Fits(a) && a.orderly && !a.open.InTool?
    ensures var b := FeedAll(a, TextEvents(t));
      Fits(b) && b.orderly && !b.open.InTool? && b.stop == a.stop && Norm(b.parts) == AddText(Norm(a.parts), t)
  {
    if t != "" {
      assert FeedAll(a, [TextDelta(t)]) == Feed(a, TextDelta(t));
      FeedNorm(a, TextDelta(t));
    }
  }

  lemma FeedCall(a: Assembly, n: nat, call: FunctionCall)
    requires Fits(a) && a.orderly
    ensures var b := FeedAll(a, CallEvents(n, call));
      Fits(b) && b.orderly && b.open.Nothing? && b.stop == a.stop && Norm(b.parts) == Norm(a.parts) + [Tool(CallId(n), call.name, call.args)]
  {
    var events := CallEvents(n, call);
    var a1 := Feed(a, events[0]);
    var a2 := Feed(a1, events[1]);
    assert events[1..] == [events[1], events[2]] && [events[1], events[2]][1..] == [events[2]];
    assert FeedAll(a2, [events[2]]) == Feed(a2, events[2]);
    FeedNorm(a, events[0]);
    FeedNorm(a1, events[1]);
    var front := Norm(a.parts);
    assert (front + [Tool(CallId(n), call.name, "")])[..|front|] == front;
    assert "" + call.args == call.args;
  }

  lemma FeedTextAndCall(a: Assembly, t: string, n: nat, call: FunctionCall)
    requires Fits(a) && a.orderly && !a.open.InTool?
    ensures var b := FeedAll(a, TextEvents(t) + CallEvents(n, call));
      && Fits(b) && b.orderly && b.open.Nothing? && b.stop == a.stop
      && Norm(b.parts) == AddText(Norm(a.parts), t) + [Tool(CallId(n), call.name, call.args)]
  {
    FeedText(a, t);
    FeedConcat(a, TextEvents(t), CallEvents(n, call));
    FeedCall(FeedAll(a, TextEvents(t)), n, call);
  }

  lemma DecodePiece(n: nat, a: Assembly, r: Reading, p: ContentPart)
    requires InStep(n, a, r)
    ensures InStep(Decoded(n, Piece(p)).0, FeedAll(a, Decoded(n, Piece(p)).1), Read(r, Piece(p)))
  {
    if p.call.Some? {
      FeedTextAndCall(a, p.text, n + 1, p.call.value);
    } else {
      FeedText(a, p.text);
    }
  }

  lemma DecodeEnd(n: nat, a: Assembly, r: Reading, reason: string)
    requires InStep(n, a, r)
    ensures InStep(Decoded(n, End(reason)).0, FeedAll(a, Decoded(n, End(reason)).1), Read(r, End(reason)))
  {
    if reason != "" {
      assert FeedAll(a, [Finish(StopOf(reason))]) == Feed(a, Finish(StopOf(reason)));
    }
  }

  lemma {:induction false} DecodeInStep(n: nat, a: Assembly, r: Reading, atoms: seq<Atom>)
    requires InStep(n, a, r)
    ensures InStep(DecodedAll(n, atoms).0, FeedAll(a, DecodedAll(n, atoms).1), ReadAll(r, atoms))
    decreases |atoms|
  {
    if atoms != [] {
      var (n1, first) := Decoded(n, atoms[0]);
      match atoms[0] {
        case Piece(p) => DecodePiece(n, a, r, p);
        case End(reason) => DecodeEnd(n, a, r, reason);
      }
      FeedConcat(a, first, DecodedAll(n1, atoms[1..]).1);
      DecodeInStep(n1, FeedAll(a, first), Read(r, atoms[0]), atoms[1..]);
    }
  }

  /** Every id is one of the first few, each used once. */
  predicate IdsInOrder(parts: seq<Part>, calls: nat) {
    |ToolsOf(parts)| == calls && forall i :: 0 <= i < calls ==> ToolsOf(parts)[i].Tool? && ToolsOf(parts)[i].id == CallId(i + 1)
  }

  lemma ReadKeepsIds(r: Reading, atom: Atom)
    requires IdsInOrder(r.parts, r.calls)
    ensures IdsInOrder(Read(r, atom).parts, Read(r, atom).calls)
  {
    if atom.Piece? {
      ViewsOfAddText(r.parts, atom.part.text);
      if atom.part.call.Some? {
        ViewsAppend(AddText(r.parts, atom.part.text), Tool(CallId(r.calls + 1), atom.part.call.value.name, atom.part.call.value.args));
      }
    }
  }

  lemma {:induction false} CallsAreNumbered(r: Reading, atoms: seq<Atom>)
    requires IdsInOrder(r.parts, r.calls)
    ensures IdsInOrder(ReadAll(r, atoms).parts, ReadAll(r, atoms).calls)
    decreases |atoms|
  {
    if atoms != [] {
      ReadKeepsIds(r, atoms[0]);
      CallsAreNumbered(Read(r, atoms[0]), atoms[1..]);
    }
  }

  /**
    Any Gemini stream becomes orderly events with its text and its calls in order, each call
    with an id of its own.
   */
  lemma DecodePreservesContent(chunks: seq<Chunk>)
    ensures var a, r := Assemble(DecodedAll(0, AllAtoms(chunks)).1), ReadAll(UNREAD, AllAtoms(chunks));
      && a.orderly && Norm(a.parts) == r.parts && a.stop == r.stop
      && forall i, j :: 0 <= i < j < |ToolsOf(r.parts)| ==> ToolsOf(r.parts)[i].Tool? && ToolsOf(r.parts)[j].Tool? && ToolsOf(r.parts)[i].id != ToolsOf(r.parts)[j].id
  {
    var r := ReadAll(UNREAD, AllAtoms(chunks));
    DecodeInStep(0, EMPTY, UNREAD, AllAtoms(chunks));
    CallsAreNumbered(UNREAD, AllAtoms(chunks));
    forall i, j | 0 <= i < j < |ToolsOf(r.parts)|
      ensures ToolsOf(r.parts)[i].Tool? && ToolsOf(r.parts)[j].Tool? && ToolsOf(r.parts)[i].id != ToolsOf(r.parts)[j].id
    {
      CallIdsDiffer(i + 1, j + 1);
    }
  }

  /** Every call the decoder reports has an id, so any client protocol can carry it. */
  lemma {:induction false} CallsHaveIds(n: nat, atoms: seq<Atom>)
    ensures forall e :: e in DecodedAll(n, atoms).1 && e.ToolStart? ==> e.id != ""
    decreases |atoms|
  {
    if atoms != [] {
      CallsHaveIds(Decoded(n, atoms[0]).0, atoms[1..]);
    }
  }
}
