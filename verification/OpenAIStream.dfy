/**
  The OpenAI chunk stream: what its deltas say to a client, the decoder of an upstream
  stream, and the encoder that writes it for a client.
 */
module OpenAIStream {
  import opened Canonical
  import opened Outcomes

  datatype Call = Call(index: int, id: string, name: string, args: string)

  datatype Choice = Choice(content: string, calls: seq<Call>, finish: string)

  type Chunk = seq<Choice>

  /** The deltas of a stream one by one, however they are spread over chunks. */
  datatype Atom = Content(text: string) | CallDelta(call: Call) | Fin(reason: string)

  predicate Named(c: Call) { c.id != "" || c.name != "" }

  function CallAtoms(calls: seq<Call>): seq<Atom> { seq(|calls|, i requires 0 <= i < |calls| => CallDelta(calls[i])) }

  function ChoiceAtoms(c: Choice): seq<Atom> { [Content(c.content)] + CallAtoms(c.calls) + [Fin(c.finish)] }

  function ChunkAtoms(chunk: Chunk): seq<Atom> {
    if chunk == [] then [] else ChunkAtoms(chunk[..|chunk| - 1]) + ChoiceAtoms(chunk[|chunk| - 1])
  }

  function AllAtoms(chunks: seq<Chunk>): seq<Atom> {
    if chunks == [] then [] else AllAtoms(chunks[..|chunks| - 1]) + ChunkAtoms(chunks[|chunks| - 1])
  }

  // ---- What the deltas say ----

  /** In turn: every argument delta belongs to the call opened last, with no text in between, and calls are numbered 0, 1, 2, ... */
  datatype Reading = Reading(parts: seq<Part>, inTool: bool, inTurn: bool, finish: string)

  const UNREAD := Reading([], false, true, "")

  function Read(r: Reading, atom: Atom): Reading {
    match atom
    case Content(t) => if t == "" then r else r.(parts := AddText(r.parts, t), inTool := false)
    case CallDelta(c) =>
      if Named(c) then
        r.(parts := r.parts + [Tool(c.id, c.name, c.args)], inTool := true, inTurn := r.inTurn && c.index == |ToolsOf(r.parts)|)
      else if c.args == "" then r
      else if r.inTool && c.index == |ToolsOf(r.parts)| - 1 then r.(parts := ExtendArgs(r.parts, c.args))
      else r.(inTurn := false)
    case Fin(reason) => if reason == "" then r else r.(finish := reason, inTool := false)
  }

  function ReadAll(atoms: seq<Atom>): Reading {
    if atoms == [] then UNREAD else Read(ReadAll(atoms[..|atoms| - 1]), atoms[|atoms| - 1])
  }

  /** What the decoder hears: an argument delta belongs to the open call, whatever its number. */
  function Hear(r: Reading, atom: Atom): Reading {
    match atom
    case CallDelta(c) =>
      if Named(c) then r.(parts := r.parts + [Tool(c.id, c.name, c.args)], inTool := true)
      else if c.args == "" then r
      else if r.inTool then r.(parts := ExtendArgs(r.parts, c.args))
      else r.(inTurn := false)
    case _ => Read(r, atom)
  }

  function HearAll(atoms: seq<Atom>): Reading {
    if atoms == [] then UNREAD else Hear(HearAll(atoms[..|atoms| - 1]), atoms[|atoms| - 1])
  }

  /** A whole message, as a client collects it: the text, and the calls by index. */
  datatype Message = Message(content: string, calls: seq<Part>, finish: string)

  function Collect(m: Message, atom: Atom): Message {
    match atom
    case Content(t) => m.(content := m.content + t)
    case CallDelta(c) =>
      if !Named(c) && c.args == "" then m
      else if 0 <= c.index < |m.calls| && m.calls[c.index].Tool? then
        var was := m.calls[c.index];
        m.(calls := m.calls[c.index := Tool(if c.id == "" then was.id else c.id, if c.name == "" then was.name else c.name, was.args + c.args)])
      else m.(calls := m.calls + [Tool(c.id, c.name, c.args)])
    case Fin(reason) => if reason == "" then m else m.(finish := reason)
  }

  function CollectAll(atoms: seq<Atom>): Message {
    if atoms == [] then Message("", [], "") else Collect(CollectAll(atoms[..|atoms| - 1]), atoms[|atoms| - 1])
  }

  predicate ToolLast(r: Reading) { r.inTool ==> r.parts != [] && r.parts[|r.parts| - 1].Tool? }

  predicate Agree(r: Reading, m: Message) {
    ToolLast(r) && TextOf(r.parts) == m.content && ToolsOf(r.parts) == m.calls && r.finish == m.finish
  }

  lemma AtomAgrees(r: Reading, m: Message, atom: Atom)
    requires Agree(r, m) && Read(r, atom).inTurn
    ensures r.inTurn && Agree(Read(r, atom), Collect(m, atom))
  {
    match atom
    case Content(t) => ViewsOfAddText(r.parts, t);
    case CallDelta(c) =>
      if Named(c) {
        ViewsAppend(r.parts, Tool(c.id, c.name, c.args));
      } else if c.args != "" {
        ViewsOfExtendArgs(r.parts, c.args);
      }
    case Fin(_) =>
  }

  /** Both readings agree on a stream that is in turn. */
  lemma {:induction false} ReadingsAgree(atoms: seq<Atom>)
    requires ReadAll(atoms).inTurn
    ensures Agree(ReadAll(atoms), CollectAll(atoms))
  {
    if atoms != [] {
      var front, atom := atoms[..|atoms| - 1], atoms[|atoms| - 1];
      InTurnBefore(ReadAll(front), atom);
      ReadingsAgree(front);
      AtomAgrees(ReadAll(front), CollectAll(front), atom);
    }
  }

  lemma InTurnBefore(r: Reading, atom: Atom)
    requires Read(r, atom).inTurn
    ensures r.inTurn
  {
  }

  function Start(m: Message): seq<Part> { if m.content == "" then [] else [Text(m.content)] }

  /** The parts of a message that was not streamed. */
  function WholeMessage(m: Message): seq<Part> { Start(m) + m.calls }

  /** No text after the first call. */
  predicate ContentFirst(atoms: seq<Atom>) {
    forall i, j :: 0 <= i < j < |atoms| && atoms[i].CallDelta? && Named(atoms[i].call) && atoms[j].Content? ==> atoms[j].text == ""
  }

  /** No call has been read: the parts are one text or nothing. */
  predicate TextOnly(r: Reading) { !r.inTool && (r.parts == [] || (|r.parts| == 1 && r.parts[0].Text?)) }

  lemma TextOnlyStays(r: Reading, atom: Atom)
    requires TextOnly(r) && (atom.CallDelta? ==> !Named(atom.call))
    ensures TextOnly(Read(r, atom))
  {
  }

  lemma {:induction false} NoCallYet(atoms: seq<Atom>)
    requires forall i :: 0 <= i < |atoms| && atoms[i].CallDelta? ==> !Named(atoms[i].call)
    ensures TextOnly(ReadAll(atoms))
  {
    if atoms != [] {
      var front := atoms[..|atoms| - 1];
      assert forall i :: 0 <= i < |front| ==> front[i] == atoms[i];
      NoCallYet(front);
      TextOnlyStays(ReadAll(front), atoms[|atoms| - 1]);
    }
  }

  lemma NoTools(parts: seq<Part>)
    requires parts == [] || (|parts| == 1 && parts[0].Text?)
    ensures ToolsOf(parts) == []
  {
    if parts != [] {
      assert parts[..0] == [];
    }
  }

  lemma WholeMessageText(m: Message, t: string)
    requires m.calls == [] && t != ""
    ensures WholeMessage(m.(content := m.content + t)) == AddText(WholeMessage(m), t)
  {
    assert "" + t == t;
  }

  lemma ExtendAfter(start: seq<Part>, calls: seq<Part>, args: string)
    requires calls != []
    ensures ExtendArgs(start + calls, args) == start + ExtendArgs(calls, args)
  {
    var last := calls[|calls| - 1];
    assert (start + calls)[..|start + calls| - 1] == start + calls[..|calls| - 1];
  }

  lemma WholeMessageOpens(r: Reading, m: Message, c: Call)
    requires r.parts == WholeMessage(m) && Agree(r, m) && Named(c) && ToolsOf(Read(r, CallDelta(c)).parts) == Collect(m, CallDelta(c)).calls
    ensures Read(r, CallDelta(c)).parts == WholeMessage(Collect(m, CallDelta(c)))
  {
    var tool := Tool(c.id, c.name, c.args);
    ViewsAppend(r.parts, tool);
    Regroup(Start(m), m.calls, [tool]);
  }

  lemma WholeMessageExtends(r: Reading, m: Message, c: Call)
    requires r.parts == WholeMessage(m) && Agree(r, m) && !Named(c) && c.args != "" && Read(r, CallDelta(c)).inTurn
    requires ToolsOf(Read(r, CallDelta(c)).parts) == Collect(m, CallDelta(c)).calls
    ensures Read(r, CallDelta(c)).parts == WholeMessage(Collect(m, CallDelta(c)))
  {
    ViewsOfExtendArgs(r.parts, c.args);
    ExtendAfter(Start(m), m.calls, c.args);
  }

  lemma WholeMessageCall(r: Reading, m: Message, c: Call)
    requires r.parts == WholeMessage(m) && Agree(r, m) && Read(r, CallDelta(c)).inTurn
    requires ToolsOf(Read(r, CallDelta(c)).parts) == Collect(m, CallDelta(c)).calls
    ensures Read(r, CallDelta(c)).parts == WholeMessage(Collect(m, CallDelta(c)))
  {
    if Named(c) {
      WholeMessageOpens(r, m, c);
    } else if c.args != "" {
      WholeMessageExtends(r, m, c);
    }
  }

  lemma {:induction false} ContentFirstReading(atoms: seq<Atom>)
    requires ReadAll(atoms).inTurn && ContentFirst(atoms)
    ensures ReadAll(atoms).parts == WholeMessage(CollectAll(atoms))
  {
    if atoms != [] {
      var front, atom := atoms[..|atoms| - 1], atoms[|atoms| - 1];
      assert forall i :: 0 <= i < |front| ==> front[i] == atoms[i];
      ContentFirstReading(front);
      ReadingsAgree(front);
      ReadingsAgree(atoms);
      match atom {
        case Content(t) =>
          if t != "" {
            NoCallYet(front);
            NoTools(ReadAll(front).parts);
            WholeMessageText(CollectAll(front), t);
          } else {
            assert CollectAll(front).content + t == CollectAll(front).content;
          }
        case CallDelta(c) => WholeMessageCall(ReadAll(front), CollectAll(front), c);
        case Fin(_) =>
      }
    }
  }

  // ---- The decoder ----

  datatype Decoding = Decoding(openToolIdx: int, textOpen: bool)

  const UNSTARTED := Decoding(-1, false)

  function Decoded(d: Decoding, atom: Atom): (Decoding, seq<Event>) {
    match atom
    case Content(t) =>
      if t == "" then (d, [])
      else (Decoding(if d.openToolIdx >= 0 then -1 else d.openToolIdx, true), (if d.openToolIdx >= 0 then [BlockStop] else []) + [TextDelta(t)])
    case CallDelta(c) =>
      var args := if c.args == "" then [] else [ArgsDelta(c.args)];
      if Named(c) then
        (Decoding(c.index, false), (if d.openToolIdx >= 0 || d.textOpen then [BlockStop] else []) + [ToolStart(c.id, c.name)] + args)
      else (d, args)
    case Fin(reason) =>
      if reason == "" then (d, [])
      else if d.openToolIdx >= 0 || d.textOpen then (UNSTARTED, [BlockStop, Finish(FinishToCanon(reason))])
      else (d, [Finish(FinishToCanon(reason))])
  }

  function DecodedAll(d: Decoding, atoms: seq<Atom>): (Decoding, seq<Event>)
    decreases |atoms|
  {
    if atoms == [] then (d, [])
    else
      var first := Decoded(d, atoms[0]);
      var rest := DecodedAll(first.0, atoms[1..]);
      (rest.0, first.1 + rest.1)
  }

  lemma {:induction false} DecodedConcat(d: Decoding, x: seq<Atom>, y: seq<Atom>)
    ensures DecodedAll(d, x + y).0 == DecodedAll(DecodedAll(d, x).0, y).0
    ensures DecodedAll(d, x + y).1 == DecodedAll(d, x).1 + DecodedAll(DecodedAll(d, x).0, y).1
    decreases |x|
  {
    if x == [] {
      assert x + y == y;
    } else {
      assert (x + y)[1..] == x[1..] + y;
      DecodedConcat(Decoded(d, x[0]).0, x[1..], y);
    }
  }

  lemma DecodedAppend(d: Decoding, atoms: seq<Atom>, atom: Atom)
    ensures DecodedAll(d, atoms + [atom]).0 == Decoded(DecodedAll(d, atoms).0, atom).0
    ensures DecodedAll(d, atoms + [atom]).1 == DecodedAll(d, atoms).1 + Decoded(DecodedAll(d, atoms).0, atom).1
  {
    DecodedConcat(d, atoms, [atom]);
    var d1 := DecodedAll(d, atoms).0;
    assert DecodedAll(d1, [atom]).1 == Decoded(d1, atom).1 + [];
  }

  class Decoder {
    var openToolIdx: int
    var textOpen: bool

    constructor ()
      ensures Current() == UNSTARTED
    {
      openToolIdx, textOpen := -1, false;
    }

    function Current(): Decoding reads this { Decoding(openToolIdx, textOpen) }

    method DecodeContent(text: string) returns (events: seq<Event>)
      modifies this
      ensures Current() == Decoded(old(Current()), Content(text)).0 && events == Decoded(old(Current()), Content(text)).1
    {
      events := [];
      if text != "" {
        if openToolIdx >= 0 {
          events := events + [BlockStop];
          openToolIdx := -1;
        }
        textOpen := true;
        events := events + [TextDelta(text)];
      }
    }

    method DecodeCall(call: Call) returns (events: seq<Event>)
      modifies this
      ensures Current() == Decoded(old(Current()), CallDelta(call)).0 && events == Decoded(old(Current()), CallDelta(call)).1
    {
      events := [];
      if call.id != "" || call.name != "" {
        if openToolIdx >= 0 || textOpen {
          events := events + [BlockStop];
          textOpen := false;
        }
        openToolIdx := call.index;
        events := events + [ToolStart(call.id, call.name)];
      }
      if call.args != "" {
        events := events + [ArgsDelta(call.args)];
      }
    }

    method DecodeFinish(reason: string) returns (events: seq<Event>)
      modifies this
      ensures Current() == Decoded(old(Current()), Fin(reason)).0 && events == Decoded(old(Current()), Fin(reason)).1
    {
      events := [];
      if reason != "" {
        if openToolIdx >= 0 || textOpen {
          events := events + [BlockStop];
          openToolIdx, textOpen := -1, false;
        }
        events := events + [Finish(FinishToCanon(reason))];
      }
    }

    method DecodeChoice(c: Choice) returns (events: seq<Event>)
      modifies this
      ensures Current() == DecodedAll(old(Current()), ChoiceAtoms(c)).0 && events == DecodedAll(old(Current()), ChoiceAtoms(c)).1
    {
      ghost var start := Current();
      ghost var done := [Content(c.content)];
      DecodedAppend(start, [], done[0]);
      assert [] + done == done;
      events := DecodeContent(c.content);
      for j := 0 to |c.calls|
        invariant done == [Content(c.content)] + CallAtoms(c.calls[..j])
        invariant Current() == DecodedAll(start, done).0 && events == DecodedAll(start, done).1
      {
        DecodedAppend(start, done, CallDelta(c.calls[j]));
        done := done + [CallDelta(c.calls[j])];
        var more := DecodeCall(c.calls[j]);
        events := events + more;
      }
      assert c.calls[..|c.calls|] == c.calls;
      DecodedAppend(start, done, Fin(c.finish));
      var last := DecodeFinish(c.finish);
      events := events + last;
    }

    method Decode(chunk: Chunk) returns (events: seq<Event>)
      modifies this
      ensures Current() == DecodedAll(old(Current()), ChunkAtoms(chunk)).0 && events == DecodedAll(old(Current()), ChunkAtoms(chunk)).1
    {
      events := [];
      for i := 0 to |chunk|
        invariant Current() == DecodedAll(old(Current()), ChunkAtoms(chunk[..i])).0 && events == DecodedAll(old(Current()), ChunkAtoms(chunk[..i])).1
      {
        assert chunk[..i + 1][..i] == chunk[..i];
        DecodedConcat(old(Current()), ChunkAtoms(chunk[..i]), ChoiceAtoms(chunk[i]));
        var more := DecodeChoice(chunk[i]);
        events := events + more;
      }
      assert chunk[..|chunk|] == chunk;
    }
  }

  /** Decoder, content and client move together. */
  predicate InStep(d: Decoding, a: Assembly, r: Reading) {
    && Fits(a) && a.orderly && Norm(a.parts) == r.parts
    && (r.inTool <==> a.open.InTool?) && (d.openToolIdx >= 0 <==> a.open.InTool?) && (d.textOpen <==> a.open.InText?)
    && a.stop == if r.finish == "" then "" else FinishToCanon(r.finish)
  }

  lemma FeedTwo(a: Assembly, e: Event, f: Event)
    ensures FeedAll(a, [e, f]) == Feed(Feed(a, e), f)
  {
    assert [e, f][1..] == [f];
    assert FeedAll(Feed(a, e), [f]) == Feed(Feed(a, e), f);
  }

  lemma ClosingFirst(a: Assembly, close: bool, rest: seq<Event>)
    requires close <==> !a.open.Nothing?
    ensures FeedAll(a, (if close then [BlockStop] else []) + rest) == FeedAll(a.(open := Nothing), rest)
  {
    if close {
      assert ([BlockStop] + rest)[1..] == rest;
    } else {
      assert [] + rest == rest;
    }
  }

  lemma DecodeContent(d: Decoding, a: Assembly, r: Reading, t: string)
    requires InStep(d, a, r)
    ensures var (d', events) := Decoded(d, Content(t)); InStep(d', FeedAll(a, events), Read(r, Content(t)))
  {
    if t != "" {
      if d.openToolIdx >= 0 {
        ClosingFirst(a, true, [TextDelta(t)]);
        FeedNorm(a.(open := Nothing), TextDelta(t));
        assert FeedAll(a.(open := Nothing), [TextDelta(t)]) == Feed(a.(open := Nothing), TextDelta(t));
      } else {
        assert [] + [TextDelta(t)] == [TextDelta(t)];
        assert FeedAll(a, [TextDelta(t)]) == Feed(a, TextDelta(t));
        FeedNorm(a, TextDelta(t));
      }
    }
  }

  function ArgsEvents(args: string): seq<Event> { if args == "" then [] else [ArgsDelta(args)] }

  lemma DecodeArgs(a: Assembly, args: string)
    requires Fits(a) && a.open.InTool? && a.orderly
    ensures var b := FeedAll(a, ArgsEvents(args));
      && Fits(b) && b.orderly && b.open == a.open && b.stop == a.stop
      && Norm(b.parts) == ExtendArgs(Norm(a.parts), args)
  {
    if args == "" {
      ExtendArgsNothing(a.parts);
      NormExtendArgs(a.parts, args);
    } else {
      assert FeedAll(a, [ArgsDelta(args)]) == Feed(a, ArgsDelta(args));
      FeedNorm(a, ArgsDelta(args));
    }
  }

  /** Opening a call closes what is open, starts the block and hands its first arguments over. */
  lemma OpeningFed(d: Decoding, a: Assembly, c: Call)
    requires Named(c) && (d.openToolIdx >= 0 || d.textOpen <==> !a.open.Nothing?)
    ensures FeedAll(a, Decoded(d, CallDelta(c)).1) == FeedAll(Feed(a.(open := Nothing), ToolStart(c.id, c.name)), ArgsEvents(c.args))
  {
    var close := d.openToolIdx >= 0 || d.textOpen;
    var rest := [ToolStart(c.id, c.name)] + ArgsEvents(c.args);
    var closing := if close then [BlockStop] else [];
    assert closing + [ToolStart(c.id, c.name)] + ArgsEvents(c.args) == closing + rest;
    ClosingFirst(a, close, rest);
    assert rest[1..] == ArgsEvents(c.args);
  }

  lemma StartedWithArgs(a: Assembly, c: Call)
    requires Fits(a) && a.orderly
    ensures var b := FeedAll(Feed(a, ToolStart(c.id, c.name)), ArgsEvents(c.args));
      && Fits(b) && b.orderly && b.open.InTool? && b.stop == a.stop
      && Norm(b.parts) == Norm(a.parts) + [Tool(c.id, c.name, c.args)]
  {
    FeedNorm(a, ToolStart(c.id, c.name));
    DecodeArgs(Feed(a, ToolStart(c.id, c.name)), c.args);
    ExtendLastArgs(Norm(a.parts), Tool(c.id, c.name, ""), c.args);
    assert "" + c.args == c.args;
  }

  lemma DecodeOpening(d: Decoding, a: Assembly, r: Reading, c: Call)
    requires InStep(d, a, r) && Named(c) && c.index >= 0
    ensures var (d', events) := Decoded(d, CallDelta(c)); InStep(d', FeedAll(a, events), Read(r, CallDelta(c)))
  {
    OpeningFed(d, a, c);
    StartedWithArgs(a.(open := Nothing), c);
  }

  lemma DecodeCall(d: Decoding, a: Assembly, r: Reading, c: Call)
    requires InStep(d, a, r) && Hear(r, CallDelta(c)).inTurn && (Named(c) ==> c.index >= 0)
    ensures var (d', events) := Decoded(d, CallDelta(c)); InStep(d', FeedAll(a, events), Hear(r, CallDelta(c)))
  {
    if Named(c) {
      DecodeOpening(d, a, r, c);
    } else if c.args != "" {
      DecodeArgs(a, c.args);
    }
  }

  lemma DecodeFin(d: Decoding, a: Assembly, r: Reading, reason: string)
    requires InStep(d, a, r)
    ensures var (d', events) := Decoded(d, Fin(reason)); InStep(d', FeedAll(a, events), Read(r, Fin(reason)))
  {
    if reason != "" {
      if d.openToolIdx >= 0 || d.textOpen {
        FeedTwo(a, BlockStop, Finish(FinishToCanon(reason)));
      } else {
        assert FeedAll(a, [Finish(FinishToCanon(reason))]) == Feed(a, Finish(FinishToCanon(reason)));
      }
    }
  }

  lemma HeardBefore(r: Reading, atom: Atom)
    requires Hear(r, atom).inTurn
    ensures r.inTurn
  {
  }

  /** The calls that deltas open are numbered from zero up, never below. */
  predicate Indexed(atoms: seq<Atom>) { forall i :: 0 <= i < |atoms| && atoms[i].CallDelta? && Named(atoms[i].call) ==> atoms[i].call.index >= 0 }

  lemma DecodeOne(d: Decoding, a: Assembly, r: Reading, atom: Atom)
    requires InStep(d, a, r) && Hear(r, atom).inTurn && (atom.CallDelta? && Named(atom.call) ==> atom.call.index >= 0)
    ensures InStep(Decoded(d, atom).0, FeedAll(a, Decoded(d, atom).1), Hear(r, atom))
  {
    match atom
    case Content(t) => DecodeContent(d, a, r, t);
    case CallDelta(c) => DecodeCall(d, a, r, c);
    case Fin(reason) => DecodeFin(d, a, r, reason);
  }

  /** An argument delta with no call open makes the events disorderly. */
  lemma DecodeStray(d: Decoding, a: Assembly, r: Reading, atom: Atom)
    requires InStep(d, a, r) && r.inTurn && !Hear(r, atom).inTurn
    ensures !FeedAll(a, Decoded(d, atom).1).orderly
  {
    assert FeedAll(a, [ArgsDelta(atom.call.args)]) == Feed(a, ArgsDelta(atom.call.args));
  }

  lemma DecodedLast(atoms: seq<Atom>)
    requires atoms != []
    ensures var front, atom := atoms[..|atoms| - 1], atoms[|atoms| - 1];
      var d, a := DecodedAll(UNSTARTED, front).0, Assemble(DecodedAll(UNSTARTED, front).1);
      && DecodedAll(UNSTARTED, atoms).0 == Decoded(d, atom).0
      && Assemble(DecodedAll(UNSTARTED, atoms).1) == FeedAll(a, Decoded(d, atom).1)
  {
    var front, atom := atoms[..|atoms| - 1], atoms[|atoms| - 1];
    var d, events := DecodedAll(UNSTARTED, front).0, DecodedAll(UNSTARTED, front).1;
    assert atoms == front + [atom];
    DecodedAppend(UNSTARTED, front, atom);
    FeedConcat(EMPTY, events, Decoded(d, atom).1);
  }

  /** What the decoder makes of any stream: exactly what it hears, and disorder exactly when an argument delta found no call open. */
  lemma {:induction false} DecodeInStep(atoms: seq<Atom>)
    requires Indexed(atoms)
    ensures var d, a, r := DecodedAll(UNSTARTED, atoms).0, Assemble(DecodedAll(UNSTARTED, atoms).1), HearAll(atoms);
      if r.inTurn then InStep(d, a, r) else !a.orderly
  {
    if atoms == [] {
      assert Assemble([]) == EMPTY;
    } else {
      var front, atom := atoms[..|atoms| - 1], atoms[|atoms| - 1];
      var d, a, r := DecodedAll(UNSTARTED, front).0, Assemble(DecodedAll(UNSTARTED, front).1), HearAll(front);
      assert forall i :: 0 <= i < |front| ==> front[i] == atoms[i];
      DecodeInStep(front);
      DecodedLast(atoms);
      if !r.inTurn {
        DisorderStays(a, Decoded(d, atom).1);
      } else if Hear(r, atom).inTurn {
        DecodeOne(d, a, r, atom);
      } else {
        DecodeStray(d, a, r, atom);
      }
    }
  }

  /** In turn, what the decoder hears is what the stream says. */
  lemma {:induction false} HeardInTurn(atoms: seq<Atom>)
    requires ReadAll(atoms).inTurn
    ensures HearAll(atoms) == ReadAll(atoms) && Indexed(atoms)
  {
    if atoms != [] {
      var front := atoms[..|atoms| - 1];
      assert forall i :: 0 <= i < |front| ==> front[i] == atoms[i];
      HeardInTurn(front);
    }
  }

  lemma DecodeInTurn(atoms: seq<Atom>)
    requires ReadAll(atoms).inTurn
    ensures InStep(DecodedAll(UNSTARTED, atoms).0, Assemble(DecodedAll(UNSTARTED, atoms).1), ReadAll(atoms))
  {
    HeardInTurn(atoms);
    DecodeInStep(atoms);
  }

  /**
    However a message is cut into chunks and deltas: if its deltas are in turn, the events
    carry the client's text, calls and stop reason, in order; and if no text follows a call,
    exactly the parts of the message received whole.
   */
  lemma ChunkingDoesNotMatter(chunks: seq<Chunk>)
    requires ReadAll(AllAtoms(chunks)).inTurn
    ensures var atoms := AllAtoms(chunks); var a, m := Assemble(DecodedAll(UNSTARTED, atoms).1), CollectAll(atoms);
      && a.orderly && Norm(a.parts) == ReadAll(atoms).parts
      && TextOf(Norm(a.parts)) == m.content && ToolsOf(Norm(a.parts)) == m.calls
      && (ContentFirst(atoms) ==> Norm(a.parts) == WholeMessage(m))
      && a.stop == if m.finish == "" then "" else FinishToCanon(m.finish)
  {
    var atoms := AllAtoms(chunks);
    DecodeInTurn(atoms);
    ReadingsAgree(atoms);
    if ContentFirst(atoms) {
      ContentFirstReading(atoms);
    }
  }

  // ---- Exactly which streams keep their content ----

  /** Calls are opened as 0, 1, 2, ..., and every argument delta names one that was opened before. */
  predicate Numbered(atoms: seq<Atom>) {
    atoms != [] ==>
      var front, atom := atoms[..|atoms| - 1], atoms[|atoms| - 1];
      && Numbered(front)
      && (atom.CallDelta? && Named(atom.call) ==> atom.call.index == |CollectAll(front).calls|)
      && (atom.CallDelta? && !Named(atom.call) && atom.call.args != "" ==> 0 <= atom.call.index < |CollectAll(front).calls|)
  }

  /** The events carry the text and the calls of the message, each call with its own arguments. */
  predicate Preserved(atoms: seq<Atom>) {
    var a, m := Assemble(DecodedAll(UNSTARTED, atoms).1), CollectAll(atoms);
    a.orderly && TextOf(Norm(a.parts)) == m.content && ToolsOf(Norm(a.parts)) == m.calls
  }

  predicate AllTools(parts: seq<Part>) { forall i :: 0 <= i < |parts| ==> parts[i].Tool? }

  lemma {:induction false} NumberedIsIndexed(atoms: seq<Atom>)
    requires Numbered(atoms)
    ensures Indexed(atoms) && AllTools(CollectAll(atoms).calls)
  {
    if atoms != [] {
      var front := atoms[..|atoms| - 1];
      assert forall i :: 0 <= i < |front| ==> front[i] == atoms[i];
      NumberedIsIndexed(front);
    }
  }

  /** A stream in turn is numbered. */
  lemma {:induction false} InTurnIsNumbered(atoms: seq<Atom>)
    requires ReadAll(atoms).inTurn
    ensures Numbered(atoms)
  {
    if atoms != [] {
      InTurnIsNumbered(atoms[..|atoms| - 1]);
      ReadingsAgree(atoms[..|atoms| - 1]);
    }
  }

  /** Call i, opened before the last one, has been heard with fewer arguments than it has. */
  predicate ShortOf(tools: seq<Part>, calls: seq<Part>, i: nat) {
    i + 1 < |tools| == |calls| && tools[i].Tool? && calls[i].Tool? && |tools[i].args| < |calls[i].args|
  }

  /** What one delta does to the calls heard: only the last one ever grows. */
  lemma HearTools(r: Reading, atom: Atom)
    requires ToolLast(r) && Hear(r, atom).inTurn
    ensures ToolLast(Hear(r, atom))
    ensures ToolsOf(Hear(r, atom).parts) ==
      if atom.CallDelta? && Named(atom.call) then ToolsOf(r.parts) + [Tool(atom.call.id, atom.call.name, atom.call.args)]
      else if atom.CallDelta? && atom.call.args != "" then ExtendArgs(ToolsOf(r.parts), atom.call.args)
      else ToolsOf(r.parts)
  {
    match atom
    case Content(t) => ViewsOfAddText(r.parts, t);
    case CallDelta(c) =>
      if Named(c) {
        ViewsAppend(r.parts, Tool(c.id, c.name, c.args));
      } else if c.args != "" {
        ViewsOfExtendArgs(r.parts, c.args);
      }
    case Fin(_) =>
  }

  /** From then on the call stays short: the decoder never returns to it, and its arguments only grow. */
  lemma ShortStays(r: Reading, m: Message, atom: Atom, i: nat)
    requires ToolLast(r) && Hear(r, atom).inTurn && ShortOf(ToolsOf(r.parts), m.calls, i) && AllTools(m.calls)
    requires atom.CallDelta? && Named(atom.call) ==> atom.call.index == |m.calls|
    requires atom.CallDelta? && !Named(atom.call) && atom.call.args != "" ==> 0 <= atom.call.index < |m.calls|
    ensures ShortOf(ToolsOf(Hear(r, atom).parts), Collect(m, atom).calls, i)
  {
    HearTools(r, atom);
  }

  /** The first delta out of turn leaves its call short. */
  lemma ShortBegins(r: Reading, m: Message, atom: Atom) returns (i: nat)
    requires ToolLast(r) && r.inTurn && ToolsOf(r.parts) == m.calls && AllTools(m.calls)
    requires atom.CallDelta? && Named(atom.call) ==> atom.call.index == |m.calls|
    requires atom.CallDelta? && !Named(atom.call) && atom.call.args != "" ==> 0 <= atom.call.index < |m.calls|
    requires !Read(r, atom).inTurn && Hear(r, atom).inTurn
    ensures ShortOf(ToolsOf(Hear(r, atom).parts), Collect(m, atom).calls, i)
  {
    i := atom.call.index;
    HearTools(r, atom);
  }

  lemma {:induction false} HeardToolLast(atoms: seq<Atom>)
    ensures HearAll(atoms).inTurn ==> ToolLast(HearAll(atoms))
  {
    if atoms != [] {
      HeardToolLast(atoms[..|atoms| - 1]);
    }
  }

  /** A numbered stream out of turn, if it stays orderly, is heard with some call short. */
  lemma {:induction false} OutOfTurnIsShort(atoms: seq<Atom>) returns (i: nat)
    requires Numbered(atoms) && !ReadAll(atoms).inTurn && HearAll(atoms).inTurn
    ensures ShortOf(ToolsOf(HearAll(atoms).parts), CollectAll(atoms).calls, i)
  {
    var front, atom := atoms[..|atoms| - 1], atoms[|atoms| - 1];
    HeardBefore(HearAll(front), atom);
    HeardToolLast(front);
    NumberedIsIndexed(front);
    if ReadAll(front).inTurn {
      ReadingsAgree(front);
      HeardInTurn(front);
      i := ShortBegins(ReadAll(front), CollectAll(front), atom);
    } else {
      i := OutOfTurnIsShort(front);
      ShortStays(HearAll(front), CollectAll(front), atom, i);
    }
  }

  /** A numbered stream keeps its text and its calls exactly when its deltas are in turn: parallel calls must not interleave. */
  lemma ContentPreservedIff(atoms: seq<Atom>)
    requires Numbered(atoms)
    ensures Preserved(atoms) <==> ReadAll(atoms).inTurn
  {
    if ReadAll(atoms).inTurn {
      DecodeInTurn(atoms);
      ReadingsAgree(atoms);
    } else {
      NumberedIsIndexed(atoms);
      DecodeInStep(atoms);
      if HearAll(atoms).inTurn {
        var i := OutOfTurnIsShort(atoms);
      }
    }
  }

  const TWO_CALLS: seq<Atom> := [CallDelta(Call(0, "a", "f", "")), CallDelta(Call(1, "b", "g", "")), CallDelta(Call(0, "", "", "x"))]

  lemma TwoCallsEvents()
    ensures DecodedAll(UNSTARTED, TWO_CALLS).1 == [ToolStart("a", "f"), BlockStop, ToolStart("b", "g"), ArgsDelta("x")]
  {
    DecodedAppend(UNSTARTED, [], TWO_CALLS[0]);
    DecodedAppend(UNSTARTED, TWO_CALLS[..1], TWO_CALLS[1]);
    DecodedAppend(UNSTARTED, TWO_CALLS[..2], TWO_CALLS[2]);
    assert [] + [TWO_CALLS[0]] == TWO_CALLS[..1];
    assert TWO_CALLS[..1] + [TWO_CALLS[1]] == TWO_CALLS[..2];
    assert TWO_CALLS[..2] + [TWO_CALLS[2]] == TWO_CALLS;
  }

  lemma TwoCallsCollected()
    ensures CollectAll(TWO_CALLS).calls == [Tool("a", "f", "x"), Tool("b", "g", "")]
  {
    assert TWO_CALLS[..2][..1] == TWO_CALLS[..1] && TWO_CALLS[..1][..0] == [];
    assert CollectAll(TWO_CALLS[..1]).calls == [Tool("a", "f", "")];
    assert CollectAll(TWO_CALLS[..2]).calls == [Tool("a", "f", ""), Tool("b", "g", "")];
    assert "" + "x" == "x";
  }

  lemma FeedFour(a: Assembly, e: Event, f: Event, g: Event, h: Event)
    ensures FeedAll(a, [e, f, g, h]) == Feed(Feed(Feed(Feed(a, e), f), g), h)
  {
    assert [e, f, g, h] == [e, f] + [g, h];
    FeedConcat(a, [e, f], [g, h]);
    FeedTwo(a, e, f);
    FeedTwo(Feed(Feed(a, e), f), g, h);
  }

  lemma TwoStarts(start: Event, next: Event)
    requires start == ToolStart("a", "f") && next == ToolStart("b", "g")
    ensures Feed(Feed(Feed(Feed(EMPTY, start), BlockStop), next), ArgsDelta("x")).parts == [Tool("a", "f", ""), Tool("b", "g", "x")]
  {
    assert "" + "x" == "x";
    assert Feed(Feed(EMPTY, start), BlockStop).parts == [Tool("a", "f", "")];
    ExtendLastArgs([Tool("a", "f", "")], Tool("b", "g", ""), "x");
  }

  /** For example, with two calls open at once the arguments of the first reach the second. */
  lemma InterleavedArgumentsMix()
    ensures CollectAll(TWO_CALLS).calls == [Tool("a", "f", "x"), Tool("b", "g", "")]
    ensures Assemble(DecodedAll(UNSTARTED, TWO_CALLS).1).parts == [Tool("a", "f", ""), Tool("b", "g", "x")]
  {
    TwoCallsCollected();
    TwoCallsEvents();
    FeedFour(EMPTY, ToolStart("a", "f"), BlockStop, ToolStart("b", "g"), ArgsDelta("x"));
    TwoStarts(ToolStart("a", "f"), ToolStart("b", "g"));
  }

  // ---- The encoder ----

  datatype Frame = ChunkFrame(chunk: Chunk) | UsageFrame | DoneFrame

  datatype Coding = Coding(stopReason: string, toolIndex: int)

  const IDLE := Coding("", -1)

  function Encoded(c: Coding, e: Event): (Coding, seq<Chunk>) {
    match e
    case TextDelta(t) => (c, [[Choice(t, [], "")]])
    case ToolStart(id, name) => (c.(toolIndex := c.toolIndex + 1), [[Choice("", [Call(c.toolIndex + 1, id, name, "")], "")]])
    case ArgsDelta(args) => (c, [[Choice("", [Call(c.toolIndex, "", "", args)], "")]])
    case BlockStop => (c, [])
    case Finish(reason) => (c.(stopReason := reason), [])
  }

  function EncodedAll(c: Coding, events: seq<Event>): (Coding, seq<Chunk>) {
    if events == [] then (c, [])
    else
      var front := EncodedAll(c, events[..|events| - 1]);
      var last := Encoded(front.0, events[|events| - 1]);
      (last.0, front.1 + last.1)
  }

  /** The last chunk of a stream; a usage frame and the done marker follow it. */
  function FinishChunk(c: Coding): Chunk { [Choice("", [], if c.stopReason == "" then "stop" else CanonToFinish(c.stopReason))] }

  function Frames(chunks: seq<Chunk>): seq<Frame> { seq(|chunks|, i requires 0 <= i < |chunks| => ChunkFrame(chunks[i])) }

  class Encoder {
    var stopReason: string
    var toolIndex: int

    constructor ()
      ensures Current() == IDLE
    {
      stopReason, toolIndex := "", -1;
    }

    function Current(): Coding reads this { Coding(stopReason, toolIndex) }

    method Encode(e: Event) returns (frames: seq<Frame>)
      modifies this
      ensures Current() == Encoded(old(Current()), e).0 && frames == Frames(Encoded(old(Current()), e).1)
    {
      match e
      case TextDelta(t) => frames := [ChunkFrame([Choice(t, [], "")])];
      case ToolStart(id, name) =>
        toolIndex := toolIndex + 1;
        frames := [ChunkFrame([Choice("", [Call(toolIndex, id, name, "")], "")])];
      case ArgsDelta(args) => frames := [ChunkFrame([Choice("", [Call(toolIndex, "", "", args)], "")])];
      case Finish(reason) =>
        stopReason := reason;
        frames := [];
      case BlockStop => frames := [];
    }

    method FinishStream() returns (frames: seq<Frame>)
      ensures frames == [ChunkFrame(FinishChunk(Current())), UsageFrame, DoneFrame]
    {
      var stop := CanonToFinish(stopReason);
      if stopReason == "" {
        stop := "stop";
      }
      frames := [ChunkFrame([Choice("", [], stop)]), UsageFrame, DoneFrame];
    }
  }

  function Stream(events: seq<Event>): seq<Chunk> {
    EncodedAll(IDLE, events).1 + [FinishChunk(EncodedAll(IDLE, events).0)]
  }

  lemma AtomsAppend(chunks: seq<Chunk>, chunk: Chunk)
    ensures AllAtoms(chunks + [chunk]) == AllAtoms(chunks) + ChunkAtoms(chunk)
  {
    assert (chunks + [chunk])[..|chunks|] == chunks;
  }

  lemma ReadAppend(atoms: seq<Atom>, atom: Atom)
    ensures ReadAll(atoms + [atom]) == Read(ReadAll(atoms), atom)
  {
    assert (atoms + [atom])[..|atoms|] == atoms;
  }

  /** A chunk of one choice with at most one call is read delta by delta; its empty deltas say nothing. */
  lemma ReadChunk(atoms: seq<Atom>, c: Choice)
    requires |c.calls| <= 1
    ensures var r := Read(ReadAll(atoms), Content(c.content));
      ReadAll(atoms + ChunkAtoms([c])) == Read(if c.calls == [] then r else Read(r, CallDelta(c.calls[0])), Fin(c.finish))
  {
    assert ChunkAtoms([c]) == ChoiceAtoms(c) by {
      assert [c][..0] == [];
      assert ChunkAtoms([]) + ChoiceAtoms(c) == ChoiceAtoms(c);
    }
    ReadAppend(atoms, Content(c.content));
    if c.calls == [] {
      assert atoms + ChoiceAtoms(c) == (atoms + [Content(c.content)]) + [Fin(c.finish)];
      ReadAppend(atoms + [Content(c.content)], Fin(c.finish));
    } else {
      var call := CallDelta(c.calls[0]);
      assert atoms + ChoiceAtoms(c) == ((atoms + [Content(c.content)]) + [call]) + [Fin(c.finish)];
      ReadAppend(atoms + [Content(c.content)], call);
      ReadAppend((atoms + [Content(c.content)]) + [call], Fin(c.finish));
    }
  }

  predicate NamedTools(events: seq<Event>) { forall i :: 0 <= i < |events| && events[i].ToolStart? ==> events[i].id != "" || events[i].name != "" }

  /** Encoder, client and content move together. */
  predicate Carries(c: Coding, r: Reading, a: Assembly) {
    && Fits(a) && a.orderly && r.inTurn && r.parts == Norm(a.parts) && ToolLast(r)
    && (a.open.InTool? ==> r.inTool) && c.toolIndex == |ToolsOf(r.parts)| - 1
    && c.stopReason == a.stop && r.finish == ""
  }

  lemma ExtendArgsNothing(parts: seq<Part>)
    requires parts != [] && parts[|parts| - 1].Tool?
    ensures ExtendArgs(parts, "") == parts
  {
    var front, p := parts[..|parts| - 1], parts[|parts| - 1];
    assert p.args + "" == p.args;
    assert front + [p] == parts;
  }

  lemma OneChunk(atoms: seq<Atom>, c: Choice)
    requires |c.calls| <= 1
    ensures var r := Read(ReadAll(atoms), Content(c.content));
      ReadAll(atoms + AllAtoms([[c]])) == Read(if c.calls == [] then r else Read(r, CallDelta(c.calls[0])), Fin(c.finish))
  {
    assert [[c]] == [] + [[c]] && AllAtoms([]) + ChunkAtoms([c]) == ChunkAtoms([c]);
    AtomsAppend([], [c]);
    ReadChunk(atoms, c);
  }

  lemma CarriesText(c: Coding, r: Reading, a: Assembly, t: string)
    requires Carries(c, r, a)
    ensures Carries(c, Read(r, Content(t)), Feed(a, TextDelta(t)))
  {
    FeedNorm(a, TextDelta(t));
    ViewsOfAddText(r.parts, t);
  }

  lemma CarriesTool(c: Coding, r: Reading, a: Assembly, id: string, name: string)
    requires Carries(c, r, a) && (id != "" || name != "")
    ensures Carries(c.(toolIndex := c.toolIndex + 1), Read(r, CallDelta(Call(c.toolIndex + 1, id, name, ""))), Feed(a, ToolStart(id, name)))
  {
    FeedNorm(a, ToolStart(id, name));
    ViewsAppend(r.parts, Tool(id, name, ""));
  }

  lemma CarriesArgs(c: Coding, r: Reading, a: Assembly, args: string)
    requires Carries(c, r, a) && a.open.InTool?
    ensures Carries(c, Read(r, CallDelta(Call(c.toolIndex, "", "", args))), Feed(a, ArgsDelta(args)))
  {
    FeedNorm(a, ArgsDelta(args));
    if args == "" {
      ExtendArgsNothing(r.parts);
    } else {
      ViewsOfExtendArgs(r.parts, args);
    }
  }

  lemma EncodeOneText(atoms: seq<Atom>, c: Coding, a: Assembly, t: string)
    requires Carries(c, ReadAll(atoms), a)
    ensures Carries(c, ReadAll(atoms + AllAtoms([[Choice(t, [], "")]])), Feed(a, TextDelta(t)))
  {
    OneChunk(atoms, Choice(t, [], ""));
    CarriesText(c, ReadAll(atoms), a, t);
  }

  lemma EncodeOneTool(atoms: seq<Atom>, c: Coding, a: Assembly, id: string, name: string)
    requires Carries(c, ReadAll(atoms), a) && (id != "" || name != "")
    ensures Carries(c.(toolIndex := c.toolIndex + 1), ReadAll(atoms + AllAtoms([[Choice("", [Call(c.toolIndex + 1, id, name, "")], "")]])),
                    Feed(a, ToolStart(id, name)))
  {
    OneChunk(atoms, Choice("", [Call(c.toolIndex + 1, id, name, "")], ""));
    CarriesTool(c, ReadAll(atoms), a, id, name);
  }

  lemma EncodeOneArgs(atoms: seq<Atom>, c: Coding, a: Assembly, args: string)
    requires Carries(c, ReadAll(atoms), a) && a.open.InTool?
    ensures Carries(c, ReadAll(atoms + AllAtoms([[Choice("", [Call(c.toolIndex, "", "", args)], "")]])), Feed(a, ArgsDelta(args)))
  {
    OneChunk(atoms, Choice("", [Call(c.toolIndex, "", "", args)], ""));
    CarriesArgs(c, ReadAll(atoms), a, args);
  }

  lemma EncodeNothing(atoms: seq<Atom>, c: Coding, a: Assembly, e: Event)
    requires Carries(c, ReadAll(atoms), a) && (e.BlockStop? || e.Finish?)
    ensures Carries(Encoded(c, e).0, ReadAll(atoms + AllAtoms(Encoded(c, e).1)), Feed(a, e))
  {
    assert atoms + AllAtoms([]) == atoms;
  }

  lemma EncodeOne(atoms: seq<Atom>, c: Coding, a: Assembly, e: Event)
    requires Carries(c, ReadAll(atoms), a) && Feed(a, e).orderly && (e.ToolStart? ==> e.id != "" || e.name != "")
    ensures Carries(Encoded(c, e).0, ReadAll(atoms + AllAtoms(Encoded(c, e).1)), Feed(a, e))
  {
    match e
    case TextDelta(t) => EncodeOneText(atoms, c, a, t);
    case ToolStart(id, name) => EncodeOneTool(atoms, c, a, id, name);
    case ArgsDelta(args) => EncodeOneArgs(atoms, c, a, args);
    case _ => EncodeNothing(atoms, c, a, e);
  }

  lemma {:induction false} AtomsConcat(x: seq<Chunk>, y: seq<Chunk>)
    ensures AllAtoms(x + y) == AllAtoms(x) + AllAtoms(y)
  {
    if y == [] {
      assert x + y == x;
    } else {
      var front, last := y[..|y| - 1], y[|y| - 1];
      calc {
        AllAtoms(x + y);
        { assert x + y == (x + front) + [last]; AtomsAppend(x + front, last); }
        AllAtoms(x + front) + ChunkAtoms(last);
        { AtomsConcat(x, front); }
        (AllAtoms(x) + AllAtoms(front)) + ChunkAtoms(last);
        AllAtoms(x) + (AllAtoms(front) + ChunkAtoms(last));
        AllAtoms(x) + AllAtoms(y);
      }
    }
  }

  lemma OrderlyBefore(a: Assembly, e: Event)
    requires Feed(a, e).orderly
    ensures a.orderly
  {
  }

  lemma {:induction false} EncodeCarries(events: seq<Event>)
    requires Assemble(events).orderly && NamedTools(events)
    ensures Carries(EncodedAll(IDLE, events).0, ReadAll(AllAtoms(EncodedAll(IDLE, events).1)), Assemble(events))
  {
    if events != [] {
      var front, e := events[..|events| - 1], events[|events| - 1];
      assert events == front + [e];
      FeedConcat(EMPTY, front, [e]);
      assert FeedAll(Assemble(front), [e]) == Feed(Assemble(front), e);
      OrderlyBefore(Assemble(front), e);
      var (c, chunks) := EncodedAll(IDLE, front);
      EncodeCarries(front);
      AtomsConcat(chunks, Encoded(c, e).1);
      EncodeOne(AllAtoms(chunks), c, Assemble(front), e);
    }
  }

  /** The client of the encoded stream reads, in turn, the same content and the matching finish reason. */
  lemma StreamCarriesContent(events: seq<Event>)
    requires Assemble(events).orderly && NamedTools(events)
    ensures var r, a := ReadAll(AllAtoms(Stream(events))), Assemble(events);
      r.inTurn && r.parts == Norm(a.parts) && r.finish == CanonToFinish(a.stop)
  {
    var (c, chunks) := EncodedAll(IDLE, events);
    EncodeCarries(events);
    AtomsAppend(chunks, FinishChunk(c));
    ReadChunk(AllAtoms(chunks), FinishChunk(c)[0]);
    assert CanonToFinish("") == "stop";
    assert Read(ReadAll(AllAtoms(chunks)), Content("")) == ReadAll(AllAtoms(chunks));
  }

  predicate AllNamed(parts: seq<Part>) { forall p :: p in parts && p.Tool? ==> p.id != "" || p.name != "" }

  lemma AllNamedAppend(parts: seq<Part>, p: Part)
    ensures AllNamed(parts + [p]) <==> AllNamed(parts) && (p.Tool? ==> p.id != "" || p.name != "")
  {
    assert p in parts + [p];
    assert forall x :: x in parts ==> x in parts + [p];
  }

  lemma AllNamedKept(parts: seq<Part>, s: string)
    ensures AllNamed(AddText(parts, s)) <==> AllNamed(parts)
    ensures AllNamed(ExtendArgs(parts, s)) <==> AllNamed(parts)
  {
    if parts == [] {
      AllNamedAppend(parts, Text(s));
    } else {
      var front, p := parts[..|parts| - 1], parts[|parts| - 1];
      assert parts == front + [p];
      AllNamedAppend(front, p);
      match p {
        case Text(u) => AllNamedAppend(front, Text(u + s));
        case Tool(id, name, args) =>
          AllNamedAppend(front, Tool(id, name, args + s));
          AllNamedAppend(parts, Text(s));
        case Thinking(_) => AllNamedAppend(parts, Text(s));
      }
    }
  }

  lemma {:induction false} ReadingsAreNamed(atoms: seq<Atom>)
    ensures AllNamed(ReadAll(atoms).parts)
  {
    if atoms != [] {
      var r, atom := ReadAll(atoms[..|atoms| - 1]), atoms[|atoms| - 1];
      ReadingsAreNamed(atoms[..|atoms| - 1]);
      match atom {
        case Content(t) => AllNamedKept(r.parts, t);
        case CallDelta(c) =>
          AllNamedAppend(r.parts, Tool(c.id, c.name, c.args));
          AllNamedKept(r.parts, c.args);
        case Fin(_) =>
      }
    }
  }

  lemma {:induction false} NamedIffStartsAre(events: seq<Event>)
    requires Assemble(events).orderly
    ensures AllNamed(Norm(Assemble(events).parts)) <==> NamedTools(events)
  {
    if events != [] {
      var front, e := events[..|events| - 1], events[|events| - 1];
      var a := Assemble(front);
      assert events == front + [e];
      FeedConcat(EMPTY, front, [e]);
      assert FeedAll(a, [e]) == Feed(a, e);
      FeedKeepsFit(EMPTY, front);
      NamedIffStartsAre(front);
      FeedNorm(a, e);
      match e {
        case TextDelta(t) => AllNamedKept(Norm(a.parts), t);
        case ToolStart(id, name) => AllNamedAppend(Norm(a.parts), Tool(id, name, ""));
        case ArgsDelta(args) => AllNamedKept(Norm(a.parts), args);
        case _ =>
      }
    }
  }

  /** A tool call with neither id nor name cannot be written as OpenAI deltas; every other content survives. */
  lemma ContentSurvivesIff(events: seq<Event>)
    requires Assemble(events).orderly
    ensures ReadAll(AllAtoms(Stream(events))).parts == Norm(Assemble(events).parts) <==> NamedTools(events)
  {
    if NamedTools(events) {
      StreamCarriesContent(events);
    } else {
      ReadingsAreNamed(AllAtoms(Stream(events)));
      NamedIffStartsAre(events);
    }
  }

  /** The decoder undoes the encoder, up to the words for stop reasons. */
  lemma DecodeUndoesEncode(events: seq<Event>)
    requires Assemble(events).orderly && NamedTools(events)
    ensures var a, b := Assemble(events), Assemble(DecodedAll(UNSTARTED, AllAtoms(Stream(events))).1);
      b.orderly && Norm(b.parts) == Norm(a.parts) && b.stop == FinishToCanon(CanonToFinish(a.stop))
  {
    StreamCarriesContent(events);
    DecodeInTurn(AllAtoms(Stream(events)));
  }
}
