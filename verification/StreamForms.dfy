/**
  What the readings of streams mean: contents that differ only in how their text was cut, and
  chunks read choice by choice and part by part.
 */
module StreamForms {
  import opened Outcomes
  import opened Canonical
  import opened Numerals
  import O = OpenAIStream
  import G = GeminiStream

  // ---- Contents up to cuts ----

  /** No reasoning, no empty text, and no text cut in two. */
  predicate Whole(parts: seq<Part>) {
    && (forall i :: 0 <= i < |parts| ==> !parts[i].Thinking? && parts[i] != Text(""))
    && forall i :: 0 < i < |parts| ==> !(parts[i - 1].Text? && parts[i].Text?)
  }

  lemma {:induction false} NormIsWhole(parts: seq<Part>)
    ensures Whole(Norm(parts))
  {
    if parts != [] {
      NormIsWhole(parts[..|parts| - 1]);
    }
  }

  /** Contents without cuts are the same exactly when they are equal. */
  lemma {:induction false} WholeIsKept(parts: seq<Part>)
    requires Whole(parts)
    ensures Norm(parts) == parts
  {
    if parts != [] {
      var front, last := parts[..|parts| - 1], parts[|parts| - 1];
      WholeIsKept(front);
      assert parts == front + [last];
      if last.Text? && front != [] {
        assert !parts[|front| - 1].Text?;
      }
    }
  }

  lemma NormLast(x: seq<Part>, y: seq<Part>, p: Part)
    ensures Norm(x + (y + [p])) == AddPart(Norm(x + y), p)
  {
    Regroup(x, y, [p]);
    NormAppend(x + y, p);
  }

  lemma {:induction false} SameEnds(x: seq<Part>, x': seq<Part>, y: seq<Part>)
    requires Norm(x) == Norm(x')
    ensures Norm(x + y) == Norm(x' + y)
  {
    if y == [] {
      assert x + y == x && x' + y == x';
    } else {
      var front, last := y[..|y| - 1], y[|y| - 1];
      SameEnds(x, x', front);
      assert y == front + [last];
      NormLast(x, front, last);
      NormLast(x', front, last);
    }
  }

  lemma TwoTexts(x: seq<Part>, s: string, t: string)
    ensures Norm(x + [Text(s), Text(t)]) == Norm(x + [Text(s + t)])
  {
    assert [Text(s), Text(t)] == [Text(s)] + [Text(t)];
    NormLast(x, [Text(s)], Text(t));
    NormAppend(x, Text(s));
    NormAppend(x, Text(s + t));
    AddTextTwice(Norm(x), s, t);
  }

  /** Cutting a text anywhere says the same. */
  lemma CutsDoNotMatter(x: seq<Part>, s: string, t: string, y: seq<Part>)
    ensures Norm(x + [Text(s), Text(t)] + y) == Norm(x + [Text(s + t)] + y)
  {
    TwoTexts(x, s, t);
    SameEnds(x + [Text(s), Text(t)], x + [Text(s + t)], y);
  }

  /** And so does leaving out reasoning or an empty text. */
  lemma EmptyDoesNotMatter(x: seq<Part>, p: Part, y: seq<Part>)
    requires p.Thinking? || p == Text("")
    ensures Norm(x + [p] + y) == Norm(x + y)
  {
    NormAppend(x, p);
    SameEnds(x + [p], x, y);
  }

  // ---- OpenAI chunks ----

  /** The calls of one delta list, added to a message in order. */
  function WithCalls(m: O.Message, calls: seq<O.Call>): O.Message {
    if calls == [] then m else O.Collect(WithCalls(m, calls[..|calls| - 1]), O.CallDelta(calls[|calls| - 1]))
  }

  lemma CollectAppend(atoms: seq<O.Atom>, atom: O.Atom)
    ensures O.CollectAll(atoms + [atom]) == O.Collect(O.CollectAll(atoms), atom)
  {
    assert (atoms + [atom])[..|atoms|] == atoms;
  }

  lemma {:induction false} CallsAreCollected(atoms: seq<O.Atom>, calls: seq<O.Call>)
    ensures O.CollectAll(atoms + O.CallAtoms(calls)) == WithCalls(O.CollectAll(atoms), calls)
  {
    if calls == [] {
      assert atoms + O.CallAtoms(calls) == atoms;
    } else {
      var n := |calls| - 1;
      CallsAreCollected(atoms, calls[..n]);
      assert atoms + O.CallAtoms(calls) == (atoms + O.CallAtoms(calls[..n])) + [O.CallDelta(calls[n])];
      CollectAppend(atoms + O.CallAtoms(calls[..n]), O.CallDelta(calls[n]));
    }
  }

  /** One more chunk adds its text, its calls in order, and its finish reason if it has one. */
  lemma ChoiceIsRead(chunks: seq<O.Chunk>, text: string, calls: seq<O.Call>, reason: string)
    ensures var m, n := O.CollectAll(O.AllAtoms(chunks)), O.CollectAll(O.AllAtoms(chunks + [[O.Choice(text, calls, reason)]]));
      && n.content == m.content + text && n.calls == WithCalls(m.(content := m.content + text), calls).calls
      && n.finish == if reason == "" then m.finish else reason
  {
    var choice, atoms := O.Choice(text, calls, reason), O.AllAtoms(chunks);
    O.AtomsAppend(chunks, [choice]);
    assert O.ChunkAtoms([choice]) == O.ChoiceAtoms(choice) by {
      assert [choice][..0] == [] && O.ChunkAtoms([]) + O.ChoiceAtoms(choice) == O.ChoiceAtoms(choice);
    }
    assert atoms + O.ChoiceAtoms(choice) == ((atoms + [O.Content(text)]) + O.CallAtoms(calls)) + [O.Fin(reason)];
    CollectAppend(atoms, O.Content(text));
    CallsAreCollected(atoms + [O.Content(text)], calls);
    CollectAppend((atoms + [O.Content(text)]) + O.CallAtoms(calls), O.Fin(reason));
    CallsKeepRest(O.CollectAll(atoms + [O.Content(text)]), calls);
  }

  lemma {:induction false} CallsKeepRest(m: O.Message, calls: seq<O.Call>)
    ensures WithCalls(m, calls).content == m.content && WithCalls(m, calls).finish == m.finish
  {
    if calls != [] {
      CallsKeepRest(m, calls[..|calls| - 1]);
    }
  }

  /** A new index opens a call; a known one fills in what is missing and goes on with the arguments. */
  lemma CallIsRead(m: O.Message, c: O.Call)
    requires forall i :: 0 <= i < |m.calls| ==> m.calls[i].Tool?
    ensures var calls := WithCalls(m, [c]).calls;
      && (c.id == c.name == c.args == "" ==> calls == m.calls)
      && (c.index == |m.calls| && c.id + c.name + c.args != "" ==> calls == m.calls + [Tool(c.id, c.name, c.args)])
      && (0 <= c.index < |m.calls| && c.id == c.name == "" ==>
            |calls| == |m.calls| && calls[c.index] == m.calls[c.index].(args := m.calls[c.index].args + c.args)
            && forall i :: 0 <= i < |calls| && i != c.index ==> calls[i] == m.calls[i])
  {
    assert [c][..0] == [];
    assert WithCalls(m, [c]) == O.Collect(m, O.CallDelta(c));
    if 0 <= c.index < |m.calls| && c.args == "" {
      assert m.calls[c.index].args + c.args == m.calls[c.index].args;
    }
  }

  /** A chunk with several choices reads like several chunks. */
  lemma {:induction false} ChoicesInOrder(chunks: seq<O.Chunk>, a: O.Chunk, b: O.Chunk)
    ensures O.AllAtoms(chunks + [a + b]) == O.AllAtoms(chunks + [a, b])
  {
    O.AtomsAppend(chunks, a + b);
    O.AtomsAppend(chunks, a);
    O.AtomsAppend(chunks + [a], b);
    assert chunks + [a, b] == (chunks + [a]) + [b];
    JoinedChoices(a, b);
    Regroup(O.AllAtoms(chunks), O.ChunkAtoms(a), O.ChunkAtoms(b));
  }

  lemma {:induction false} JoinedChoices(a: O.Chunk, b: O.Chunk)
    ensures O.ChunkAtoms(a + b) == O.ChunkAtoms(a) + O.ChunkAtoms(b)
  {
    if b == [] {
      assert a + b == a;
    } else {
      var n := |b| - 1;
      JoinedChoices(a, b[..n]);
      assert (a + b)[..|a + b| - 1] == a + b[..n];
      Regroup(O.ChunkAtoms(a), O.ChunkAtoms(b[..n]), O.ChoiceAtoms(b[n]));
    }
  }

  // ---- Gemini candidates ----

  /** The parts of one candidate, added in order: text to text, a call as the next one of the stream. */
  function WithParts(r: G.Reading, parts: seq<G.ContentPart>): G.Reading {
    if parts == [] then r
    else
      var before, p := WithParts(r, parts[..|parts| - 1]), parts[|parts| - 1];
      var spoken := if p.text == "" then before.parts else Norm(before.parts + [Text(p.text)]);
      if p.call.None? then before.(parts := spoken)
      else before.(parts := spoken + [Tool("call_" + Decimal(before.calls + 1), p.call.value.name, p.call.value.args)], calls := before.calls + 1)
  }

  lemma {:induction false} ReadConcat(r: G.Reading, x: seq<G.Atom>, y: seq<G.Atom>)
    ensures G.ReadAll(r, x + y) == G.ReadAll(G.ReadAll(r, x), y)
    decreases |x|
  {
    if x == [] {
      assert x + y == y;
    } else {
      assert (x + y)[1..] == x[1..] + y;
      ReadConcat(G.Read(r, x[0]), x[1..], y);
    }
  }

  lemma ReadOne(r: G.Reading, x: G.Atom)
    ensures G.ReadAll(r, [x]) == G.Read(r, x)
  {
    assert [x][1..] == [];
  }

  lemma PartIsRead(r: G.Reading, p: G.ContentPart)
    requires Whole(r.parts)
    ensures G.Read(r, G.Piece(p)) == WithParts(r, [p]) && Whole(G.Read(r, G.Piece(p)).parts)
  {
    assert [p][..0] == [];
    WholeIsKept(r.parts);
    NormAppend(r.parts, Text(p.text));
    NormIsWhole(r.parts + [Text(p.text)]);
  }

  lemma {:induction false} PartsAreRead(r: G.Reading, parts: seq<G.ContentPart>)
    requires Whole(r.parts)
    ensures G.ReadAll(r, G.Pieces(parts)) == WithParts(r, parts) && Whole(WithParts(r, parts).parts)
  {
    if parts != [] {
      var n := |parts| - 1;
      PartsAreRead(r, parts[..n]);
      PartIsRead(WithParts(r, parts[..n]), parts[n]);
      assert G.Pieces(parts) == G.Pieces(parts[..n]) + [G.Piece(parts[n])];
      ReadConcat(r, G.Pieces(parts[..n]), [G.Piece(parts[n])]);
      ReadOne(WithParts(r, parts[..n]), G.Piece(parts[n]));
      OnePart(r, parts);
    }
  }

  lemma OnePart(r: G.Reading, parts: seq<G.ContentPart>)
    requires parts != []
    ensures WithParts(r, parts) == WithParts(WithParts(r, parts[..|parts| - 1]), [parts[|parts| - 1]])
  {
    assert [parts[|parts| - 1]][..0] == [];
  }

  lemma {:induction false} ReadingIsWhole(r: G.Reading, atoms: seq<G.Atom>)
    requires Whole(r.parts)
    ensures Whole(G.ReadAll(r, atoms).parts)
    decreases |atoms|
  {
    if atoms != [] {
      if atoms[0].Piece? {
        PartIsRead(r, atoms[0].part);
      }
      ReadingIsWhole(G.Read(r, atoms[0]), atoms[1..]);
    }
  }

  /** One more candidate adds its parts in order and its stop reason, if it has one, in canonical words. */
  lemma CandidateIsRead(chunks: seq<G.Chunk>, parts: seq<G.ContentPart>, reason: string)
    ensures var r, n := G.ReadAll(G.UNREAD, G.AllAtoms(chunks)), G.ReadAll(G.UNREAD, G.AllAtoms(chunks + [[G.Candidate(parts, reason)]]));
      && n.parts == WithParts(r, parts).parts && n.calls == WithParts(r, parts).calls
      && n.stop == if reason == "" then r.stop else if reason == "MAX_TOKENS" then "max_tokens" else "end_turn"
  {
    var candidate, atoms := G.Candidate(parts, reason), G.AllAtoms(chunks);
    var r := G.ReadAll(G.UNREAD, atoms);
    assert (chunks + [[candidate]])[..|chunks|] == chunks;
    assert G.ChunkAtoms([candidate]) == G.Pieces(parts) + [G.End(reason)] by {
      assert [candidate][..0] == [] && G.ChunkAtoms([]) + G.CandidateAtoms(candidate) == G.CandidateAtoms(candidate);
    }
    ReadingIsWhole(G.UNREAD, atoms);
    PartsAreRead(r, parts);
    ReadConcat(G.UNREAD, atoms, G.Pieces(parts) + [G.End(reason)]);
    ReadConcat(r, G.Pieces(parts), [G.End(reason)]);
    ReadOne(WithParts(r, parts), G.End(reason));
    PartsKeepStop(r, parts);
  }

  lemma {:induction false} PartsKeepStop(r: G.Reading, parts: seq<G.ContentPart>)
    ensures WithParts(r, parts).stop == r.stop
  {
    if parts != [] {
      PartsKeepStop(r, parts[..|parts| - 1]);
    }
  }
}
