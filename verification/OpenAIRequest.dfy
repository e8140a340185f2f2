/**
  The request codec of the OpenAI protocol: one canonical message may become several, and
  what was said, asked and answered is still all there, in order.
 */
module OpenAIRequest {
  import opened Outcomes
  import opened RequestModel

  datatype Piece = TextPiece(text: string) | ImagePiece(url: string) | OtherPiece

  datatype Content = Words(text: string) | Pieces(pieces: seq<Piece>) | NoContent

  datatype Call = Call(id: string, name: string, args: Json)

  datatype Wire = Wire(role: string, content: Content, toolCallId: string, calls: seq<Call>)

  // ---- Encoding ----

  predicate IsWords(p: Part) { !p.ToolResult? && !p.ToolUse? }

  function AnswerWire(p: Part): Wire
    requires p.ToolResult?
  {
    Wire("tool", Words(p.content), p.id, [])
  }

  function ToolWire(p: Part): seq<Wire> { if p.ToolResult? then [AnswerWire(p)] else [] }

  function ToolWires(parts: seq<Part>): seq<Wire> {
    if parts == [] then []
    else ToolWires(parts[..|parts| - 1]) + ToolWire(parts[|parts| - 1])
  }

  function CallOf(p: Part): seq<Call> { if p.ToolUse? then [Call(p.id, p.name, p.args)] else [] }

  function CallsOf(parts: seq<Part>): seq<Call> {
    if parts == [] then []
    else CallsOf(parts[..|parts| - 1]) + CallOf(parts[|parts| - 1])
  }

  predicate HasImage(parts: seq<Part>) { exists i :: 0 <= i < |parts| && parts[i].Image? }

  predicate HasWords(parts: seq<Part>) { exists i :: 0 <= i < |parts| && IsWords(parts[i]) }

  function PiecesOf(parts: seq<Part>): seq<Piece> {
    if parts == [] then []
    else
      var front, p := PiecesOf(parts[..|parts| - 1]), parts[|parts| - 1];
      match p
      case Text(t) => front + [TextPiece(t)]
      case Image(url, _) => front + [ImagePiece(url)]
      case _ => front
  }

  /** What a part adds to a message that is sent as one string; reasoning text is not told apart there. */
  function WordsOf(p: Part): string {
    match p
    case Text(t) => t
    case Thinking(t) => t
    case _ => ""
  }

  function WordsIn(parts: seq<Part>): string {
    if parts == [] then "" else WordsIn(parts[..|parts| - 1]) + WordsOf(parts[|parts| - 1])
  }

  function TextOf(p: Part): string { if p.Text? then p.text else "" }

  /** All text of the parts proper, in order. */
  function TextIn(parts: seq<Part>): string {
    if parts == [] then ""
    else TextIn(parts[..|parts| - 1]) + TextOf(parts[|parts| - 1])
  }

  /** The text a message is sent with: beside an image, reasoning is left out. */
  function SentText(parts: seq<Part>): string { if HasImage(parts) then TextIn(parts) else WordsIn(parts) }

  function ChatWire(m: Message): Wire {
    Wire(m.role, if HasImage(m.parts) then Pieces(PiecesOf(m.parts)) else Words(WordsIn(m.parts)), "", CallsOf(m.parts))
  }

  function WiresOf(m: Message): seq<Wire> {
    if HasWords(m.parts) || CallsOf(m.parts) != [] then ToolWires(m.parts) + [ChatWire(m)] else ToolWires(m.parts)
  }

  function AllWires(ms: seq<Message>): seq<Wire> {
    if ms == [] then [] else AllWires(ms[..|ms| - 1]) + WiresOf(ms[|ms| - 1])
  }

  function SystemWires(system: string): seq<Wire> { if system == "" then [] else [Wire("system", Words(system), "", [])] }

  function Encoded(system: string, ms: seq<Message>): seq<Wire> {
    SystemWires(system) + AllWires(ms)
  }

  /** The parts sorted into answers, calls and words. */
  datatype Sorted = Sorted(answers: seq<Wire>, calls: seq<Call>, pieces: seq<Piece>, words: string, image: bool, anyWords: bool)

  predicate IsSorted(s: Sorted, parts: seq<Part>) {
    && s.answers == ToolWires(parts) && s.calls == CallsOf(parts) && s.pieces == PiecesOf(parts) && s.words == WordsIn(parts)
    && s.image == HasImage(parts) && s.anyWords == HasWords(parts)
  }

  lemma LastPart(parts: seq<Part>, p: Part)
    ensures HasImage(parts + [p]) <==> HasImage(parts) || p.Image?
    ensures HasWords(parts + [p]) <==> HasWords(parts) || IsWords(p)
  {
    var all := parts + [p];
    assert all[|parts|] == p && forall i :: 0 <= i < |parts| ==> all[i] == parts[i];
  }

  method SortPart(s: Sorted, ghost parts: seq<Part>, p: Part) returns (s': Sorted)
    requires IsSorted(s, parts)
    ensures IsSorted(s', parts + [p])
  {
    assert (parts + [p])[..|parts|] == parts;
    LastPart(parts, p);
    match p
    case ToolResult(id, content, _) =>
      assert s.words + "" == s.words;
      s' := s.(answers := s.answers + [Wire("tool", Words(content), id, [])]);
    case ToolUse(id, name, args) =>
      assert s.words + "" == s.words;
      s' := s.(calls := s.calls + [Call(id, name, args)]);
    case Text(t) => s' := s.(pieces := s.pieces + [TextPiece(t)], words := s.words + t, anyWords := true);
    case Image(url, _) =>
      assert s.words + "" == s.words;
      s' := s.(pieces := s.pieces + [ImagePiece(url)], image := true, anyWords := true);
    case Thinking(t) => s' := s.(words := s.words + t, anyWords := true);
  }

  method EncodeMessage(m: Message) returns (wires: seq<Wire>)
    ensures wires == WiresOf(m)
  {
    var s := Sorted([], [], [], "", false, false);
    for k := 0 to |m.parts|
      invariant IsSorted(s, m.parts[..k])
    {
      assert m.parts[..k + 1] == m.parts[..k] + [m.parts[k]];
      s := SortPart(s, m.parts[..k], m.parts[k]);
    }
    assert m.parts[..|m.parts|] == m.parts;
    wires := s.answers;
    if s.anyWords || |s.calls| > 0 {
      wires := wires + [Wire(m.role, if s.image then Pieces(s.pieces) else Words(s.words), "", s.calls)];
    }
  }

  lemma AllWiresAppend(ms: seq<Message>, m: Message)
    ensures AllWires(ms + [m]) == AllWires(ms) + WiresOf(m)
  {
    assert (ms + [m])[..|ms|] == ms;
  }

  lemma EncodedNext(system: string, ms: seq<Message>, n: nat)
    requires n < |ms|
    ensures Encoded(system, ms[..n + 1]) == Encoded(system, ms[..n]) + WiresOf(ms[n])
  {
    assert ms[..n + 1] == ms[..n] + [ms[n]];
    AllWiresAppend(ms[..n], ms[n]);
    Regroup(SystemWires(system), AllWires(ms[..n]), WiresOf(ms[n]));
  }

  method EncodeMessages(system: string, ms: seq<Message>) returns (wires: seq<Wire>)
    ensures wires == Encoded(system, ms)
  {
    wires := [];
    if system != "" {
      wires := wires + [Wire("system", Words(system), "", [])];
    }
    assert wires == Encoded(system, ms[..0]);
    for n := 0 to |ms|
      invariant wires == Encoded(system, ms[..n])
    {
      EncodedNext(system, ms, n);
      var more := EncodeMessage(ms[n]);
      wires := wires + more;
    }
    assert ms[..|ms|] == ms;
  }

  // ---- Decoding ----

  predicate IsSystem(w: Wire) { w.role == "system" || w.role == "developer" }

  function SystemIn(ws: seq<Wire>): string {
    if ws == [] then ""
    else
      var front, w := SystemIn(ws[..|ws| - 1]), ws[|ws| - 1];
      if !IsSystem(w) || !w.content.Words? then front
      else if front == "" then w.content.text else front + "\n" + w.content.text
  }

  function PiecePart(p: Piece): seq<Part> {
    match p
    case TextPiece(t) => [Text(t)]
    case ImagePiece(url) => [Image(url, "")]
    case OtherPiece => []
  }

  function PieceParts(ps: seq<Piece>): seq<Part> {
    if ps == [] then [] else PieceParts(ps[..|ps| - 1]) + PiecePart(ps[|ps| - 1])
  }

  function CallParts(calls: seq<Call>): seq<Part> {
    if calls == [] then []
    else CallParts(calls[..|calls| - 1]) + [ToolUse(calls[|calls| - 1].id, calls[|calls| - 1].name, calls[|calls| - 1].args)]
  }

  function ContentParts(c: Content): seq<Part> {
    match c
    case Words(t) => if t == "" then [] else [Text(t)]
    case Pieces(ps) => PieceParts(ps)
    case NoContent => []
  }

  function MessageOf(w: Wire): Message {
    if w.role == "tool" then Message("tool", [ToolResult(w.toolCallId, if w.content.Words? then w.content.text else "", false)])
    else Message(w.role, ContentParts(w.content) + CallParts(w.calls))
  }

  function MessagesOf(ws: seq<Wire>): seq<Message> {
    if ws == [] then []
    else if IsSystem(ws[|ws| - 1]) then MessagesOf(ws[..|ws| - 1])
    else MessagesOf(ws[..|ws| - 1]) + [MessageOf(ws[|ws| - 1])]
  }

  method DecodeMessages(ws: seq<Wire>) returns (system: string, ms: seq<Message>)
    ensures system == SystemIn(ws) && ms == MessagesOf(ws)
  {
    system, ms := "", [];
    for n := 0 to |ws|
      invariant system == SystemIn(ws[..n]) && ms == MessagesOf(ws[..n])
    {
      assert ws[..n + 1][..n] == ws[..n];
      var w := ws[n];
      if w.role == "system" || w.role == "developer" {
        if w.content.Words? {
          if system != "" {
            system := system + "\n" + w.content.text;
          } else {
            system := w.content.text;
          }
        }
        continue;
      }
      if w.role == "tool" {
        var answer := if w.content.Words? then w.content.text else "";
        ms := ms + [Message(w.role, [ToolResult(w.toolCallId, answer, false)])];
        continue;
      }
      var parts := DecodeParts(w);
      ms := ms + [Message(w.role, parts)];
    }
    assert ws[..|ws|] == ws;
  }

  method DecodeParts(w: Wire) returns (parts: seq<Part>)
    ensures parts == ContentParts(w.content) + CallParts(w.calls)
  {
    parts := [];
    match w.content {
      case Words(t) => if t != "" { parts := [Text(t)]; }
      case NoContent =>
      case Pieces(ps) =>
        for k := 0 to |ps|
          invariant parts == PieceParts(ps[..k])
        {
          assert ps[..k + 1][..k] == ps[..k];
          match ps[k] {
            case TextPiece(t) => parts := parts + [Text(t)];
            case ImagePiece(url) => parts := parts + [Image(url, "")];
            case OtherPiece =>
          }
        }
        assert ps[..|ps|] == ps;
    }
    ghost var content := parts;
    for k := 0 to |w.calls|
      invariant parts == content + CallParts(w.calls[..k])
    {
      assert w.calls[..k + 1][..k] == w.calls[..k];
      parts := parts + [ToolUse(w.calls[k].id, w.calls[k].name, w.calls[k].args)];
    }
    assert w.calls[..|w.calls|] == w.calls;
  }

  // ---- What a conversation contains ----

  datatype Item = Answer(id: string, content: string) | Asked(id: string, name: string, args: Json) | Shown(url: string) | Said(role: string, text: string)

  /** The kinds of items, each kept in its own order. */
  datatype Kind = Answers | Calls | Images

  function ItemOf(p: Part, kind: Kind): seq<Item> {
    match p
    case ToolResult(id, content, _) => if kind.Answers? then [Answer(id, content)] else []
    case ToolUse(id, name, args) => if kind.Calls? then [Asked(id, name, args)] else []
    case Image(url, _) => if kind.Images? then [Shown(url)] else []
    case _ => []
  }

  function ItemsIn(parts: seq<Part>, kind: Kind): seq<Item> {
    if parts == [] then [] else ItemsIn(parts[..|parts| - 1], kind) + ItemOf(parts[|parts| - 1], kind)
  }

  function Items(ms: seq<Message>, kind: Kind): seq<Item> {
    if ms == [] then [] else Items(ms[..|ms| - 1], kind) + ItemsIn(ms[|ms| - 1].parts, kind)
  }

  function Saying(role: string, text: string): seq<Item> { if text == "" then [] else [Said(role, text)] }

  /** Who said what, message by message, leaving out messages without text. */
  function Speech(ms: seq<Message>): seq<Item> {
    if ms == [] then []
    else Speech(ms[..|ms| - 1]) + Saying(ms[|ms| - 1].role, TextIn(ms[|ms| - 1].parts))
  }

  lemma ItemsInAppend(parts: seq<Part>, p: Part, kind: Kind)
    ensures ItemsIn(parts + [p], kind) == ItemsIn(parts, kind) + ItemOf(p, kind)
  {
    assert (parts + [p])[..|parts|] == parts;
  }

  /** Who said what as it is sent: reasoning counts as said where it is sent along. */
  function SentSpeech(ms: seq<Message>): seq<Item> {
    if ms == [] then []
    else SentSpeech(ms[..|ms| - 1]) + Saying(ms[|ms| - 1].role, SentText(ms[|ms| - 1].parts))
  }

  predicate NoReasoning(parts: seq<Part>) { forall i :: 0 <= i < |parts| ==> !parts[i].Thinking? }

  lemma {:induction false} WordsWithoutReasoning(parts: seq<Part>)
    requires NoReasoning(parts)
    ensures WordsIn(parts) == TextIn(parts)
  {
    if parts != [] {
      var front := parts[..|parts| - 1];
      assert forall i :: 0 <= i < |front| ==> front[i] == parts[i];
      WordsWithoutReasoning(front);
    }
  }

  /** Without reasoning parts, what is sent is what was said. */
  lemma {:induction false} SentIsSaid(ms: seq<Message>)
    requires forall i :: 0 <= i < |ms| ==> NoReasoning(ms[i].parts)
    ensures SentSpeech(ms) == Speech(ms)
  {
    if ms != [] {
      var front := ms[..|ms| - 1];
      assert forall i :: 0 <= i < |front| ==> front[i] == ms[i];
      SentIsSaid(front);
      WordsWithoutReasoning(ms[|ms| - 1].parts);
    }
  }

  lemma {:induction false} ItemsInConcat(x: seq<Part>, y: seq<Part>, kind: Kind)
    ensures ItemsIn(x + y, kind) == ItemsIn(x, kind) + ItemsIn(y, kind)
  {
    if y == [] {
      assert x + y == x;
    } else {
      var front, p := y[..|y| - 1], y[|y| - 1];
      calc {
        ItemsIn(x + y, kind);
        { assert front + [p] == y; Regroup(x, front, [p]); }
        ItemsIn((x + front) + [p], kind);
        { ItemsInAppend(x + front, p, kind); }
        ItemsIn(x + front, kind) + ItemOf(p, kind);
        { ItemsInConcat(x, front, kind); }
        (ItemsIn(x, kind) + ItemsIn(front, kind)) + ItemOf(p, kind);
        { Regroup(ItemsIn(x, kind), ItemsIn(front, kind), ItemOf(p, kind)); }
        ItemsIn(x, kind) + (ItemsIn(front, kind) + ItemOf(p, kind));
      }
    }
  }

  lemma TextInAppend(parts: seq<Part>, p: Part)
    ensures TextIn(parts + [p]) == TextIn(parts) + TextOf(p)
  {
    assert (parts + [p])[..|parts|] == parts;
  }

  lemma {:induction false} TextInConcat(x: seq<Part>, y: seq<Part>)
    ensures TextIn(x + y) == TextIn(x) + TextIn(y)
  {
    if y == [] {
      assert x + y == x;
    } else {
      var front, p := y[..|y| - 1], y[|y| - 1];
      calc {
        TextIn(x + y);
        { assert front + [p] == y; Regroup(x, front, [p]); }
        TextIn((x + front) + [p]);
        { TextInAppend(x + front, p); }
        TextIn(x + front) + TextOf(p);
        { TextInConcat(x, front); }
        (TextIn(x) + TextIn(front)) + TextOf(p);
        { Regroup(TextIn(x), TextIn(front), TextOf(p)); }
        TextIn(x) + (TextIn(front) + TextOf(p));
      }
    }
  }

  lemma ItemsAppend(ms: seq<Message>, m: Message, kind: Kind)
    ensures Items(ms + [m], kind) == Items(ms, kind) + ItemsIn(m.parts, kind)
  {
    assert (ms + [m])[..|ms|] == ms;
  }

  lemma {:induction false} ItemsConcat(x: seq<Message>, y: seq<Message>, kind: Kind)
    ensures Items(x + y, kind) == Items(x, kind) + Items(y, kind)
  {
    if y == [] {
      assert x + y == x;
    } else {
      var front, m := y[..|y| - 1], y[|y| - 1];
      assert front + [m] == y;
      calc {
        Items(x + y, kind);
        { Regroup(x, front, [m]); }
        Items((x + front) + [m], kind);
        { ItemsAppend(x + front, m, kind); }
        Items(x + front, kind) + ItemsIn(m.parts, kind);
        { ItemsConcat(x, front, kind); }
        (Items(x, kind) + Items(front, kind)) + ItemsIn(m.parts, kind);
        { Regroup(Items(x, kind), Items(front, kind), ItemsIn(m.parts, kind)); }
        Items(x, kind) + (Items(front, kind) + ItemsIn(m.parts, kind));
        { ItemsAppend(front, m, kind); }
        Items(x, kind) + Items(front + [m], kind);
      }
    }
  }

  lemma SpeechAppend(ms: seq<Message>, m: Message)
    ensures Speech(ms + [m]) == Speech(ms) + Saying(m.role, TextIn(m.parts))
  {
    assert (ms + [m])[..|ms|] == ms;
  }

  lemma {:induction false} SpeechConcat(x: seq<Message>, y: seq<Message>)
    ensures Speech(x + y) == Speech(x) + Speech(y)
  {
    if y == [] {
      assert x + y == x;
    } else {
      var front, m := y[..|y| - 1], y[|y| - 1];
      var said := Saying(m.role, TextIn(m.parts));
      calc {
        Speech(x + y);
        { assert front + [m] == y; Regroup(x, front, [m]); }
        Speech((x + front) + [m]);
        { SpeechAppend(x + front, m); }
        Speech(x + front) + said;
        { SpeechConcat(x, front); }
        (Speech(x) + Speech(front)) + said;
        { Regroup(Speech(x), Speech(front), said); }
        Speech(x) + (Speech(front) + said);
      }
    }
  }

  lemma {:induction false} MessagesConcat(x: seq<Wire>, y: seq<Wire>)
    ensures MessagesOf(x + y) == MessagesOf(x) + MessagesOf(y)
  {
    if y == [] {
      assert x + y == x;
    } else {
      MessagesConcat(x, y[..|y| - 1]);
      assert (x + y)[..|x + y| - 1] == x + y[..|y| - 1];
    }
  }

  lemma OneMessage(m: Message, kind: Kind)
    ensures Items([m], kind) == ItemsIn(m.parts, kind)
    ensures Speech([m]) == Saying(m.role, TextIn(m.parts))
  {
    assert [m][..0] == [];
    assert Items([m], kind) == Items([], kind) + ItemsIn(m.parts, kind);
  }

  lemma OnePart(p: Part, kind: Kind)
    ensures ItemsIn([p], kind) == ItemOf(p, kind)
    ensures TextIn([p]) == TextOf(p)
  {
    assert [p][..0] == [];
    assert ItemsIn([p], kind) == ItemsIn([], kind) + ItemOf(p, kind);
    assert "" + TextIn([p]) == TextIn([p]);
  }

  lemma MessagesAppend(ws: seq<Wire>, w: Wire)
    requires !IsSystem(w)
    ensures MessagesOf(ws + [w]) == MessagesOf(ws) + [MessageOf(w)]
  {
    assert (ws + [w])[..|ws|] == ws;
  }

  lemma AnswerMessage(p: Part, kind: Kind)
    requires p.ToolResult?
    ensures var parts := MessageOf(Wire("tool", Words(p.content), p.id, [])).parts;
      ItemsIn(parts, kind) == ItemOf(p, kind) && TextIn(parts) == ""
  {
    OnePart(ToolResult(p.id, p.content, false), kind);
  }

  /** The items of the messages that the wires are read as. */
  function WireItems(ws: seq<Wire>, kind: Kind): seq<Item> {
    if ws == [] then []
    else if IsSystem(ws[|ws| - 1]) then WireItems(ws[..|ws| - 1], kind)
    else WireItems(ws[..|ws| - 1], kind) + ItemsIn(MessageOf(ws[|ws| - 1]).parts, kind)
  }

  lemma {:induction false} WireItemsAreItems(ws: seq<Wire>, kind: Kind)
    ensures WireItems(ws, kind) == Items(MessagesOf(ws), kind)
  {
    if ws != [] {
      var front, w := ws[..|ws| - 1], ws[|ws| - 1];
      WireItemsAreItems(front, kind);
      if !IsSystem(w) {
        ItemsAppend(MessagesOf(front), MessageOf(w), kind);
      }
    }
  }

  lemma AnswerTrip(ws: seq<Wire>, p: Part, kind: Kind)
    ensures WireItems(ws + ToolWire(p), kind) == if kind.Answers? then WireItems(ws, kind) + ItemOf(p, kind) else WireItems(ws, kind)
  {
    if p.ToolResult? {
      assert (ws + [AnswerWire(p)])[..|ws|] == ws;
      AnswerMessage(p, kind);
    } else {
      assert ws + [] == ws;
    }
  }

  /** The answers of a message come back from its tool messages, and nothing else does. */
  lemma {:induction false} AnswersTrip(parts: seq<Part>, kind: Kind)
    ensures WireItems(ToolWires(parts), kind) == if kind.Answers? then ItemsIn(parts, kind) else []
  {
    if parts != [] {
      var front, p := parts[..|parts| - 1], parts[|parts| - 1];
      AnswersTrip(front, kind);
      AnswerTrip(ToolWires(front), p, kind);
    }
  }

  lemma ToolWiresTrip(parts: seq<Part>, kind: Kind)
    ensures Items(MessagesOf(ToolWires(parts)), kind) == if kind.Answers? then ItemsIn(parts, kind) else []
  {
    AnswersTrip(parts, kind);
    WireItemsAreItems(ToolWires(parts), kind);
  }

  lemma AnswerSaysNothing(ws: seq<Wire>, p: Part)
    ensures Speech(MessagesOf(ws + ToolWire(p))) == Speech(MessagesOf(ws))
  {
    if p.ToolResult? {
      MessagesAppend(ws, AnswerWire(p));
      SpeechAppend(MessagesOf(ws), MessageOf(AnswerWire(p)));
      AnswerMessage(p, Answers);
    } else {
      assert ws + [] == ws;
    }
  }

  lemma {:induction false} ToolWiresSayNothing(parts: seq<Part>)
    ensures Speech(MessagesOf(ToolWires(parts))) == []
  {
    if parts != [] {
      var front := parts[..|parts| - 1];
      ToolWiresSayNothing(front);
      AnswerSaysNothing(ToolWires(front), parts[|parts| - 1]);
    }
  }

  lemma PiecePartsAppend(ps: seq<Piece>, p: Piece)
    ensures PieceParts(ps + [p]) == PieceParts(ps) + PiecePart(p)
  {
    assert (ps + [p])[..|ps|] == ps;
  }

  lemma {:induction false} PiecesTrip(parts: seq<Part>, kind: Kind)
    ensures ItemsIn(PieceParts(PiecesOf(parts)), kind) == if kind.Images? then ItemsIn(parts, kind) else []
  {
    if parts != [] {
      var front, p := parts[..|parts| - 1], parts[|parts| - 1];
      PiecesTrip(front, kind);
      if p.Text? {
        PiecePartsAppend(PiecesOf(front), TextPiece(p.text));
        ItemsInAppend(PieceParts(PiecesOf(front)), Text(p.text), kind);
      } else if p.Image? {
        PiecePartsAppend(PiecesOf(front), ImagePiece(p.url));
        ItemsInAppend(PieceParts(PiecesOf(front)), Image(p.url, ""), kind);
      }
    }
  }

  lemma {:induction false} PiecesKeepText(parts: seq<Part>)
    ensures TextIn(PieceParts(PiecesOf(parts))) == TextIn(parts)
  {
    if parts != [] {
      var front, p := parts[..|parts| - 1], parts[|parts| - 1];
      PiecesKeepText(front);
      if p.Text? {
        PiecePartsAppend(PiecesOf(front), TextPiece(p.text));
        TextInAppend(PieceParts(PiecesOf(front)), Text(p.text));
      } else if p.Image? {
        PiecePartsAppend(PiecesOf(front), ImagePiece(p.url));
        TextInAppend(PieceParts(PiecesOf(front)), Image(p.url, ""));
        assert TextIn(front) + "" == TextIn(front);
      } else {
        assert TextIn(front) + "" == TextIn(front);
      }
    }
  }

  lemma CallTrip(calls: seq<Call>, p: Part, kind: Kind)
    ensures ItemsIn(CallParts(calls + CallOf(p)), kind) ==
            if kind.Calls? then ItemsIn(CallParts(calls), kind) + ItemOf(p, kind) else ItemsIn(CallParts(calls), kind)
  {
    if p.ToolUse? {
      assert (calls + CallOf(p))[..|calls|] == calls;
      ItemsInAppend(CallParts(calls), p, kind);
    } else {
      assert calls + [] == calls;
    }
  }

  lemma {:induction false} CallsTrip(parts: seq<Part>, kind: Kind)
    ensures ItemsIn(CallParts(CallsOf(parts)), kind) == if kind.Calls? then ItemsIn(parts, kind) else []
  {
    if parts != [] {
      var front, p := parts[..|parts| - 1], parts[|parts| - 1];
      CallsTrip(front, kind);
      CallTrip(CallsOf(front), p, kind);
    }
  }

  lemma {:induction false} CallsSayNothing(calls: seq<Call>)
    ensures TextIn(CallParts(calls)) == ""
  {
    if calls != [] {
      CallsSayNothing(calls[..|calls| - 1]);
      assert CallParts(calls)[..|calls| - 1] == CallParts(calls[..|calls| - 1]) by { CallPartsSize(calls[..|calls| - 1]); }
      CallPartsSize(calls);
    }
  }

  lemma {:induction false} CallPartsSize(calls: seq<Call>)
    ensures |CallParts(calls)| == |calls|
  {
    if calls != [] {
      CallPartsSize(calls[..|calls| - 1]);
    }
  }

  lemma {:induction false} NoImageItems(parts: seq<Part>)
    requires !HasImage(parts)
    ensures ItemsIn(parts, Images) == []
  {
    if parts != [] {
      var front := parts[..|parts| - 1];
      assert forall i :: 0 <= i < |front| ==> front[i] == parts[i];
      NoImageItems(front);
    }
  }

  function ChatContent(parts: seq<Part>): seq<Part> { ContentParts(ChatWire(Message("", parts)).content) }

  lemma ContentTrip(parts: seq<Part>, kind: Kind)
    ensures ItemsIn(ChatContent(parts), kind) == if kind.Images? then ItemsIn(parts, kind) else []
    ensures TextIn(ChatContent(parts)) == SentText(parts)
  {
    if HasImage(parts) {
      PiecesTrip(parts, kind);
      PiecesKeepText(parts);
    } else {
      NoImageItems(parts);
      if WordsIn(parts) != "" {
        OnePart(Text(WordsIn(parts)), kind);
      }
    }
  }

  lemma ChatParts(m: Message)
    requires m.role != "tool"
    ensures MessageOf(ChatWire(m)).parts == ChatContent(m.parts) + CallParts(CallsOf(m.parts))
  {
  }

  /** The chat message of a message carries its calls, images and text. */
  lemma ChatWireTrip(m: Message, kind: Kind)
    requires m.role != "tool"
    ensures ItemsIn(MessageOf(ChatWire(m)).parts, kind) == if kind.Answers? then [] else ItemsIn(m.parts, kind)
    ensures TextIn(MessageOf(ChatWire(m)).parts) == SentText(m.parts)
  {
    var content, calls := ChatContent(m.parts), CallParts(CallsOf(m.parts));
    ChatParts(m);
    ContentTrip(m.parts, kind);
    assert ItemsIn(content + calls, kind) == if kind.Answers? then [] else ItemsIn(m.parts, kind) by {
      ItemsInConcat(content, calls, kind);
      CallsTrip(m.parts, kind);
    }
    assert TextIn(content + calls) == SentText(m.parts) by {
      TextInConcat(content, calls);
      CallsSayNothing(CallsOf(m.parts));
      assert SentText(m.parts) + "" == SentText(m.parts);
    }
  }

  lemma {:induction false} NothingWithout(parts: seq<Part>)
    requires !HasWords(parts) && CallsOf(parts) == []
    ensures TextIn(parts) == WordsIn(parts) == "" && ItemsIn(parts, Calls) == [] && ItemsIn(parts, Images) == []
  {
    if parts != [] {
      var front := parts[..|parts| - 1];
      assert forall i :: 0 <= i < |front| ==> front[i] == parts[i];
      assert !IsWords(parts[|parts| - 1]);
      NothingWithout(front);
    }
  }

  /** Only messages of the tool role hold nothing but answers; system text is kept apart. */
  predicate Ordinary(m: Message) {
    && m.role != "system" && m.role != "developer"
    && (m.role == "tool" ==> !HasWords(m.parts) && CallsOf(m.parts) == [])
  }

  lemma MessageTrip(m: Message, kind: Kind)
    requires Ordinary(m)
    ensures Items(MessagesOf(WiresOf(m)), kind) == ItemsIn(m.parts, kind)
    ensures Speech(MessagesOf(WiresOf(m))) == Saying(m.role, SentText(m.parts))
  {
    ToolWiresTrip(m.parts, kind);
    ToolWiresSayNothing(m.parts);
    if HasWords(m.parts) || CallsOf(m.parts) != [] {
      var chat := MessageOf(ChatWire(m));
      assert MessagesOf([ChatWire(m)]) == [chat] by {
        assert [ChatWire(m)][..0] == [];
        assert MessagesOf([]) + [chat] == [chat];
      }
      MessagesConcat(ToolWires(m.parts), [ChatWire(m)]);
      ItemsConcat(MessagesOf(ToolWires(m.parts)), [chat], kind);
      SpeechConcat(MessagesOf(ToolWires(m.parts)), [chat]);
      OneMessage(chat, kind);
      ChatWireTrip(m, kind);
    } else {
      NothingWithout(m.parts);
    }
  }

  lemma {:induction false} MessagesTrip(ms: seq<Message>, kind: Kind)
    requires forall i :: 0 <= i < |ms| ==> Ordinary(ms[i])
    ensures Items(MessagesOf(AllWires(ms)), kind) == Items(ms, kind)
    ensures Speech(MessagesOf(AllWires(ms))) == SentSpeech(ms)
  {
    if ms != [] {
      var front, m := ms[..|ms| - 1], ms[|ms| - 1];
      assert forall i :: 0 <= i < |front| ==> front[i] == ms[i];
      MessagesTrip(front, kind);
      MessageTrip(m, kind);
      MessagesConcat(AllWires(front), WiresOf(m));
      ItemsConcat(MessagesOf(AllWires(front)), MessagesOf(WiresOf(m)), kind);
      SpeechConcat(MessagesOf(AllWires(front)), MessagesOf(WiresOf(m)));
    }
  }

  lemma {:induction false} NoSystemIn(ws: seq<Wire>)
    requires forall i :: 0 <= i < |ws| ==> !IsSystem(ws[i])
    ensures SystemIn(ws) == ""
  {
    if ws != [] {
      NoSystemIn(ws[..|ws| - 1]);
    }
  }

  lemma {:induction false} SystemFirst(w: Wire, ws: seq<Wire>)
    requires IsSystem(w) && w.content.Words? && forall i :: 0 <= i < |ws| ==> !IsSystem(ws[i])
    ensures SystemIn([w] + ws) == w.content.text && MessagesOf([w] + ws) == MessagesOf(ws)
  {
    if ws == [] {
      assert [w] + ws == [w] && [w][..0] == [];
    } else {
      SystemFirst(w, ws[..|ws| - 1]);
      assert ([w] + ws)[..|ws|] == [w] + ws[..|ws| - 1];
    }
  }

  lemma {:induction false} ToolWiresRole(parts: seq<Part>)
    ensures forall i :: 0 <= i < |ToolWires(parts)| ==> ToolWires(parts)[i].role == "tool"
  {
    if parts != [] {
      ToolWiresRole(parts[..|parts| - 1]);
    }
  }

  lemma {:induction false} NoSystemWires(ms: seq<Message>)
    requires forall i :: 0 <= i < |ms| ==> Ordinary(ms[i])
    ensures forall i :: 0 <= i < |AllWires(ms)| ==> !IsSystem(AllWires(ms)[i])
  {
    if ms != [] {
      NoSystemWires(ms[..|ms| - 1]);
      ToolWiresRole(ms[|ms| - 1].parts);
    }
  }

  /**
    Encoding for OpenAI and decoding again keeps the system text, every answer and call with
    its id, every image, and who said what, all in order, though messages are split.
   */
  lemma ConversationSurvives(system: string, ms: seq<Message>, kind: Kind)
    requires forall i :: 0 <= i < |ms| ==> Ordinary(ms[i])
    ensures SystemIn(Encoded(system, ms)) == system
    ensures Items(MessagesOf(Encoded(system, ms)), kind) == Items(ms, kind)
    ensures Speech(MessagesOf(Encoded(system, ms))) == SentSpeech(ms)
    ensures (forall i :: 0 <= i < |ms| ==> NoReasoning(ms[i].parts)) ==> Speech(MessagesOf(Encoded(system, ms))) == Speech(ms)
  {
    MessagesTrip(ms, kind);
    NoSystemWires(ms);
    if forall i :: 0 <= i < |ms| ==> NoReasoning(ms[i].parts) {
      SentIsSaid(ms);
    }
    if system == "" {
      assert Encoded(system, ms) == AllWires(ms);
      NoSystemIn(AllWires(ms));
    } else {
      SystemFirst(Wire("system", Words(system), "", []), AllWires(ms));
    }
  }

  // ---- Reasoning effort ----

  function BudgetToEffort(budget: int): string { if budget < 8000 then "low" else if budget < 24000 then "medium" else "high" }

  function EffortToBudget(effort: string): int { if effort == "low" then 4000 else if effort == "high" then 32000 else 16000 }

  /** The trip through budgets keeps exactly the three known efforts; a budget comes back only if it is one of three. */
  lemma EffortSurvivesIff(effort: string, budget: int)
    ensures BudgetToEffort(EffortToBudget(effort)) == effort <==> effort in {"low", "medium", "high"}
    ensures EffortToBudget(BudgetToEffort(budget)) == budget <==> budget in {4000, 16000, 32000}
    ensures BudgetToEffort(EffortToBudget(BudgetToEffort(budget))) == BudgetToEffort(budget)
  {
    assert |"low"| == 3 && |"high"| == 4 && |"medium"| == 6;
  }
}
