/** The OpenAI request and its wording, field by field: what each message, piece, call and word is read and written as. */
module OpenAIForms {
  import opened Outcomes
  import opened RequestModel
  import opened OpenAIRequest
  import A = AnthropicForms
  import AR = AnthropicRequest
  import Canonical

  // ---- Reading ----

  /** The messages of the conversation: all but those of the system or the developer. */
  function Chat(ws: seq<Wire>): seq<Wire> {
    if ws == [] then []
    else if ws[|ws| - 1].role == "system" || ws[|ws| - 1].role == "developer" then Chat(ws[..|ws| - 1])
    else Chat(ws[..|ws| - 1]) + [ws[|ws| - 1]]
  }

  /** A tool's message answers a call with its string; any other message has its content and then its calls. */
  predicate ReadAs(w: Wire, m: Message) {
    && m.role == w.role
    && m.parts ==
         if w.role == "tool" then [ToolResult(w.toolCallId, match w.content case Words(text) => text case _ => "", false)]
         else ContentParts(w.content) + CallParts(w.calls)
  }

  lemma {:induction false} MessagesReadInOrder(ws: seq<Wire>)
    ensures |MessagesOf(ws)| == |Chat(ws)|
    ensures forall i :: 0 <= i < |Chat(ws)| ==> ReadAs(Chat(ws)[i], MessagesOf(ws)[i])
  {
    if ws != [] {
      MessagesReadInOrder(ws[..|ws| - 1]);
    }
  }

  /** A string is one text, the same as a list with one piece of text; an empty one is none. */
  lemma StringIsOnePiece(text: string)
    ensures ContentParts(Words(text)) == if text == "" then [] else [Text(text)]
    ensures ContentParts(Pieces([TextPiece(text)])) == [Text(text)]
    ensures ContentParts(NoContent) == ContentParts(Pieces([])) == []
  {
    assert [TextPiece(text)][..0] == [];
    assert PieceParts([TextPiece(text)]) == PieceParts([]) + [Text(text)] == [Text(text)];
  }

  function KnownPieces(ps: seq<Piece>): seq<Piece> {
    if ps == [] then []
    else if ps[|ps| - 1].OtherPiece? then KnownPieces(ps[..|ps| - 1])
    else KnownPieces(ps[..|ps| - 1]) + [ps[|ps| - 1]]
  }

  lemma {:induction false} PiecesReadInOrder(ps: seq<Piece>)
    ensures |PieceParts(ps)| == |KnownPieces(ps)|
    ensures forall i :: 0 <= i < |KnownPieces(ps)| ==>
      PieceParts(ps)[i] == match KnownPieces(ps)[i] case TextPiece(text) => Text(text) case ImagePiece(url) => Image(url, "") case OtherPiece => Text("")
  {
    if ps != [] {
      PiecesReadInOrder(ps[..|ps| - 1]);
    }
  }

  lemma {:induction false} CallsReadInOrder(calls: seq<Call>)
    ensures |CallParts(calls)| == |calls|
    ensures forall i :: 0 <= i < |calls| ==> CallParts(calls)[i] == ToolUse(calls[i].id, calls[i].name, calls[i].args)
  {
    if calls != [] {
      CallsReadInOrder(calls[..|calls| - 1]);
    }
  }

  /** The strings said by the system or the developer. */
  function SystemTexts(ws: seq<Wire>): seq<Option<string>> {
    if ws == [] then []
    else
      var front, w := SystemTexts(ws[..|ws| - 1]), ws[|ws| - 1];
      if w.role != "system" && w.role != "developer" then front
      else front + [match w.content case Words(text) => Some(text) case _ => None]
  }

  lemma {:induction false} SystemIsLines(ws: seq<Wire>)
    ensures SystemIn(ws) == AR.SystemLines(SystemTexts(ws))
  {
    if ws != [] {
      var front, w := ws[..|ws| - 1], ws[|ws| - 1];
      SystemIsLines(front);
      if w.role == "system" || w.role == "developer" {
        var text := match w.content case Words(text) => Some(text) case _ => None;
        assert (SystemTexts(front) + [text])[..|SystemTexts(front)|] == SystemTexts(front);
      }
    }
  }

  /** The system text is what the system and the developer say, line by line. */
  lemma SystemIsJoined(ws: seq<Wire>)
    ensures SystemIn(ws) == A.Joined(A.Lines(SystemTexts(ws)))
  {
    SystemIsLines(ws);
    A.SystemBlocksAreLines(SystemTexts(ws));
  }

  // ---- Writing ----

  function AnswersIn(parts: seq<Part>): seq<Part> {
    if parts == [] then []
    else if parts[|parts| - 1].ToolResult? then AnswersIn(parts[..|parts| - 1]) + [parts[|parts| - 1]]
    else AnswersIn(parts[..|parts| - 1])
  }

  lemma {:induction false} AnswersWrittenInOrder(parts: seq<Part>)
    ensures |ToolWires(parts)| == |AnswersIn(parts)|
    ensures forall i :: 0 <= i < |AnswersIn(parts)| ==>
      AnswersIn(parts)[i].ToolResult? && ToolWires(parts)[i] == Wire("tool", Words(AnswersIn(parts)[i].content), AnswersIn(parts)[i].id, [])
  {
    if parts != [] {
      AnswersWrittenInOrder(parts[..|parts| - 1]);
    }
  }

  function AskedIn(parts: seq<Part>): seq<Part> {
    if parts == [] then []
    else if parts[|parts| - 1].ToolUse? then AskedIn(parts[..|parts| - 1]) + [parts[|parts| - 1]]
    else AskedIn(parts[..|parts| - 1])
  }

  lemma {:induction false} CallsWrittenInOrder(parts: seq<Part>)
    ensures |CallsOf(parts)| == |AskedIn(parts)|
    ensures forall i :: 0 <= i < |AskedIn(parts)| ==>
      AskedIn(parts)[i].ToolUse? && CallsOf(parts)[i] == Call(AskedIn(parts)[i].id, AskedIn(parts)[i].name, AskedIn(parts)[i].args)
  {
    if parts != [] {
      CallsWrittenInOrder(parts[..|parts| - 1]);
    }
  }

  function ShownIn(parts: seq<Part>): seq<Part> {
    if parts == [] then []
    else if parts[|parts| - 1].Text? || parts[|parts| - 1].Image? then ShownIn(parts[..|parts| - 1]) + [parts[|parts| - 1]]
    else ShownIn(parts[..|parts| - 1])
  }

  lemma {:induction false} PiecesWrittenInOrder(parts: seq<Part>)
    ensures |PiecesOf(parts)| == |ShownIn(parts)|
    ensures forall i :: 0 <= i < |ShownIn(parts)| ==>
      && (ShownIn(parts)[i].Text? ==> PiecesOf(parts)[i] == TextPiece(ShownIn(parts)[i].text))
      && (ShownIn(parts)[i].Image? ==> PiecesOf(parts)[i] == ImagePiece(ShownIn(parts)[i].url))
      && (ShownIn(parts)[i].Text? || ShownIn(parts)[i].Image?)
  {
    if parts != [] {
      PiecesWrittenInOrder(parts[..|parts| - 1]);
    }
  }

  /** A message is its answers, then one message of its own role if it says, shows or asks anything. */
  lemma MessageWritten(m: Message)
    ensures var said := exists i :: 0 <= i < |m.parts| && !m.parts[i].ToolResult? && !m.parts[i].ToolUse?;
      var shows := exists i :: 0 <= i < |m.parts| && m.parts[i].Image?;
      WiresOf(m) == ToolWires(m.parts) +
        if said || AskedIn(m.parts) != []
        then [Wire(m.role, if shows then Pieces(PiecesOf(m.parts)) else Words(WordsIn(m.parts)), "", CallsOf(m.parts))] else []
  {
    CallsWrittenInOrder(m.parts);
    assert ToolWires(m.parts) + [] == ToolWires(m.parts);
  }

  /** The system text comes first, by the system. */
  lemma SystemWritten(system: string, ms: seq<Message>)
    ensures system == "" ==> Encoded(system, ms) == AllWires(ms)
    ensures system != "" ==> Encoded(system, ms) == [Wire("system", Words(system), "", [])] + AllWires(ms)
  {
  }

  // ---- Words ----

  /** Finish reasons and stop reasons, word for word; the deprecated function_call is understood and never sent. */
  lemma FinishWords(reason: string)
    ensures Canonical.FinishToCanon(reason) ==
      if reason == "length" then "max_tokens" else if reason == "tool_calls" || reason == "function_call" then "tool_use" else "end_turn"
    ensures Canonical.CanonToFinish(reason) ==
      if reason == "max_tokens" then "length" else if reason == "tool_use" then "tool_calls" else "stop"
  {
  }

  /** Reasoning efforts and budgets. */
  lemma EffortWords(effort: string, budget: int)
    ensures (BudgetToEffort(budget) == "low" <==> budget < 8000) && (BudgetToEffort(budget) == "medium" <==> 8000 <= budget < 24000)
    ensures BudgetToEffort(budget) == "high" <==> budget >= 24000
    ensures EffortToBudget(effort) == if effort == "low" then 4000 else if effort == "high" then 32000 else 16000
  {
    assert |"low"| == 3 && |"high"| == 4 && |"medium"| == 6;
  }
}
