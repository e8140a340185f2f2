/**
  The Anthropic request read and written field by field: every form a client may send means
  what its plainest form means, and every block and field keeps its own content and place.
 */
module AnthropicForms {
  import opened Outcomes
  import opened RequestModel
  import opened AnthropicRequest

  // ---- Messages ----

  /** Plain text is one text part, the same as a list of one text block. */
  lemma StringIsOneTextBlock(role: string, text: string)
    ensures MessageOf(WireMessage(role, Words(text))) == Message(role, [Text(text)])
    ensures MessageOf(WireMessage(role, Blocks([TextBlock(text)]))) == Message(role, [Text(text)])
  {
    assert [TextBlock(text)][..0] == [];
    assert PartsOf([TextBlock(text)]) == PartsOf([]) + [Text(text)] == [Text(text)];
  }

  /** The texts of a list, one after the other. */
  function Concatenated(texts: seq<Option<string>>): string {
    if texts == [] then ""
    else (match texts[0] case Some(t) => t case None => "") + Concatenated(texts[1..])
  }

  lemma {:induction false} ConcatenatedSnoc(texts: seq<Option<string>>, last: Option<string>)
    ensures Concatenated(texts + [last]) == Concatenated(texts) + match last case Some(t) => t case None => ""
    decreases |texts|
  {
    if texts == [] {
      assert [last][1..] == [] && [] + [last] == [last];
    } else {
      assert (texts + [last])[1..] == texts[1..] + [last];
      ConcatenatedSnoc(texts[1..], last);
    }
  }

  /** A list of tool-result blocks reads as the string of their texts in order. */
  lemma {:induction false} ResultBlocksAreTheirText(texts: seq<Option<string>>)
    ensures ResultText(TextBlocks(texts)) == ResultText(Plain(Concatenated(texts))) == Concatenated(texts)
  {
    if texts != [] {
      var front, last := texts[..|texts| - 1], texts[|texts| - 1];
      ResultBlocksAreTheirText(front);
      ConcatenatedSnoc(front, last);
      assert texts == front + [last];
    }
  }

  lemma ResultForms(id: string, texts: seq<Option<string>>, isError: bool)
    ensures PartOf(ToolResultBlock(id, TextBlocks(texts), isError)) == PartOf(ToolResultBlock(id, Plain(Concatenated(texts)), isError))
    ensures PartOf(ToolResultBlock(id, NoContent, isError)) == PartOf(ToolResultBlock(id, Plain(""), isError))
  {
    ResultBlocksAreTheirText(texts);
  }

  /** The blocks of a known kind. */
  function Known(blocks: seq<Block>): seq<Block> {
    if blocks == [] then []
    else if blocks[|blocks| - 1].OtherBlock? then Known(blocks[..|blocks| - 1])
    else Known(blocks[..|blocks| - 1]) + [blocks[|blocks| - 1]]
  }

  /** The part says what the block says. */
  predicate ReadAs(b: Block, p: Part) {
    match b
    case TextBlock(text) => p == Text(text)
    case ImageBlock(mediaType, data) => p == Image("data:" + mediaType + ";base64," + data, mediaType)
    case ToolUseBlock(id, name, input) => p == ToolUse(id, name, input)
    case ToolResultBlock(id, Plain(text), isError) => p == ToolResult(id, text, isError)
    case ToolResultBlock(id, TextBlocks(texts), isError) => p == ToolResult(id, Concatenated(texts), isError)
    case ToolResultBlock(id, NoContent, isError) => p == ToolResult(id, "", isError)
    case OtherBlock => false
  }

  lemma PartIsReadAs(b: Block)
    ensures b.OtherBlock? ==> PartOf(b) == []
    ensures !b.OtherBlock? ==> |PartOf(b)| == 1 && ReadAs(b, PartOf(b)[0])
  {
    if b.ToolResultBlock? && b.content.TextBlocks? {
      ResultBlocksAreTheirText(b.content.texts);
    }
  }

  /** Every block of a known kind becomes one part, in order. */
  lemma {:induction false} BlocksReadInOrder(blocks: seq<Block>)
    ensures |PartsOf(blocks)| == |Known(blocks)|
    ensures forall i :: 0 <= i < |Known(blocks)| ==> ReadAs(Known(blocks)[i], PartsOf(blocks)[i])
  {
    if blocks != [] {
      BlocksReadInOrder(blocks[..|blocks| - 1]);
      PartIsReadAs(blocks[|blocks| - 1]);
    }
  }

  /** Every message is read, in its place and with its role, whatever form its content has. */
  lemma {:induction false} MessagesReadInOrder(ws: seq<WireMessage>)
    ensures |MessagesOf(ws)| == |ws|
    ensures forall i :: 0 <= i < |ws| ==>
      && MessagesOf(ws)[i].role == ws[i].role
      && match ws[i].content
         case Words(text) => MessagesOf(ws)[i].parts == [Text(text)]
         case Blocks(blocks) => MessagesOf(ws)[i].parts == PartsOf(blocks)
  {
    if ws != [] {
      MessagesReadInOrder(ws[..|ws| - 1]);
    }
  }

  // ---- Writing messages ----

  /** The parts the protocol has a place for in a request: all but reasoning. */
  function Sendable(parts: seq<Part>): seq<Part> {
    if parts == [] then []
    else if parts[|parts| - 1].Thinking? then Sendable(parts[..|parts| - 1])
    else Sendable(parts[..|parts| - 1]) + [parts[|parts| - 1]]
  }

  predicate WrittenAs(p: Part, b: Block) {
    match p
    case Text(text) => b == TextBlock(text)
    case Image(url, mime) => b == ImageBlock(Split(url, mime).0, Split(url, mime).1)
    case ToolUse(id, name, args) => b == ToolUseBlock(id, name, args)
    case ToolResult(id, content, isError) => b == ToolResultBlock(id, Plain(content), isError)
    case Thinking(_) => false
  }

  lemma {:induction false} PartsWrittenInOrder(parts: seq<Part>)
    ensures |BlocksOf(parts)| == |Sendable(parts)|
    ensures forall i :: 0 <= i < |Sendable(parts)| ==> WrittenAs(Sendable(parts)[i], BlocksOf(parts)[i])
  {
    if parts != [] {
      PartsWrittenInOrder(parts[..|parts| - 1]);
    }
  }

  /** What is no data URI is sent without data, as the type it claims or else as a PNG. */
  lemma OtherImages(url: string, mime: string)
    requires |url| <= 5 || url[..5] != "data:"
    ensures Split(url, mime) == (if mime == "" then "image/png" else mime, "")
  {
  }

  predicate NoComma(s: string) { forall i :: 0 <= i < |s| ==> s[i] != ',' }

  lemma SeparatorAt(front: string, back: string)
    requires PlainMime(front) && (back != "" ==> back[0] == ';' || back[0] == ',')
    ensures Separator(front + back, 0) == |front|
  {
    assert forall k :: 0 <= k < |front| ==> (front + back)[k] == front[k];
    assert back != "" ==> (front + back)[|front|] == back[0];
  }

  lemma CommaAt(front: string, back: string)
    requires NoComma(front) && (back != "" ==> back[0] == ',')
    ensures IndexByte(front + back, ',', 0) == |front|
  {
    assert forall k :: 0 <= k < |front| ==> (front + back)[k] == front[k];
    assert back != "" ==> (front + back)[|front|] == back[0];
  }

  lemma BehindPrefix(rest: string)
    ensures var uri := "data:" + rest; |uri| == 5 + |rest| && uri[..5] == "data:" && uri[5..] == rest
  {
  }

  lemma SplitOf(uri: string, rest: string, claimed: string)
    requires |uri| == 5 + |rest| && uri[..5] == "data:" && uri[5..] == rest
    ensures var i, j := Separator(rest, 0), IndexByte(rest, ',', 0);
      Split(uri, claimed) ==
        if i == |rest| then (if claimed == "" then "image/png" else claimed, "") else (rest[..i], if j < |rest| then rest[j + 1..] else "")
  {
  }

  lemma AfterComma(front: string, data: string)
    ensures (front + ("," + data))[|front| + 1..] == data
  {
  }

  /** A data URI's type ends at its first separator, and its data begin after its first comma. */
  lemma DataURIIsSplit(mime: string, options: string, data: string, claimed: string)
    requires PlainMime(mime) && NoComma(options) && (options != "" ==> options[0] == ';')
    ensures Split("data:" + (mime + (options + ("," + data))), claimed) == (mime, data)
  {
    var end := "," + data;
    BehindPrefix(mime + (options + end));
    SplitOf("data:" + (mime + (options + end)), mime + (options + end), claimed);
    SeparatorAt(mime, options + end);
    Regroup(mime, options, end);
    CommaAt(mime + options, end);
    AfterComma(mime + options, data);
  }

  /** Without a comma there are no data, and without any separator no type. */
  lemma DataURIWithoutData(mime: string, options: string, claimed: string)
    requires PlainMime(mime) && NoComma(options) && (options != "" ==> options[0] == ';')
    ensures Split("data:" + (mime + options), claimed) == (if options != "" then mime else if claimed == "" then "image/png" else claimed, "")
  {
    BehindPrefix(mime + options);
    SplitOf("data:" + (mime + options), mime + options, claimed);
    SeparatorAt(mime, options);
    CommaAt(mime + options, "");
    assert (mime + options) + "" == mime + options;
  }

  /** The messages that are sent: system text goes elsewhere. */
  function Conversation(ms: seq<Message>): seq<Message> {
    if ms == [] then []
    else if ms[|ms| - 1].role == "system" then Conversation(ms[..|ms| - 1])
    else Conversation(ms[..|ms| - 1]) + [ms[|ms| - 1]]
  }

  /** Each keeps its place; a tool's message is sent by the user, any other by its own role. */
  lemma {:induction false} MessagesWrittenInOrder(ms: seq<Message>)
    ensures |WiresOf(ms)| == |Conversation(ms)|
    ensures forall i :: 0 <= i < |Conversation(ms)| ==>
      && WiresOf(ms)[i].content == Blocks(BlocksOf(Conversation(ms)[i].parts))
      && (Conversation(ms)[i].role == "tool" ==> WiresOf(ms)[i].role == "user")
      && (Conversation(ms)[i].role != "tool" ==> WiresOf(ms)[i].role == Conversation(ms)[i].role)
  {
    if ms != [] {
      MessagesWrittenInOrder(ms[..|ms| - 1]);
    }
  }

  // ---- The system text ----

  /** The texts of the blocks that have one, without empty ones before the first that is not. */
  function Lines(texts: seq<Option<string>>): seq<string> {
    if texts == [] then []
    else if texts[0].None? || texts[0].value == "" then Lines(texts[1..])
    else [texts[0].value] + Present(texts[1..])
  }

  function Value(text: Option<string>): seq<string> { if text.Some? then [text.value] else [] }

  function Present(texts: seq<Option<string>>): seq<string> {
    if texts == [] then [] else Value(texts[0]) + Present(texts[1..])
  }

  function Joined(lines: seq<string>): string {
    if lines == [] then "" else if |lines| == 1 then lines[0] else lines[0] + "\n" + Joined(lines[1..])
  }

  lemma {:induction false} JoinedSnoc(lines: seq<string>, last: string)
    requires lines != []
    ensures Joined(lines + [last]) == Joined(lines) + "\n" + last
    decreases |lines|
  {
    assert (lines + [last])[1..] == lines[1..] + [last];
    if |lines| == 1 {
      assert (lines + [last])[1..] == [last];
    } else {
      JoinedSnoc(lines[1..], last);
      assert lines[0] + "\n" + (Joined(lines[1..]) + "\n" + last) == (lines[0] + "\n" + Joined(lines[1..])) + "\n" + last;
    }
  }

  lemma {:induction false} PresentSnoc(texts: seq<Option<string>>, last: Option<string>)
    ensures Present(texts + [last]) == Present(texts) + Value(last)
    decreases |texts|
  {
    if texts == [] {
      assert [] + [last] == [last] && [last][1..] == [];
      assert Present([last]) == Value(last) + Present([]) == Value(last);
    } else {
      assert (texts + [last])[1..] == texts[1..] + [last];
      PresentSnoc(texts[1..], last);
      Regroup(Value(texts[0]), Present(texts[1..]), Value(last));
    }
  }

  lemma {:induction false} LinesSnoc(texts: seq<Option<string>>, last: Option<string>)
    ensures Lines(texts + [last]) ==
      if last.None? || (last.value == "" && Lines(texts) == []) then Lines(texts) else Lines(texts) + [last.value]
    decreases |texts|
  {
    if texts == [] {
      assert [] + [last] == [last] && [last][1..] == [];
    } else {
      assert (texts + [last])[1..] == texts[1..] + [last];
      if texts[0].None? || texts[0].value == "" {
        LinesSnoc(texts[1..], last);
      } else {
        PresentSnoc(texts[1..], last);
      }
    }
  }

  lemma {:induction false} FirstLineIsText(texts: seq<Option<string>>)
    ensures Lines(texts) != [] ==> Lines(texts)[0] != ""
    decreases |texts|
  {
    if texts != [] && (texts[0].None? || texts[0].value == "") {
      FirstLineIsText(texts[1..]);
    }
  }

  lemma JoinedIsText(lines: seq<string>)
    requires lines != [] && lines[0] != ""
    ensures Joined(lines) != ""
  {
    if |lines| > 1 {
      assert Joined(lines)[0] == lines[0][0];
    }
  }

  /** A system given as blocks reads as one text, its lines joined. */
  lemma {:induction false} SystemBlocksAreLines(texts: seq<Option<string>>)
    ensures SystemLines(texts) == Joined(Lines(texts))
  {
    if texts != [] {
      var front, last := texts[..|texts| - 1], texts[|texts| - 1];
      SystemBlocksAreLines(front);
      assert texts == front + [last];
      LinesSnoc(front, last);
      FirstLineIsText(front);
      if Lines(front) != [] {
        JoinedIsText(Lines(front));
        if last.Some? {
          JoinedSnoc(Lines(front), last.value);
        }
      }
    }
  }

  lemma SystemForms(b: Body, texts: seq<Option<string>>)
    ensures Decoded(b.(system := SystemBlocks(texts))) == Decoded(b.(system := SystemText(Joined(Lines(texts)))))
    ensures Decoded(b.(system := NoSystem)) == Decoded(b.(system := SystemText("")))
  {
    SystemBlocksAreLines(texts);
  }

  // ---- The other fields ----

  /** Every field is written under its own name; without a maximum of tokens, which the protocol demands, it is 4096. */
  lemma FieldsWritten(req: Request, model: string)
    ensures var b := Encoded(req, model);
      && b.model == model && b.maxTokens == Some(if req.maxTokens == 0 then 4096 else req.maxTokens)
      && b.system == (if req.system == "" then NoSystem else SystemText(req.system))
      && b.temperature == req.temperature && b.topP == req.topP && b.topK == req.topK && b.stop == req.stop
      && b.userId == req.userId && b.stream == req.stream && b.tools == req.tools
      && (b.thinking.Some? <==> req.thinking.Some? && req.thinking.value.enabled)
      && (b.thinking.Some? ==>
            b.thinking.value == WireThinking("enabled", if req.thinking.value.budget > 0 then Some(req.thinking.value.budget) else None))
  {
  }

  lemma ChoicesWritten(c: ToolChoice)
    ensures ChoiceOf(None) == None
    ensures ChoiceOf(Some(c)) == match c.mode
      case Auto => Some(WireChoice("auto", "", c.disableParallel))
      case Required => Some(WireChoice("any", "", c.disableParallel))
      case NoTools => Some(WireChoice("none", "", c.disableParallel))
      case Specific => Some(WireChoice("tool", c.name, c.disableParallel))
      case OtherMode(_) => None
  {
  }

  /** Every field is read from its own name, and a request without a model is refused. */
  lemma FieldsRead(b: Body)
    ensures Decoded(b).Some? <==> b.model != ""
    ensures b.model != "" ==>
      var req := Decoded(b).value;
      && req.model == b.model && req.maxTokens == (if b.maxTokens.Some? then b.maxTokens.value else 0)
      && req.temperature == b.temperature && req.topP == b.topP && req.topK == b.topK && req.stop == b.stop
      && req.userId == b.userId && req.stream == b.stream && req.tools == b.tools && req.messages == MessagesOf(b.messages)
      && (b.system.SystemText? ==> req.system == b.system.text)
      && (req.thinking.Some? <==> b.thinking.Some? && b.thinking.value.kind == "enabled")
      && (req.thinking.Some? ==>
            req.thinking.value == ThinkingConfig(true, if b.thinking.value.budget.Some? then b.thinking.value.budget.value else 0))
  {
  }

  lemma ChoicesRead(name: string, parallel: bool, other: string)
    requires other != "auto" && other != "any" && other != "none" && other != "tool"
    ensures DecodedChoice(Some(WireChoice("auto", name, parallel))) == Some(ToolChoice(Auto, "", parallel))
    ensures DecodedChoice(Some(WireChoice("any", name, parallel))) == Some(ToolChoice(Required, "", parallel))
    ensures DecodedChoice(Some(WireChoice("none", name, parallel))) == Some(ToolChoice(NoTools, "", parallel))
    ensures DecodedChoice(Some(WireChoice("tool", name, parallel))) == Some(ToolChoice(Specific, name, parallel))
    ensures DecodedChoice(Some(WireChoice(other, name, parallel))) == None && DecodedChoice(None) == None
  {
    assert |"auto"| == 4 && |"any"| == 3 && "none"[0] == 'n' && "tool"[0] == 't' && "auto"[0] == 'a';
  }
}
