/** The request codec of the Anthropic protocol, and exactly which requests survive it. */
module AnthropicRequest {
  import opened Outcomes
  import opened RequestModel

  // ---- Data URIs (section 3 of RFC 2397) ----

  const DATA := "data:"
  const BASE64 := ";base64,"

  /** The position of the first separator at or after i. */
  function Separator(rest: string, i: nat): (k: nat)
    requires i <= |rest|
    ensures i <= k <= |rest| && (k < |rest| ==> rest[k] == ';' || rest[k] == ',')
    ensures forall j :: i <= j < k ==> rest[j] != ';' && rest[j] != ','
    decreases |rest| - i
  {
    if i == |rest| || rest[i] == ';' || rest[i] == ',' then i else Separator(rest, i + 1)
  }

  function IndexByte(s: string, b: char, i: nat): (k: nat)
    requires i <= |s|
    ensures i <= k <= |s| && (k < |s| ==> s[k] == b) && forall j :: i <= j < k ==> s[j] != b
    decreases |s| - i
  {
    if i == |s| || s[i] == b then i else IndexByte(s, b, i + 1)
  }

  function Split(uri: string, fallback: string): (string, string) {
    var mime := if fallback == "" then "image/png" else fallback;
    if |uri| > |DATA| && uri[..|DATA|] == DATA then
      var rest := uri[|DATA|..];
      var i, j := Separator(rest, 0), IndexByte(rest, ',', 0);
      if i == |rest| then (mime, "") else (rest[..i], if j < |rest| then rest[j + 1..] else "")
    else (mime, "")
  }

  method IndexOf(s: string, b: char) returns (i: nat)
    ensures i == IndexByte(s, b, 0)
  {
    i := 0;
    while i < |s| && s[i] != b
      invariant i <= |s| && IndexByte(s, b, i) == IndexByte(s, b, 0)
    {
      i := i + 1;
    }
  }

  method SplitDataURI(uri: string, fallback: string) returns (mime: string, data: string)
    ensures (mime, data) == Split(uri, fallback)
  {
    mime, data := if fallback == "" then "image/png" else fallback, "";
    if |uri| > |DATA| && uri[..|DATA|] == DATA {
      var rest := uri[|DATA|..];
      var i := 0;
      while i < |rest| && rest[i] != ';' && rest[i] != ','
        invariant i <= |rest| && Separator(rest, i) == Separator(rest, 0)
      {
        i := i + 1;
      }
      if i < |rest| {
        mime := rest[..i];
        var j := IndexOf(rest, ',');
        if j < |rest| {
          data := rest[j + 1..];
        }
      }
    }
  }

  function JoinedURI(mime: string, data: string): string { DATA + mime + BASE64 + data }

  predicate PlainMime(mime: string) { forall i :: 0 <= i < |mime| ==> mime[i] != ';' && mime[i] != ',' }

  lemma SplitUndoesJoin(mime: string, data: string, fallback: string)
    requires PlainMime(mime)
    ensures Split(JoinedURI(mime, data), fallback) == (mime, data)
  {
    var uri := JoinedURI(mime, data);
    var rest := uri[|DATA|..];
    assert uri[..|DATA|] == DATA && rest == mime + BASE64 + data;
    assert rest[|mime|] == ';' && rest[|mime| + 7] == ',';
    assert forall k :: 0 <= k < |mime| ==> rest[k] == mime[k];
    assert forall k :: 0 <= k < 7 ==> rest[|mime| + k] == BASE64[k] && BASE64[k] != ',';
    var i, j := Separator(rest, 0), IndexByte(rest, ',', 0);
    assert i == |mime|;
    forall k | 0 <= k < |mime| + 7
      ensures rest[k] != ','
    {
      assert k >= |mime| ==> rest[|mime| + (k - |mime|)] == BASE64[k - |mime|];
    }
    assert j == |mime| + 7;
    assert rest[..i] == mime && rest[j + 1..] == data;
  }

  /** The URI has its base64 marker right where its media type ends. */
  predicate IsBase64URI(uri: string) {
    && |uri| > |DATA| && uri[..|DATA|] == DATA
    && var rest := uri[|DATA|..]; var i := Separator(rest, 0);
       i + |BASE64| <= |rest| && rest[i..i + |BASE64|] == BASE64
  }

  lemma CutAtMarkers(uri: string, p: string, q: string, i: nat)
    requires |p| + i + |q| <= |uri| && uri[..|p|] == p && uri[|p|..][i..i + |q|] == q
    ensures uri == p + uri[|p|..][..i] + q + uri[|p|..][i + |q|..]
  {
  }

  lemma Base64IsJoined(uri: string, fallback: string)
    requires IsBase64URI(uri)
    ensures var mime := uri[|DATA|..][..Separator(uri[|DATA|..], 0)];
      Split(uri, fallback).0 == mime && JoinedURI(mime, Split(uri, fallback).1) == uri
  {
    var rest := uri[|DATA|..];
    var i := Separator(rest, 0);
    CutAtMarkers(uri, DATA, BASE64, i);
    SplitUndoesJoin(rest[..i], rest[i + |BASE64|..], fallback);
  }

  /** An image comes back with the same URI and media type exactly when it is a base64 data URI of that type. */
  lemma ImageSurvivesIff(uri: string, mime: string)
    ensures (JoinedURI(Split(uri, mime).0, Split(uri, mime).1) == uri && Split(uri, mime).0 == mime)
      <==> IsBase64URI(uri) && uri[|DATA|..][..Separator(uri[|DATA|..], 0)] == mime
  {
    if IsBase64URI(uri) {
      Base64IsJoined(uri, mime);
    }
    if JoinedURI(Split(uri, mime).0, Split(uri, mime).1) == uri {
      JoinedIsBase64(uri, mime);
    }
  }

  lemma JoinedIsBase64(uri: string, mime: string)
    requires JoinedURI(Split(uri, mime).0, Split(uri, mime).1) == uri
    ensures IsBase64URI(uri) && uri[|DATA|..][..Separator(uri[|DATA|..], 0)] == Split(uri, mime).0
  {
    var (m, d) := Split(uri, mime);
    var rest := uri[|DATA|..];
    assert uri[..|DATA|] == DATA && rest == m + BASE64 + d;
    var i := Separator(rest, 0);
    assert rest[|m|] == ';';
    assert m == rest[..i];
    assert rest[i..i + |BASE64|] == BASE64;
  }

  // ---- The wire form ----

  datatype ResultContent = Plain(text: string) | TextBlocks(texts: seq<Option<string>>) | NoContent

  datatype Block =
    | TextBlock(text: string)
    | ImageBlock(mediaType: string, data: string)
    | ToolUseBlock(id: string, name: string, input: Json)
    | ToolResultBlock(id: string, content: ResultContent, isError: bool)
    | OtherBlock

  datatype Content = Words(text: string) | Blocks(blocks: seq<Block>)

  datatype WireMessage = WireMessage(role: string, content: Content)

  datatype WireChoice = WireChoice(kind: string, name: string, disableParallel: bool)

  datatype WireThinking = WireThinking(kind: string, budget: Option<int>)

  datatype WireSystem = NoSystem | SystemText(text: string) | SystemBlocks(texts: seq<Option<string>>)

  datatype Body = Body(
    model: string, maxTokens: Option<int>, system: WireSystem, temperature: Option<real>, topP: Option<real>, topK: Option<int>,
    stop: seq<string>, thinking: Option<WireThinking>, userId: Option<string>, stream: bool, tools: seq<ToolDef>,
    toolChoice: Option<WireChoice>, messages: seq<WireMessage>)

  // ---- Encoding ----

  function BlockOf(p: Part): seq<Block> {
    match p
    case Text(t) => [TextBlock(t)]
    case Image(url, mime) => [ImageBlock(Split(url, mime).0, Split(url, mime).1)]
    case ToolUse(id, name, args) => [ToolUseBlock(id, name, args)]
    case ToolResult(id, content, isError) => [ToolResultBlock(id, Plain(content), isError)]
    case Thinking(_) => []
  }

  function BlocksOf(parts: seq<Part>): seq<Block> {
    if parts == [] then [] else BlocksOf(parts[..|parts| - 1]) + BlockOf(parts[|parts| - 1])
  }

  function WireOf(m: Message): seq<WireMessage> {
    if m.role == "system" then [] else [WireMessage(if m.role == "tool" then "user" else m.role, Blocks(BlocksOf(m.parts)))]
  }

  function WiresOf(ms: seq<Message>): seq<WireMessage> {
    if ms == [] then [] else WiresOf(ms[..|ms| - 1]) + WireOf(ms[|ms| - 1])
  }

  function ChoiceOf(c: Option<ToolChoice>): Option<WireChoice> {
    if c.None? then None
    else
      match c.value.mode
      case Auto => Some(WireChoice("auto", "", c.value.disableParallel))
      case Required => Some(WireChoice("any", "", c.value.disableParallel))
      case NoTools => Some(WireChoice("none", "", c.value.disableParallel))
      case Specific => Some(WireChoice("tool", c.value.name, c.value.disableParallel))
      case OtherMode(_) => None
  }

  function Encoded(req: Request, upstreamModel: string): Body {
    Body(upstreamModel, Some(if req.maxTokens == 0 then 4096 else req.maxTokens), if req.system == "" then NoSystem else SystemText(req.system),
         req.temperature, req.topP, req.topK, req.stop,
         if req.thinking.Some? && req.thinking.value.enabled
         then Some(WireThinking("enabled", if req.thinking.value.budget > 0 then Some(req.thinking.value.budget) else None)) else None,
         req.userId, req.stream, req.tools, ChoiceOf(req.toolChoice), WiresOf(req.messages))
  }

  // ---- Decoding ----

  function Flattened(texts: seq<Option<string>>): string {
    if texts == [] then ""
    else Flattened(texts[..|texts| - 1]) + if texts[|texts| - 1].Some? then texts[|texts| - 1].value else ""
  }

  function ResultText(c: ResultContent): string {
    match c
    case Plain(t) => t
    case TextBlocks(texts) => Flattened(texts)
    case NoContent => ""
  }

  function SystemLines(texts: seq<Option<string>>): string {
    if texts == [] then ""
    else
      var front, last := SystemLines(texts[..|texts| - 1]), texts[|texts| - 1];
      if last.None? then front else if front == "" then last.value else front + "\n" + last.value
  }

  function PartOf(b: Block): seq<Part> {
    match b
    case TextBlock(t) => [Text(t)]
    case ImageBlock(mime, data) => [Image(JoinedURI(mime, data), mime)]
    case ToolUseBlock(id, name, input) => [ToolUse(id, name, input)]
    case ToolResultBlock(id, content, isError) => [ToolResult(id, ResultText(content), isError)]
    case OtherBlock => []
  }

  function PartsOf(blocks: seq<Block>): seq<Part> {
    if blocks == [] then [] else PartsOf(blocks[..|blocks| - 1]) + PartOf(blocks[|blocks| - 1])
  }

  function MessageOf(w: WireMessage): Message {
    Message(w.role, if w.content.Words? then [Text(w.content.text)] else PartsOf(w.content.blocks))
  }

  function MessagesOf(ws: seq<WireMessage>): seq<Message> {
    if ws == [] then [] else MessagesOf(ws[..|ws| - 1]) + [MessageOf(ws[|ws| - 1])]
  }

  function ModeOf(kind: string): Option<Mode> {
    if kind == "auto" then Some(Auto) else if kind == "any" then Some(Required)
    else if kind == "none" then Some(NoTools) else if kind == "tool" then Some(Specific) else None
  }

  function DecodedChoice(c: Option<WireChoice>): Option<ToolChoice> {
    if c.None? || ModeOf(c.value.kind).None? then None
    else Some(ToolChoice(ModeOf(c.value.kind).value, if c.value.kind == "tool" then c.value.name else "", c.value.disableParallel))
  }

  function DecodedThinking(t: Option<WireThinking>): Option<ThinkingConfig> {
    if t.Some? && t.value.kind == "enabled" then Some(ThinkingConfig(true, if t.value.budget.Some? then t.value.budget.value else 0)) else None
  }

  /** A request without a model is refused. */
  function Decoded(b: Body): Option<Request> {
    if b.model == "" then None
    else Some(Request(
      b.model, match b.system { case NoSystem => "" case SystemText(t) => t case SystemBlocks(texts) => SystemLines(texts) },
      MessagesOf(b.messages), if b.maxTokens.Some? then b.maxTokens.value else 0, b.temperature, b.topP, b.stop, b.stream, b.tools,
      DecodedChoice(b.toolChoice), b.topK, DecodedThinking(b.thinking), b.userId))
  }

  // ---- The loops over messages and parts ----

  method EncodeMessages(ms: seq<Message>) returns (wires: seq<WireMessage>)
    ensures wires == WiresOf(ms)
  {
    wires := [];
    for n := 0 to |ms|
      invariant wires == WiresOf(ms[..n])
    {
      assert ms[..n + 1][..n] == ms[..n];
      var m := ms[n];
      if m.role == "system" {
        continue;
      }
      var role := m.role;
      if role == "tool" {
        role := "user";
      }
      var blocks := [];
      for k := 0 to |m.parts|
        invariant blocks == BlocksOf(m.parts[..k])
      {
        assert m.parts[..k + 1][..k] == m.parts[..k];
        match m.parts[k] {
          case Text(t) => blocks := blocks + [TextBlock(t)];
          case Image(url, mime) =>
            var mediaType, data := SplitDataURI(url, mime);
            blocks := blocks + [ImageBlock(mediaType, data)];
          case ToolUse(id, name, args) => blocks := blocks + [ToolUseBlock(id, name, args)];
          case ToolResult(id, content, isError) => blocks := blocks + [ToolResultBlock(id, Plain(content), isError)];
          case Thinking(_) =>
        }
      }
      assert m.parts[..|m.parts|] == m.parts;
      wires := wires + [WireMessage(role, Blocks(blocks))];
    }
    assert ms[..|ms|] == ms;
  }

  method FlattenResult(c: ResultContent) returns (text: string)
    ensures text == ResultText(c)
  {
    match c
    case Plain(t) => return t;
    case NoContent => return "";
    case TextBlocks(texts) =>
      text := "";
      for i := 0 to |texts|
        invariant text == Flattened(texts[..i])
      {
        assert texts[..i + 1][..i] == texts[..i];
        if texts[i].Some? {
          text := text + texts[i].value;
        }
      }
      assert texts[..|texts|] == texts;
  }

  method DecodeMessages(wires: seq<WireMessage>) returns (ms: seq<Message>)
    ensures ms == MessagesOf(wires)
  {
    ms := [];
    for n := 0 to |wires|
      invariant ms == MessagesOf(wires[..n])
    {
      assert wires[..n + 1][..n] == wires[..n];
      var w := wires[n];
      var parts := [];
      match w.content {
        case Words(t) =>
          parts := parts + [Text(t)];
          assert parts == [Text(t)];
        case Blocks(blocks) =>
          for k := 0 to |blocks|
            invariant parts == PartsOf(blocks[..k])
          {
            assert blocks[..k + 1][..k] == blocks[..k];
            match blocks[k] {
              case TextBlock(t) => parts := parts + [Text(t)];
              case ImageBlock(mime, data) => parts := parts + [Image("data:" + mime + ";base64," + data, mime)];
              case ToolUseBlock(id, name, input) => parts := parts + [ToolUse(id, name, input)];
              case ToolResultBlock(id, content, isError) =>
                var text := FlattenResult(content);
                parts := parts + [ToolResult(id, text, isError)];
              case OtherBlock =>
            }
          }
          assert blocks[..|blocks|] == blocks;
      }
      assert Message(w.role, parts) == MessageOf(w);
      ms := ms + [Message(w.role, parts)];
    }
    assert wires[..|wires|] == wires;
  }

  // ---- Which requests survive the trip ----

  predicate PartSurvives(p: Part) {
    match p
    case Image(url, mime) => IsBase64URI(url) && url[|DATA|..][..Separator(url[|DATA|..], 0)] == mime
    case Thinking(_) => false
    case _ => true
  }

  predicate MessageSurvives(m: Message) {
    m.role != "system" && m.role != "tool" && AllPartsSurvive(m.parts)
  }

  predicate ChoiceSurvives(c: Option<ToolChoice>) {
    c.Some? ==> !c.value.mode.OtherMode? && (c.value.name == "" || c.value.mode.Specific?)
  }

  predicate Survives(req: Request) {
    && req.model != "" && req.maxTokens != 0
    && AllMessagesSurvive(req.messages)
    && (req.thinking.Some? ==> req.thinking.value.enabled && req.thinking.value.budget >= 0)
    && ChoiceSurvives(req.toolChoice)
  }

  lemma PartsOfAppend(x: seq<Block>, y: seq<Block>)
    requires |y| <= 1
    ensures PartsOf(x + y) == PartsOf(x) + PartsOf(y)
  {
    if y == [] {
      assert x + y == x;
    } else {
      assert (x + y)[..|x|] == x && y[..0] == [];
    }
  }

  lemma PartTrip(p: Part)
    ensures |PartsOf(BlockOf(p))| <= 1
    ensures PartsOf(BlockOf(p)) == [p] <==> PartSurvives(p)
    ensures !p.Thinking? ==> |PartsOf(BlockOf(p))| == 1
  {
    match p
    case Thinking(_) =>
    case Image(url, mime) =>
      ImageSurvivesIff(url, mime);
      var b := BlockOf(p);
      assert b[..0] == [];
      assert PartsOf(b) == PartsOf([]) + PartOf(b[0]) == [Image(JoinedURI(Split(url, mime).0, Split(url, mime).1), Split(url, mime).0)];
    case _ =>
      var b := BlockOf(p);
      assert b[..0] == [];
      assert PartsOf(b) == PartsOf([]) + PartOf(b[0]);
  }

  /** A list grown from at most as many, then at most one more, is the whole only piece by piece. */
  lemma LastPiece<T>(x: seq<T>, y: seq<T>, whole: seq<T>)
    requires whole != [] && |x| <= |whole| - 1 && |y| <= 1
    ensures x + y == whole <==> x == whole[..|whole| - 1] && y == [whole[|whole| - 1]]
  {
    assert whole == whole[..|whole| - 1] + [whole[|whole| - 1]];
    if x + y == whole {
      assert |x| == |whole| - 1 && |y| == 1;
      assert x == (x + y)[..|x|] && y[0] == (x + y)[|x|];
    }
  }

  predicate AllPartsSurvive(parts: seq<Part>) { forall i :: 0 <= i < |parts| ==> PartSurvives(parts[i]) }

  lemma LastPartSurvives(parts: seq<Part>)
    requires parts != []
    ensures AllPartsSurvive(parts) <==> AllPartsSurvive(parts[..|parts| - 1]) && PartSurvives(parts[|parts| - 1])
  {
    assert forall i :: 0 <= i < |parts| - 1 ==> parts[..|parts| - 1][i] == parts[i];
  }

  lemma {:induction false} PartsTrip(parts: seq<Part>)
    ensures |PartsOf(BlocksOf(parts))| <= |parts|
    ensures PartsOf(BlocksOf(parts)) == parts <==> AllPartsSurvive(parts)
  {
    if parts != [] {
      var front, p := parts[..|parts| - 1], parts[|parts| - 1];
      PartsTrip(front);
      PartTrip(p);
      PartsOfAppend(BlocksOf(front), BlockOf(p));
      LastPiece(PartsOf(BlocksOf(front)), PartsOf(BlockOf(p)), parts);
      LastPartSurvives(parts);
    }
  }

  lemma MessagesOfAppend(x: seq<WireMessage>, y: seq<WireMessage>)
    requires |y| <= 1
    ensures MessagesOf(x + y) == MessagesOf(x) + MessagesOf(y)
  {
    if y == [] {
      assert x + y == x;
    } else {
      assert (x + y)[..|x|] == x && y[..0] == [];
    }
  }

  lemma MessageTrip(m: Message)
    ensures |MessagesOf(WireOf(m))| <= 1
    ensures MessagesOf(WireOf(m)) == [m] <==> MessageSurvives(m)
  {
    PartsTrip(m.parts);
    if m.role != "system" {
      var w := WireOf(m);
      assert w[..0] == [];
      assert MessagesOf(w) == [MessageOf(w[0])];
    }
  }

  predicate AllMessagesSurvive(ms: seq<Message>) { forall i :: 0 <= i < |ms| ==> MessageSurvives(ms[i]) }

  lemma LastMessageSurvives(ms: seq<Message>)
    requires ms != []
    ensures AllMessagesSurvive(ms) <==> AllMessagesSurvive(ms[..|ms| - 1]) && MessageSurvives(ms[|ms| - 1])
  {
    assert forall i :: 0 <= i < |ms| - 1 ==> ms[..|ms| - 1][i] == ms[i];
  }

  lemma {:induction false} MessagesTrip(ms: seq<Message>)
    ensures |MessagesOf(WiresOf(ms))| <= |ms|
    ensures MessagesOf(WiresOf(ms)) == ms <==> AllMessagesSurvive(ms)
  {
    if ms != [] {
      var front, m := ms[..|ms| - 1], ms[|ms| - 1];
      MessagesTrip(front);
      MessageTrip(m);
      MessagesOfAppend(WiresOf(front), WireOf(m));
      LastPiece(MessagesOf(WiresOf(front)), MessagesOf(WireOf(m)), ms);
      LastMessageSurvives(ms);
    }
  }

  lemma ChoiceTrip(c: Option<ToolChoice>)
    ensures DecodedChoice(ChoiceOf(c)) == c <==> ChoiceSurvives(c)
  {
    assert |"auto"| == 4 && |"any"| == 3 && "none"[0] == 'n' && "tool"[0] == 't' && "auto"[0] == 'a';
  }

  /** Decoding undoes encoding exactly for these requests. */
  lemma DecodeUndoesEncodeIff(req: Request)
    ensures Decoded(Encoded(req, req.model)) == Some(req) <==> Survives(req)
  {
    MessagesTrip(req.messages);
    ChoiceTrip(req.toolChoice);
    if req.model != "" {
      var back := Decoded(Encoded(req, req.model)).value;
      assert back.maxTokens == req.maxTokens <==> req.maxTokens != 0;
      assert back.thinking == req.thinking <==> (req.thinking.Some? ==> req.thinking.value.enabled && req.thinking.value.budget >= 0);
      assert back == req.(maxTokens := back.maxTokens, thinking := back.thinking, messages := back.messages, toolChoice := back.toolChoice);
    }
  }
}
