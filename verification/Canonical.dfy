/**
  The events all upstream streams are translated into, and what a sequence of them says: the
  ordered content blocks and the stop reason.
 */
module Canonical {
  datatype Part = Text(text: string) | Tool(id: string, name: string, args: string) | Thinking(text: string)

  datatype Event =
    | TextDelta(text: string)
    | ToolStart(id: string, name: string)
    | ArgsDelta(args: string)
    | BlockStop
    | Finish(reason: string)

  const END_TURN := "end_turn"
  const MAX_TOKENS := "max_tokens"
  const TOOL_USE := "tool_use"

  function FinishToCanon(reason: string): string {
    if reason == "length" then MAX_TOKENS
    else if reason == "tool_calls" || reason == "function_call" then TOOL_USE
    else END_TURN
  }

  function CanonToFinish(reason: string): string {
    if reason == MAX_TOKENS then "length" else if reason == TOOL_USE then "tool_calls" else "stop"
  }

  /** A stop reason survives the trip through the other protocol exactly when that protocol has a word for it. */
  lemma StopReasonSurvivesIff(reason: string)
    ensures FinishToCanon(CanonToFinish(reason)) == reason <==> reason in {END_TURN, MAX_TOKENS, TOOL_USE}
    ensures CanonToFinish(FinishToCanon(CanonToFinish(reason))) == CanonToFinish(reason)
  {
    assert "stop" != "length" && "stop" != "tool_calls" && "stop" != "function_call";
    assert |"length"| == 6 && |"tool_calls"| == 10;
    assert MAX_TOKENS[0] != TOOL_USE[0] && END_TURN[0] != MAX_TOKENS[0] && END_TURN[0] != TOOL_USE[0];
  }

  // ---- What a sequence of events says ----

  datatype Open = Nothing | InText | InTool

  /** Orderly: every argument delta so far came while a tool block was open. */
  datatype Assembly = Assembly(parts: seq<Part>, open: Open, stop: string, orderly: bool)

  const EMPTY := Assembly([], Nothing, "", true)

  function ExtendText(parts: seq<Part>, t: string): seq<Part> {
    if parts != [] && parts[|parts| - 1].Text? then parts[..|parts| - 1] + [Text(parts[|parts| - 1].text + t)] else parts + [Text(t)]
  }

  function ExtendArgs(parts: seq<Part>, args: string): seq<Part> {
    if parts != [] && parts[|parts| - 1].Tool? then
      parts[..|parts| - 1] + [parts[|parts| - 1].(args := parts[|parts| - 1].args + args)]
    else parts
  }

  function Feed(a: Assembly, e: Event): Assembly {
    match e
    case TextDelta(t) => a.(parts := if a.open.InText? then ExtendText(a.parts, t) else a.parts + [Text(t)], open := InText)
    case ToolStart(id, name) => a.(parts := a.parts + [Tool(id, name, "")], open := InTool)
    case ArgsDelta(args) => if a.open.InTool? then a.(parts := ExtendArgs(a.parts, args)) else a.(orderly := false)
    case BlockStop => a.(open := Nothing)
    case Finish(reason) => a.(stop := reason)
  }

  function FeedAll(a: Assembly, events: seq<Event>): Assembly
    decreases |events|
  {
    if events == [] then a else FeedAll(Feed(a, events[0]), events[1..])
  }

  function Assemble(events: seq<Event>): Assembly { FeedAll(EMPTY, events) }

  /** The last block has the kind that is open. */
  predicate Fits(a: Assembly) {
    && (a.open.InText? ==> a.parts != [] && a.parts[|a.parts| - 1].Text?)
    && (a.open.InTool? ==> a.parts != [] && a.parts[|a.parts| - 1].Tool?)
  }

  lemma {:induction false} FeedConcat(a: Assembly, x: seq<Event>, y: seq<Event>)
    ensures FeedAll(a, x + y) == FeedAll(FeedAll(a, x), y)
    decreases |x|
  {
    if x == [] {
      assert x + y == y;
    } else {
      assert (x + y)[1..] == x[1..] + y;
      FeedConcat(Feed(a, x[0]), x[1..], y);
    }
  }

  lemma {:induction false} FeedKeepsFit(a: Assembly, events: seq<Event>)
    requires Fits(a)
    ensures Fits(FeedAll(a, events))
    decreases |events|
  {
    if events != [] {
      FeedKeepsFit(Feed(a, events[0]), events[1..]);
    }
  }

  lemma {:induction false} DisorderStays(a: Assembly, events: seq<Event>)
    requires !a.orderly
    ensures !FeedAll(a, events).orderly
    decreases |events|
  {
    if events != [] {
      DisorderStays(Feed(a, events[0]), events[1..]);
    }
  }

  // ---- Content up to block boundaries: adjacent text merged, empty text and reasoning dropped ----

  function AddText(parts: seq<Part>, t: string): seq<Part> { if t == "" then parts else ExtendText(parts, t) }

  function AddPart(parts: seq<Part>, p: Part): seq<Part> {
    match p
    case Text(t) => AddText(parts, t)
    case Tool(_, _, _) => parts + [p]
    case Thinking(_) => parts
  }

  function Norm(parts: seq<Part>): seq<Part> {
    if parts == [] then [] else AddPart(Norm(parts[..|parts| - 1]), parts[|parts| - 1])
  }

  lemma NormAppend(parts: seq<Part>, p: Part)
    ensures Norm(parts + [p]) == AddPart(Norm(parts), p)
  {
    assert (parts + [p])[..|parts|] == parts;
  }

  lemma AddTextTwice(parts: seq<Part>, s: string, t: string)
    ensures AddText(AddText(parts, s), t) == AddText(parts, s + t)
  {
    if s == "" {
      assert s + t == t;
    } else if t == "" {
      assert s + t == s;
    } else if parts != [] && parts[|parts| - 1].Text? {
      var u := parts[|parts| - 1].text;
      assert (u + s) + t == u + (s + t);
      assert (parts[..|parts| - 1] + [Text(u + s)])[..|parts| - 1] == parts[..|parts| - 1];
    } else {
      assert (parts + [Text(s)])[..|parts|] == parts;
    }
  }

  lemma NormExtendText(parts: seq<Part>, t: string)
    requires parts != [] && parts[|parts| - 1].Text?
    ensures Norm(ExtendText(parts, t)) == AddText(Norm(parts), t)
  {
    var front, s := parts[..|parts| - 1], parts[|parts| - 1].text;
    NormAppend(front, Text(s + t));
    AddTextTwice(Norm(front), s, t);
  }

  lemma ExtendLastArgs(parts: seq<Part>, p: Part, args: string)
    requires p.Tool?
    ensures ExtendArgs(parts + [p], args) == parts + [p.(args := p.args + args)]
  {
    assert (parts + [p])[..|parts|] == parts;
  }

  lemma NormLastArgs(front: seq<Part>, p: Part, args: string)
    requires p.Tool?
    ensures Norm(front + [p.(args := p.args + args)]) == ExtendArgs(Norm(front + [p]), args)
  {
    NormAppend(front, p);
    NormAppend(front, p.(args := p.args + args));
    ExtendLastArgs(Norm(front), p, args);
  }

  lemma NormExtendArgs(parts: seq<Part>, args: string)
    requires parts != [] && parts[|parts| - 1].Tool?
    ensures Norm(ExtendArgs(parts, args)) == ExtendArgs(Norm(parts), args)
  {
    var front, p := parts[..|parts| - 1], parts[|parts| - 1];
    assert parts == front + [p];
    ExtendLastArgs(front, p, args);
    NormLastArgs(front, p, args);
  }

  /** What each event does to the content. */
  lemma FeedNorm(a: Assembly, e: Event)
    requires Fits(a) && (e.ArgsDelta? ==> a.open.InTool?)
    ensures Norm(Feed(a, e).parts) ==
      match e
      case TextDelta(t) => AddText(Norm(a.parts), t)
      case ToolStart(id, name) => Norm(a.parts) + [Tool(id, name, "")]
      case ArgsDelta(args) => ExtendArgs(Norm(a.parts), args)
      case _ => Norm(a.parts)
  {
    match e
    case TextDelta(t) => if a.open.InText? { NormExtendText(a.parts, t); } else { NormAppend(a.parts, Text(t)); }
    case ToolStart(id, name) => NormAppend(a.parts, Tool(id, name, ""));
    case ArgsDelta(args) => NormExtendArgs(a.parts, args);
    case _ =>
  }

  // ---- The two views a reader of OpenAI messages has ----

  function TextOf(parts: seq<Part>): string {
    if parts == [] then "" else TextOf(parts[..|parts| - 1]) + if parts[|parts| - 1].Text? then parts[|parts| - 1].text else ""
  }

  function ToolsOf(parts: seq<Part>): seq<Part> {
    if parts == [] then []
    else if parts[|parts| - 1].Tool? then ToolsOf(parts[..|parts| - 1]) + [parts[|parts| - 1]]
    else ToolsOf(parts[..|parts| - 1])
  }

  lemma ViewsAppend(parts: seq<Part>, p: Part)
    ensures TextOf(parts + [p]) == TextOf(parts) + if p.Text? then p.text else ""
    ensures ToolsOf(parts + [p]) == if p.Tool? then ToolsOf(parts) + [p] else ToolsOf(parts)
  {
    assert (parts + [p])[..|parts|] == parts;
  }

  lemma ViewsOfAddText(parts: seq<Part>, t: string)
    ensures TextOf(AddText(parts, t)) == TextOf(parts) + t
    ensures ToolsOf(AddText(parts, t)) == ToolsOf(parts)
  {
    if t == "" {
      assert TextOf(parts) + t == TextOf(parts);
    } else if parts != [] && parts[|parts| - 1].Text? {
      var front, u := parts[..|parts| - 1], parts[|parts| - 1].text;
      ViewsAppend(front, Text(u + t));
      assert parts == front + [Text(u)];
      ViewsAppend(front, Text(u));
      assert TextOf(front) + (u + t) == (TextOf(front) + u) + t;
    } else {
      ViewsAppend(parts, Text(t));
    }
  }

  lemma ViewsOfExtendArgs(parts: seq<Part>, args: string)
    requires parts != [] && parts[|parts| - 1].Tool?
    ensures TextOf(ExtendArgs(parts, args)) == TextOf(parts)
    ensures ToolsOf(parts) != [] && ToolsOf(ExtendArgs(parts, args)) == ExtendArgs(ToolsOf(parts), args)
    ensures ToolsOf(parts)[|ToolsOf(parts)| - 1] == parts[|parts| - 1]
  {
    var front, p := parts[..|parts| - 1], parts[|parts| - 1];
    assert parts == front + [p];
    ViewsAppend(front, p);
    ViewsAppend(front, p.(args := p.args + args));
  }
}
