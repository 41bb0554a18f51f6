/** Converting an OpenAI-wire stream to a Claude-wire one, chunk by chunk.

    The converter is a transducer over arbitrary chunk sequences.  It is fed every
    chunk in order; the last one is held back and fed with the billed usage, then
    the stream is closed. */
module ClaudeStream {
  datatype Option<T> = None | Some(value: T)

  datatype Usage = Usage(prompt: int, completion: int, cached: int, creation: int, includesCached: bool)

  datatype ClaudeUsage = ClaudeUsage(input: int, output: int, cacheCreation: int, cacheRead: int)

  datatype ToolCall = ToolCall(index: Option<int>, id: string, name: string, args: string)

  datatype Choice = Choice(tools: seq<ToolCall>, reasoning: string, content: string, finish: string)

  datatype Chunk = Chunk(choices: seq<Choice>, usage: Option<Usage>)
  {
    function Finish(): string { if choices == [] then "" else choices[0].finish }
  }

  datatype Kind = NoBlock | Text | Tools | Thinking

  datatype Event =
    | MessageStart
    | BlockStart(index: int, kind: Kind, id: string, name: string)
    | TextDelta(index: int, text: string)
    | ThinkingDelta(index: int, text: string)
    | JsonDelta(index: int, text: string)
    | BlockStop(index: int)
    | MessageDelta(stopReason: string, usage: ClaudeUsage)
    | MessageStop
  {
    /** An event of the message body. */
    predicate Plain() { !MessageStart? && !MessageDelta? && !MessageStop? }
  }

  /** input_tokens excludes both cache terms on the Claude wire. */
  function TerminalUsage(u: Usage): ClaudeUsage {
    var n := u.prompt - u.cached - u.creation;
    ClaudeUsage(if !u.includesCached then u.prompt else if n < 0 then 0 else n, u.completion, u.creation, u.cached)
  }

  function StopReason(reason: string): string {
    match reason
    case "stop" => "end_turn"
    case "length" => "max_tokens"
    case "max_tokens" => "max_tokens"
    case "tool_calls" => "tool_use"
    case _ => reason
  }

  // ---------------------------------------------------------------- what a client reads

  /** The three kinds of content a message carries. */
  datatype Content = Content(text: string, thinking: string, args: string)
  {
    function Plus(c: Content): Content {
      Content(Join(text, c.text), Join(thinking, c.thinking), Join(args, c.args))
    }
  }

  /** Concatenation. */
  function Join(a: string, b: string): string {
    if b == "" then a else a + b
  }

  lemma JoinAssociates(a: string, b: string, c: string)
    ensures Join(Join(a, b), c) == Join(a, b + c)
  {
    if b == "" {
      assert b + c == c;
    } else if c == "" {
      assert b + c == b;
    } else {
      assert a + b + c == a + (b + c);
    }
  }

  const NOTHING := Content("", "", "")

  /** The block opened last and not stopped since. */
  datatype Open = Shut | Block(index: int, kind: Kind)
  {
    predicate NoneOrTools() { Shut? || kind.Tools? }
  }

  /** Text and thinking deltas stay inside a block of their kind and index, tool
      arguments never land in a text or thinking block, a text block opens only when
      none is open, a tool block never opens inside a text or thinking block, and a
      stop names the open block unless that is a tool block. */
  predicate Allowed(o: Open, e: Event) {
    match e
    case TextDelta(index, _) => o == Block(index, Text)
    case ThinkingDelta(index, _) => o == Block(index, Thinking)
    case JsonDelta(_, _) => o.NoneOrTools()
    case BlockStart(_, kind, _, _) => (kind.Text? ==> o.Shut?) && (kind.Tools? ==> o.NoneOrTools())
    case BlockStop(index) => o.NoneOrTools() || o.index == index
    case _ => true
  }

  /** Blocks never overlap: one starts only when none is open, a stop names the open one,
      and every delta lies in the open block of its kind and index. */
  predicate Nests(o: Open, e: Event) {
    match e
    case TextDelta(index, _) => o == Block(index, Text)
    case ThinkingDelta(index, _) => o == Block(index, Thinking)
    case JsonDelta(index, _) => o == Block(index, Tools)
    case BlockStart(_, _, _, _) => o.Shut?
    case BlockStop(index) => o.Block? && o.index == index
    case _ => true
  }

  /** A tool block announced, or arguments received for one. */
  datatype Mark = Announced(block: int, id: string, name: string) | Filled(block: int, args: string)

  /** What a client knows after some events: whether they were all body events, their
      content, the open block, whether each event came where it is allowed, whether
      blocks never overlapped, and the tool calls it was told of. */
  datatype View = View(plain: bool, content: Content, open: Open, placed: bool, nested: bool, marks: seq<Mark>)
  {
    /** The same, with more content. */
    predicate Grows(w: View, c: Content) { w.plain == plain && w.content == content.Plus(c) }
  }

  const FRESH := View(true, NOTHING, Shut, true, true, [])

  function Read(v: View, e: Event): View {
    View(v.plain && e.Plain(),
         match e
         case TextDelta(_, s) => v.content.(text := Join(v.content.text, s))
         case ThinkingDelta(_, s) => v.content.(thinking := Join(v.content.thinking, s))
         case JsonDelta(_, s) => v.content.(args := Join(v.content.args, s))
         case _ => v.content,
         match e
         case BlockStart(index, kind, _, _) => Block(index, kind)
         case BlockStop(_) => Shut
         case _ => v.open,
         v.placed && Allowed(v.open, e),
         v.nested && Nests(v.open, e),
         match e
         case BlockStart(index, kind, id, name) => if kind.Tools? then v.marks + [Announced(index, id, name)] else v.marks
         case JsonDelta(index, args) => v.marks + [Filled(index, args)]
         case _ => v.marks)
  }

  function ReadAll(v: View, es: seq<Event>): View {
    if es == [] then v else Read(ReadAll(v, es[..|es| - 1]), es[|es| - 1])
  }

  lemma {:induction false} Snoc(v: View, es: seq<Event>, e: Event)
    ensures ReadAll(v, es + [e]) == Read(ReadAll(v, es), e)
  {
    assert (es + [e])[..|es|] == es;
  }

  lemma {:induction false} ReadAppends(v: View, a: seq<Event>, b: seq<Event>)
    ensures ReadAll(v, a + b) == ReadAll(ReadAll(v, a), b)
    decreases |b|
  {
    if b == [] {
      assert a + b == a;
    } else {
      var n := |b| - 1;
      ReadAppends(v, a, b[..n]);
      Snoc(v, a + b[..n], b[n]);
      assert a + b[..n] + [b[n]] == a + b;
    }
  }

  /** A client that saw only body events saw no message-level event. */
  lemma {:induction false} PlainThroughout(v: View, es: seq<Event>)
    requires ReadAll(v, es).plain
    ensures forall e | e in es :: e.Plain()
  {
    if es != [] {
      PlainThroughout(v, es[..|es| - 1]);
      assert es == es[..|es| - 1] + [es[|es| - 1]];
    }
  }

  // ---------------------------------------------------------------- what the converter keeps

  function ArgsOf(tools: seq<ToolCall>): string {
    if tools == [] then "" else ArgsOf(tools[..|tools| - 1]) + tools[|tools| - 1].args
  }

  /** What is kept of one choice.  The first chunk of a stream reads one tool call
      and, besides, reasoning or text; a later one reads tool calls, or else
      reasoning, or else text. */
  function KeptOf(choice: Choice, first: bool): Content {
    var tools := if first && choice.tools != [] then choice.tools[..1] else choice.tools;
    if tools != [] && !first then Content("", "", ArgsOf(tools))
    else Content(if choice.reasoning != "" then "" else choice.content, choice.reasoning, ArgsOf(tools))
  }

  /** Only the first choice of a chunk is read. */
  function Kept(c: Chunk, first: bool): Content {
    if c.choices == [] then NOTHING else KeptOf(c.choices[0], first)
  }

  /** A first chunk does not mix tool calls with text. */
  predicate Unmixed(choice: Choice) { choice.tools == [] || choice.reasoning != "" || choice.content == "" }

  /** No text or reasoning is read from this choice of a later chunk. */
  predicate Mute(choice: Choice) { choice.tools != [] || (choice.reasoning == "" && choice.content == "") }

  /** A chunk in its usual place: the first does not mix tool calls with text, and
      none brings text or reasoning after a finish reason. */
  predicate Orderly(c: Chunk, first: bool, finish: string) {
    c.choices == [] || ((first ==> Unmixed(c.choices[0])) && (finish != "" ==> Mute(c.choices[0])))
  }

  /** The closing pair. */
  function Pair(finish: string, u: Usage): seq<Event> {
    [MessageDelta(StopReason(finish), TerminalUsage(u)), MessageStop]
  }

  /** What a client knows after a named tool call opened its block and its arguments
      arrived. */
  function AfterTool(v: View, call: ToolCall, block: int): View {
    var w := if call.name != "" then Read(v, BlockStart(block, Tools, call.id, call.name)) else v;
    if call.args != "" then Read(w, JsonDelta(block, call.args)) else w
  }

  lemma AfterToolGrows(v: View, call: ToolCall, block: int)
    ensures v.Grows(AfterTool(v, call, block), Content("", "", call.args))
    ensures v.open.NoneOrTools() ==>
              AfterTool(v, call, block).placed == v.placed && AfterTool(v, call, block).open.NoneOrTools()
  {}

  /** What a client knows once the block of a delta is reached: the one before stopped
      if need be, the new one started if need be. */
  function Entered(v: View, stop: bool, start: bool, index: int, kind: Kind): View {
    var w := if stop then Read(v, BlockStop(index - 1)) else v;
    if start then Read(w, BlockStart(index, kind, "", "")) else w
  }

  /** What the client knows, and the kind and number of the block the converter is in. */
  datatype Progress = Progress(view: View, last: Kind, index: int)

  /** The block a tool call belongs to: its own index if it has one. */
  function BlockOf(call: ToolCall, i: nat, n: nat, index: int): int {
    match call.index
    case Some(at) => at
    case None => if n > 1 then index + i else index
  }

  /** After the first `k` tool calls of a later chunk. */
  function AfterTools(v: View, index: int, tools: seq<ToolCall>, k: nat): (View, int)
    requires k <= |tools|
  {
    if k == 0 then (v, index)
    else
      var (w, at) := AfterTools(v, index, tools, k - 1);
      var block := BlockOf(tools[k - 1], k - 1, |tools|, at);
      (AfterTool(w, tools[k - 1], block), block)
  }

  /** After the tool call of the first chunk. */
  function AfterFirstTool(v: View, tools: seq<ToolCall>, index: int): View {
    if tools == [] then v
    else
      var w := Read(v, BlockStart(0, Tools, tools[0].id, tools[0].name));
      if tools[0].args != "" then Read(w, JsonDelta(index, tools[0].args)) else w
  }

  function AfterFirst(s: Progress, choice: Choice): Progress {
    var w := AfterFirstTool(s.view, choice.tools, s.index);
    if choice.reasoning != "" then
      Progress(Read(Read(w, BlockStart(s.index, Thinking, "", "")), ThinkingDelta(s.index, choice.reasoning)), Thinking, s.index)
    else if choice.content != "" then
      Progress(Read(Read(w, BlockStart(s.index, Text, "", "")), TextDelta(s.index, choice.content)), Text, s.index)
    else Progress(w, if choice.tools == [] then s.last else Tools, s.index)
  }

  function AfterCalls(s: Progress, tools: seq<ToolCall>): Progress {
    var (w, at) := if s.last == Tools then AfterTools(s.view, s.index, tools, |tools|)
                   else AfterTools(Read(s.view, BlockStop(s.index)), s.index + 1, tools, |tools|);
    Progress(w, Tools, at)
  }

  function AfterPlain(s: Progress, reasoning: string, text: string): Progress {
    if reasoning != "" then
      var w := Entered(s.view, false, s.last != Thinking, s.index, Thinking);
      Progress(Read(w, ThinkingDelta(s.index, reasoning)), Thinking, s.index)
    else if text != "" then
      var stop := s.last in {Thinking, Tools};
      var index := if stop then s.index + 1 else s.index;
      Progress(Read(Entered(s.view, stop, s.last != Text, index, Text), TextDelta(index, text)), Text, index)
    else s
  }

  function AfterChoice(s: Progress, choice: Choice, first: bool): Progress {
    if first then AfterFirst(s, choice)
    else if choice.tools != [] then AfterCalls(s, choice.tools)
    else AfterPlain(s, choice.reasoning, choice.content)
  }

  /** After one chunk: its content, and a stop if it finishes. */
  function AfterChunk(s: Progress, c: Chunk, first: bool): Progress {
    if c.choices == [] then s
    else
      var t := AfterChoice(s, c.choices[0], first);
      if c.Finish() != "" then t.(view := Read(t.view, BlockStop(t.index))) else t
  }

  /** `o` is a block a converter in this state takes for open. */
  predicate Believes(last: Kind, index: int, o: Open) {
    match last
    case NoBlock => o.Shut?
    case Tools => o.NoneOrTools()
    case _ => o == Block(index, last)
  }

  lemma {:induction false} FirstArgs(tools: seq<ToolCall>)
    requires tools != []
    ensures ArgsOf(tools[..1]) == tools[0].args
  {
    assert tools[..1] == [tools[0]] && tools[..1][..0] == [] && ArgsOf([]) == "";
  }

  lemma AfterFirstView(s: Progress, choice: Choice)
    requires s.view == FRESH && s.last == NoBlock
    ensures var t := AfterFirst(s, choice);
            && FRESH.Grows(t.view, KeptOf(choice, true))
            && (Unmixed(choice) ==> t.view.placed && Believes(t.last, t.index, t.view.open))
  {
    if choice.tools != [] {
      FirstArgs(choice.tools);
    }
  }

  lemma {:induction false} AfterToolsView(v: View, index: int, tools: seq<ToolCall>, k: nat)
    requires k <= |tools|
    ensures var w := AfterTools(v, index, tools, k).0;
            && v.Grows(w, Content("", "", ArgsOf(tools[..k])))
            && (v.placed && v.open.NoneOrTools() ==> w.placed && w.open.NoneOrTools())
  {
    if k > 0 {
      AfterToolsView(v, index, tools, k - 1);
      var (w, at) := AfterTools(v, index, tools, k - 1);
      AfterToolGrows(w, tools[k - 1], BlockOf(tools[k - 1], k - 1, |tools|, at));
      assert tools[..k][..k - 1] == tools[..k - 1];
      JoinAssociates(v.content.args, ArgsOf(tools[..k - 1]), tools[k - 1].args);
    }
  }

  lemma {:induction false} AfterCallsView(s: Progress, tools: seq<ToolCall>)
    ensures var t := AfterCalls(s, tools);
            && s.view.Grows(t.view, Content("", "", ArgsOf(tools)))
            && (s.view.placed && (Believes(s.last, s.index, s.view.open) || s.view.open.NoneOrTools()) ==>
                  t.view.placed && t.view.open.NoneOrTools())
  {
    assert tools[..|tools|] == tools;
    if s.last == Tools {
      AfterToolsView(s.view, s.index, tools, |tools|);
    } else {
      AfterToolsView(Read(s.view, BlockStop(s.index)), s.index + 1, tools, |tools|);
    }
  }

  lemma AfterPlainView(s: Progress, reasoning: string, text: string)
    ensures var t := AfterPlain(s, reasoning, text);
            && s.view.Grows(t.view, Content(if reasoning != "" then "" else text, reasoning, ""))
            && (s.view.placed && Believes(s.last, s.index, s.view.open) ==>
                  t.view.placed && Believes(t.last, t.index, t.view.open))
  {}

  // ---------------------------------------------------------------- the converter

  class Converter {
    var index: int
    var last: Kind
    var finish: string
    var done: bool
    var usage: Option<Usage>
    var count: nat

    constructor ()
      ensures index == 0 && last == NoBlock && finish == "" && !done && usage == None && count == 0
    {
      index, last, finish, done, usage, count := 0, NoBlock, "", false, None, 0;
    }

    /** `o` is the block this converter believes to be open. */
    ghost predicate Tracks(o: Open)
      reads this`index, this`last
    {
      Believes(last, index, o)
    }

    ghost function Now(v: View): Progress
      reads this`index, this`last
    {
      Progress(v, last, index)
    }

    /** Before a finish reason the converter knows the open block; after one, no text
        or thinking block is open. */
    ghost predicate Settled(v: View)
      reads this`index, this`last, this`finish
    {
      v.placed && if finish == "" then Tracks(v.open) else v.open.NoneOrTools()
    }

    /** claudeTerminalEvents: the closing pair, once usage is known. */
    method TerminalEvents(reported: Option<Usage>) returns (es: seq<Event>)
      modifies this`done
      ensures reported.None? && usage.None? ==> es == [] && done == old(done)
      ensures reported.Some? || usage.Some? ==>
                done && es == Pair(finish, if reported.Some? then reported.value else usage.value)
    {
      var known := if reported.Some? then reported else usage;
      if known.None? {
        return [];
      }
      done := true;
      return [MessageDelta(StopReason(finish), TerminalUsage(known.value)), MessageStop];
    }

    /** The tool call of the first chunk. */
    method FirstTool(tools: seq<ToolCall>, ghost v: View) returns (es: seq<Event>)
      requires v == FRESH && last == NoBlock
      modifies this`last
      ensures last == if tools == [] then NoBlock else Tools
      ensures ReadAll(v, es) == AfterFirstTool(v, tools, index)
    {
      es := [];
      if tools != [] {
        last := Tools;
        Snoc(v, es, BlockStart(0, Tools, tools[0].id, tools[0].name));
        es := es + [BlockStart(0, Tools, tools[0].id, tools[0].name)];
        if tools[0].args != "" {
          Snoc(v, es, JsonDelta(index, tools[0].args));
          es := es + [JsonDelta(index, tools[0].args)];
        }
      }
    }

    /** The content of the first chunk. */
    method FirstContent(choice: Choice, ghost v: View) returns (es: seq<Event>)
      requires v == FRESH && last == NoBlock
      modifies this`last
      ensures v.Grows(ReadAll(v, es), KeptOf(choice, true))
      ensures Unmixed(choice) ==> ReadAll(v, es).placed && Tracks(ReadAll(v, es).open)
      ensures Now(ReadAll(v, es)) == AfterFirst(old(Now(v)), choice)
    {
      AfterFirstView(Now(v), choice);
      es := FirstTool(choice.tools, v);
      if choice.reasoning != "" {
        es := FirstBlock(es, Thinking, ThinkingDelta(index, choice.reasoning), v);
        last := Thinking;
      } else if choice.content != "" {
        es := FirstBlock(es, Text, TextDelta(index, choice.content), v);
        last := Text;
      }
    }

    /** A block opened and filled on the first chunk. */
    method FirstBlock(es: seq<Event>, kind: Kind, delta: Event, ghost v: View) returns (out: seq<Event>)
      requires delta.Plain()
      ensures ReadAll(v, out) == Read(Read(ReadAll(v, es), BlockStart(index, kind, "", "")), delta)
    {
      Snoc(v, es, BlockStart(index, kind, "", ""));
      Snoc(v, es + [BlockStart(index, kind, "", "")], delta);
      out := es + [BlockStart(index, kind, "", "")] + [delta];
    }

    /** One tool call of a later chunk, in block `block`. */
    method OneTool(call: ToolCall, block: int, ghost v: View) returns (es: seq<Event>)
      ensures ReadAll(v, es) == AfterTool(v, call, block)
    {
      es := [];
      if call.name != "" {
        Snoc(v, es, BlockStart(block, Tools, call.id, call.name));
        es := es + [BlockStart(block, Tools, call.id, call.name)];
      }
      if call.args != "" {
        Snoc(v, es, JsonDelta(block, call.args));
        es := es + [JsonDelta(block, call.args)];
      }
    }

    /** Tool call `i` of a later chunk, after `es`. */
    method NextTool(tools: seq<ToolCall>, i: nat, es: seq<Event>, ghost v: View) returns (out: seq<Event>)
      requires i < |tools|
      modifies this`index
      ensures index == BlockOf(tools[i], i, |tools|, old(index))
      ensures ReadAll(v, out) == AfterTool(ReadAll(v, es), tools[i], index)
    {
      var block := match tools[i].index case Some(at) => at case None => if |tools| > 1 then index + i else index;
      var events := OneTool(tools[i], block, ReadAll(v, es));
      ReadAppends(v, es, events);
      out := es + events;
      index := block;
    }

    /** The blocks of a later chunk's tool calls. */
    method ToolBlocks(tools: seq<ToolCall>, ghost v: View) returns (es: seq<Event>)
      modifies this`index
      ensures (ReadAll(v, es), index) == AfterTools(v, old(index), tools, |tools|)
    {
      es := [];
      for i := 0 to |tools|
        invariant (ReadAll(v, es), index) == AfterTools(v, old(index), tools, i)
      {
        es := NextTool(tools, i, es, v);
      }
    }

    /** The tool calls of a later chunk. */
    method ToolContent(tools: seq<ToolCall>, ghost v: View) returns (es: seq<Event>)
      requires tools != []
      modifies this`last, this`index
      ensures Now(ReadAll(v, es)) == AfterCalls(old(Now(v)), tools)
      ensures v.Grows(ReadAll(v, es), Content("", "", ArgsOf(tools)))
      ensures v.placed && (old(Tracks(v.open)) || v.open.NoneOrTools()) ==>
                ReadAll(v, es).placed && ReadAll(v, es).open.NoneOrTools()
    {
      AfterCallsView(Now(v), tools);
      es := [];
      if last != Tools {
        Snoc(v, [], BlockStop(index));
        es := es + [BlockStop(index)];
        index := index + 1;
      }
      last := Tools;
      var events := ToolBlocks(tools, ReadAll(v, es));
      ReadAppends(v, es, events);
      es := es + events;
    }

    /** A thinking block is opened unless one is open. */
    method EnterThinking(ghost v: View) returns (es: seq<Event>)
      modifies this`last
      ensures last == Thinking && ReadAll(v, es) == Entered(v, false, old(last) != Thinking, index, Thinking)
    {
      es := [];
      if last != Thinking {
        Snoc(v, es, BlockStart(index, Thinking, "", ""));
        es := es + [BlockStart(index, Thinking, "", "")];
      }
      last := Thinking;
    }

    /** A text block is opened unless one is open; a thinking or tool block before it
        is stopped first. */
    method EnterText(ghost v: View) returns (es: seq<Event>)
      modifies this`last, this`index
      ensures last == Text && index == if old(last) in {Thinking, Tools} then old(index) + 1 else old(index)
      ensures ReadAll(v, es) == Entered(v, old(last) in {Thinking, Tools}, old(last) != Text, index, Text)
    {
      es := [];
      if last != Text {
        if last == Thinking || last == Tools {
          Snoc(v, es, BlockStop(index));
          es := es + [BlockStop(index)];
          index := index + 1;
        }
        Snoc(v, es, BlockStart(index, Text, "", ""));
        es := es + [BlockStart(index, Text, "", "")];
      }
      last := Text;
    }

    /** The reasoning or text of a later chunk. */
    method PlainContent(reasoning: string, text: string, ghost v: View) returns (es: seq<Event>)
      modifies this`last, this`index
      ensures v.Grows(ReadAll(v, es), Content(if reasoning != "" then "" else text, reasoning, ""))
      ensures reasoning == "" && text == "" ==> es == [] && index == old(index) && last == old(last)
      ensures v.placed && old(Tracks(v.open)) ==> ReadAll(v, es).placed && Tracks(ReadAll(v, es).open)
      ensures Now(ReadAll(v, es)) == AfterPlain(old(Now(v)), reasoning, text)
    {
      AfterPlainView(Now(v), reasoning, text);
      es := [];
      if reasoning != "" {
        es := EnterThinking(v);
        Snoc(v, es, ThinkingDelta(index, reasoning));
        es := es + [ThinkingDelta(index, reasoning)];
      } else if text != "" {
        es := EnterText(v);
        Snoc(v, es, TextDelta(index, text));
        es := es + [TextDelta(index, text)];
      }
    }

    /** StreamResponseOpenAI2Claude on the content of a chunk that has a choice. */
    method ContentEvents(choice: Choice, ghost v: View) returns (es: seq<Event>)
      requires count > 0 && (count == 1 ==> last == NoBlock && v == FRESH)
      modifies this`index, this`last
      ensures v.Grows(ReadAll(v, es), KeptOf(choice, count == 1))
      ensures v.placed && old(Tracks(v.open)) && (count == 1 ==> Unmixed(choice)) ==>
                ReadAll(v, es).placed && Tracks(ReadAll(v, es).open)
      ensures v.placed && v.open.NoneOrTools() && count > 1 && Mute(choice) ==>
                ReadAll(v, es).placed && ReadAll(v, es).open.NoneOrTools()
      ensures Now(ReadAll(v, es)) == AfterChoice(old(Now(v)), choice, count == 1)
    {
      if count == 1 {
        es := FirstContent(choice, v);
      } else if choice.tools != [] {
        es := ToolContent(choice.tools, v);
      } else {
        es := PlainContent(choice.reasoning, choice.content, v);
      }
    }

    /** StreamResponseOpenAI2Claude, on a converter that has not sent the closing pair
        (one that has returns nothing and is not called here).
        `body` is the part between the opening event of the first chunk and the
        closing pair; `v` is what the client has read of the body before. */
    method Convert(c: Chunk, ghost v: View) returns (es: seq<Event>, ghost body: seq<Event>)
      requires !done && count > 0 && (count == 1 ==> last == NoBlock && v == FRESH && finish == "")
      modifies this`index, this`last, this`finish, this`done
      ensures finish == if c.Finish() != "" then c.Finish() else old(finish)
      ensures done == (c.Finish() != "" && (c.usage.Some? || usage.Some?))
      ensures es == (if count == 1 then [MessageStart] else []) + body
                  + (if done then Pair(finish, if c.usage.Some? then c.usage.value else usage.value) else [])
      ensures v.Grows(ReadAll(v, body), Kept(c, count == 1))
      ensures old(Settled(v)) && Orderly(c, count == 1, old(finish)) ==> Settled(ReadAll(v, body))
      ensures Now(ReadAll(v, body)) == AfterChunk(old(Now(v)), c, count == 1)
    {
      es, body := if count == 1 then [MessageStart] else [], [];
      if c.choices == [] {
        return;
      }
      var choice := c.choices[0];
      var content := ContentEvents(choice, v);
      body := content;
      if choice.finish != "" {
        finish := choice.finish;
        Snoc(v, content, BlockStop(index));
        body := content + [BlockStop(index)];
        var pair := TerminalEvents(c.usage);
        es := es + (content + [BlockStop(index)]) + pair;
      } else {
        es := es + content;
      }
    }

    /** CloseClaudeStream. */
    method Close(ghost v: View) returns (es: seq<Event>, ghost body: seq<Event>)
      modifies this`finish, this`usage, this`done
      ensures old(done) ==> es == [] && body == [] && finish == old(finish)
      ensures !old(done) ==>
                && finish == (if old(finish) == "" then "stop" else old(finish))
                && usage == Some(if old(usage).Some? then old(usage).value else Usage(0, 0, 0, 0, false))
                && es == body + Pair(finish, usage.value)
      ensures v.Grows(ReadAll(v, body), NOTHING)
      ensures old(Settled(v)) ==> ReadAll(v, body).placed
      ensures ReadAll(v, body) == if old(done) || old(finish) != "" then v else Read(v, BlockStop(index))
    {
      es, body := [], [];
      if done {
        return;
      }
      if finish == "" {
        Snoc(v, [], BlockStop(index));
        es := es + [BlockStop(index)];
        body := es;
        finish := "stop";
      }
      if usage.None? {
        usage := Some(Usage(0, 0, 0, 0, false));
      }
      var pair := TerminalEvents(None);
      es := es + pair;
    }

    /** The stream `p` has been converted, without a closing pair, into a body that
        reads as `v`. */
    ghost predicate Going(p: seq<Chunk>, v: View)
      reads this
    {
      && !done && count == |p| && finish == LastFinish(p)
      && (p == [] ==> v == FRESH && last == NoBlock)
      && Now(v) == ProgressOf(p)
      && v.plain && v.content == KeptTotal(p)
      && (OrderlyRun(p) ==> Settled(v))
    }

    /** handleClaudeFormat and claudeLastChunkEvents: count the chunk, note the usage,
        convert.  A streamed chunk brings its own usage, the last one the billed. */
    method Feed(c: Chunk, known: Option<Usage>, ghost p: seq<Chunk>, ghost v: View)
      returns (es: seq<Event>, ghost more: seq<Event>)
      requires Going(p, v)
      modifies this
      ensures usage == if known.Some? then known else old(usage)
      ensures done == (c.Finish() != "" && (c.usage.Some? || usage.Some?))
      ensures es == (if p == [] then [MessageStart] else []) + more
                  + (if done then Pair(finish, if c.usage.Some? then c.usage.value else usage.value) else [])
      ensures finish == LastFinish(p + [c]) && count == |p + [c]|
      ensures ReadAll(v, more).plain && ReadAll(v, more).content == KeptTotal(p + [c])
      ensures OrderlyRun(p + [c]) ==> Settled(ReadAll(v, more))
      ensures Now(ReadAll(v, more)) == ProgressOf(p + [c])
    {
      Note(known);
      OneMore(p, c);
      es, more := Convert(c, v);
    }

    /** One more chunk is counted, and its usage noted. */
    method Note(known: Option<Usage>)
      modifies this`count, this`usage
      ensures count == old(count) + 1 && usage == if known.Some? then known else old(usage)
    {
      count := count + 1;
      if known.Some? {
        usage := known;
      }
    }

    /** handleClaudeFormat, as a step of the whole stream. */
    method Extend(c: Chunk, ghost p: seq<Chunk>, ghost sent: seq<Event>, ghost body: seq<Event>)
      returns (es: seq<Event>, ghost grown: seq<Event>)
      requires Going(p, ReadAll(FRESH, body)) && usage == LastUsage(p) && Sent(sent, body, p)
      modifies this
      ensures usage == LastUsage(p + [c]) && done == (c.Finish() != "" && usage.Some?)
      ensures done ==> sent + es == [MessageStart] + grown + Pair(c.Finish(), usage.value) && Bears(grown, p + [c])
      ensures !done ==> Sent(sent + es, grown, p + [c]) && Going(p + [c], ReadAll(FRESH, grown))
    {
      ghost var more;
      es, more := Feed(c, c.usage, p, ReadAll(FRESH, body));
      OneMore(p, c);
      ReadAppends(FRESH, body, more);
      Regroup(sent, body, p, more, if done then Pair(finish, usage.value) else [], es);
      grown := body + more;
    }

    /** HandleFinalResponse: the held-back last chunk with the billed usage, then the
        close. */
    method Finish(c: Chunk, billed: Usage, ghost p: seq<Chunk>, ghost sent: seq<Event>, ghost body: seq<Event>)
      returns (es: seq<Event>, ghost grown: seq<Event>)
      requires Going(p, ReadAll(FRESH, body)) && Sent(sent, body, p)
      modifies this
      ensures Bears(grown, p + [c])
      ensures sent + es == [MessageStart] + grown
                         + Pair(if LastFinish(p + [c]) == "" then "stop" else LastFinish(p + [c]),
                                if c.Finish() != "" && c.usage.Some? then c.usage.value else billed)
    {
      ghost var more, rest;
      es, more := Feed(c, Some(billed), p, ReadAll(FRESH, body));
      ReadAppends(FRESH, body, more);
      ghost var view, closed := ReadAll(FRESH, body + more), done;
      assert closed ==> c.Finish() != "" && finish != "" by { OneMore(p, c); }
      var tail;
      tail, rest := Close(view);
      ReadAppends(FRESH, body + more, rest);
      grown := body + more + rest;
      Rejoin(sent, body, p, more, rest, es, tail, closed,
             Pair(finish, if c.Finish() != "" && c.usage.Some? then c.usage.value else billed));
      es := es + tail;
    }
  }

  /** A stream grows by one chunk. */
  lemma {:induction false} OneMore(p: seq<Chunk>, c: Chunk)
    ensures KeptTotal(p + [c]) == KeptTotal(p).Plus(Kept(c, p == []))
    ensures LastFinish(p + [c]) == if c.Finish() != "" then c.Finish() else LastFinish(p)
    ensures LastUsage(p + [c]) == if c.usage.Some? then c.usage else LastUsage(p)
    ensures OrderlyRun(p + [c]) == (OrderlyRun(p) && Orderly(c, p == [], LastFinish(p)))
    ensures ProgressOf(p + [c]) == AfterChunk(ProgressOf(p), c, p == [])
  {
    assert (p + [c])[..|p|] == p;
  }

  // ---------------------------------------------------------------- whole streams

  function KeptTotal(p: seq<Chunk>): Content {
    if p == [] then NOTHING else KeptTotal(p[..|p| - 1]).Plus(Kept(p[|p| - 1], |p| == 1))
  }

  function ProgressOf(p: seq<Chunk>): Progress {
    if p == [] then Progress(FRESH, NoBlock, 0) else AfterChunk(ProgressOf(p[..|p| - 1]), p[|p| - 1], |p| == 1)
  }

  /** The whole body of a stream: one that never finished is stopped at the close. */
  function Ended(p: seq<Chunk>): View {
    var s := ProgressOf(p);
    if LastFinish(p) == "" then Read(s.view, BlockStop(s.index)) else s.view
  }

  /** The last finish reason seen. */
  function LastFinish(p: seq<Chunk>): string {
    if p == [] then "" else if p[|p| - 1].Finish() != "" then p[|p| - 1].Finish() else LastFinish(p[..|p| - 1])
  }

  /** The last usage seen. */
  function LastUsage(p: seq<Chunk>): Option<Usage> {
    if p == [] then None else if p[|p| - 1].usage.Some? then p[|p| - 1].usage else LastUsage(p[..|p| - 1])
  }

  predicate OrderlyRun(p: seq<Chunk>) {
    p == [] || (OrderlyRun(p[..|p| - 1]) && Orderly(p[|p| - 1], |p| == 1, LastFinish(p[..|p| - 1])))
  }

  /** The closing pair can go out with chunk number `k`: it finishes, and usage is
      known from the stream or, on the last chunk, from billing. */
  predicate ClosesOn(chunks: seq<Chunk>, k: nat) {
    0 < k <= |chunks| && chunks[k - 1].Finish() != "" && (k == |chunks| || LastUsage(chunks[..k]).Some?)
  }

  predicate NoneCloses(chunks: seq<Chunk>, n: nat) {
    forall k: nat | k < n :: !ClosesOn(chunks, k)
  }

  /** The first `n` chunks are converted: up to the first that can close, or all. */
  predicate Converted(chunks: seq<Chunk>, n: nat) {
    0 < n <= |chunks| && (n < |chunks| ==> ClosesOn(chunks, n)) && NoneCloses(chunks, n)
  }

  /** The finish reason and the figures the client is told. */
  function ClosingPair(chunks: seq<Chunk>, n: nat, billed: Usage): seq<Event>
    requires Converted(chunks, n)
  {
    var c, finish := chunks[n - 1], LastFinish(chunks[..n]);
    Pair(if finish == "" then "stop" else finish,
         if c.Finish() != "" && c.usage.Some? then c.usage.value
         else if n == |chunks| then billed
         else LastUsage(chunks[..n]).value)
  }

  /** A body that carries what is kept of `p`, every event in its place if `p` is
      orderly. */
  ghost predicate Bears(body: seq<Event>, p: seq<Chunk>) {
    var v := ReadAll(FRESH, body);
    v.plain && v.content == KeptTotal(p) && (OrderlyRun(p) ==> v.placed) && v == Ended(p)
  }

  /** What the client receives for a converted stream. */
  ghost predicate Delivers(out: seq<Event>, body: seq<Event>, chunks: seq<Chunk>, n: nat, billed: Usage) {
    && Converted(chunks, n)
    && out == [MessageStart] + body + ClosingPair(chunks, n, billed)
    && Bears(body, chunks[..n])
  }

  /** The head `p` of the stream went out as `sent`, without a closing pair. */
  ghost predicate Sent(sent: seq<Event>, body: seq<Event>, p: seq<Chunk>) {
    if p == [] then sent == body == [] else sent == [MessageStart] + body
  }

  lemma Regroup(sent: seq<Event>, body: seq<Event>, p: seq<Chunk>, more: seq<Event>, pair: seq<Event>, es: seq<Event>)
    requires Sent(sent, body, p) && es == (if p == [] then [MessageStart] else []) + more + pair
    ensures sent + es == [MessageStart] + (body + more) + pair
  {}

  /** A streamed chunk closes the message exactly when it can. */
  lemma ClosedEarly(out: seq<Event>, body: seq<Event>, chunks: seq<Chunk>, i: nat, billed: Usage)
    requires i < |chunks| - 1 && NoneCloses(chunks, i + 1) && Bears(body, chunks[..i + 1])
    requires chunks[i].Finish() != "" && LastUsage(chunks[..i + 1]).Some?
    requires out == [MessageStart] + body + Pair(chunks[i].Finish(), LastUsage(chunks[..i + 1]).value)
    ensures Delivers(out, body, chunks, i + 1, billed)
  {
    assert ClosesOn(chunks, i + 1);
    assert chunks[..i + 1][..i] == chunks[..i];
  }

  /** The first `i` chunks are converted, or the stream is closed already. */
  ghost predicate Heading(conv: Converter, chunks: seq<Chunk>, i: nat, out: seq<Event>, n: nat, body: seq<Event>, billed: Usage)
    requires i <= |chunks|
    reads conv
  {
    if conv.done then Delivers(out, body, chunks, n, billed)
    else
      && conv.Going(chunks[..i], ReadAll(FRESH, body)) && conv.usage == LastUsage(chunks[..i])
      && NoneCloses(chunks, i + 1) && Sent(out, body, chunks[..i])
  }

  lemma NoneClosesNext(chunks: seq<Chunk>, i: nat)
    requires i + 1 < |chunks| && NoneCloses(chunks, i + 1)
    requires chunks[i].Finish() == "" || LastUsage(chunks[..i + 1]).None?
    ensures NoneCloses(chunks, i + 2)
  {
    assert !ClosesOn(chunks, i + 1);
  }

  /** One chunk but the last. */
  method ConvertOne(conv: Converter, chunks: seq<Chunk>, i: nat, ghost billed: Usage, sent: seq<Event>,
                    ghost m: nat, ghost b: seq<Event>)
    returns (out: seq<Event>, ghost n: nat, ghost body: seq<Event>)
    requires i < |chunks| - 1 && Heading(conv, chunks, i, sent, m, b, billed)
    modifies conv
    ensures Heading(conv, chunks, i + 1, out, n, body, billed)
  {
    if conv.done {
      return sent, m, b;
    }
    ghost var p := chunks[..i];
    assert p + [chunks[i]] == chunks[..i + 1];
    var es;
    es, body := conv.Extend(chunks[i], p, sent, b);
    out, n := sent + es, i + 1;
    if conv.done {
      ClosedEarly(out, body, chunks, i, billed);
    } else {
      NoneClosesNext(chunks, i);
    }
  }

  /** Every chunk but the last, as it arrives. */
  method ConvertHead(conv: Converter, chunks: seq<Chunk>, ghost billed: Usage)
    returns (out: seq<Event>, ghost n: nat, ghost body: seq<Event>)
    requires chunks != [] && conv.Going([], FRESH) && conv.usage == None
    modifies conv
    ensures conv.done ==> Delivers(out, body, chunks, n, billed)
    ensures !conv.done ==> conv.Going(chunks[..|chunks| - 1], ReadAll(FRESH, body)) && NoneCloses(chunks, |chunks|)
    ensures !conv.done ==> Sent(out, body, chunks[..|chunks| - 1])
  {
    out, n, body := [], 0, [];
    assert chunks[..0] == [];
    for i := 0 to |chunks| - 1
      invariant Heading(conv, chunks, i, out, n, body, billed)
    {
      out, n, body := ConvertOne(conv, chunks, i, billed, out, n, body);
    }
  }

  lemma Rejoin(sent: seq<Event>, body: seq<Event>, p: seq<Chunk>, more: seq<Event>, rest: seq<Event>,
               es: seq<Event>, tail: seq<Event>, closed: bool, pair: seq<Event>)
    requires Sent(sent, body, p)
    requires es == (if p == [] then [MessageStart] else []) + more + (if closed then pair else [])
    requires if closed then rest == tail == [] else tail == rest + pair
    ensures sent + (es + tail) == [MessageStart] + (body + more + rest) + pair
  {
    Regroup(sent, body, p, more, if closed then pair else [], es);
    if closed {
      assert es + tail == es && body + more + rest == body + more;
    } else {
      assert sent + (es + tail) == (sent + es) + (rest + pair);
    }
  }

  /** One opening event, first; one closing pair, last; nothing of the kind between. */
  ghost predicate Framed(out: seq<Event>) {
    && |out| >= 3
    && forall i | 0 <= i < |out| ::
         && (out[i].MessageStart? <==> i == 0)
         && (out[i].MessageDelta? <==> i == |out| - 2)
         && (out[i].MessageStop? <==> i == |out| - 1)
  }

  lemma DeliveredIsFramed(out: seq<Event>, body: seq<Event>, chunks: seq<Chunk>, n: nat, billed: Usage)
    requires Delivers(out, body, chunks, n, billed)
    ensures Framed(out)
  {
    PlainThroughout(FRESH, body);
    var pair := ClosingPair(chunks, n, billed);
    assert |out| == |body| + 3 && out[|out| - 2] == pair[0] && out[|out| - 1] == pair[1];
    forall i | 1 <= i < |out| - 2
      ensures out[i].Plain()
    {
      assert out[i] == body[i - 1] && body[i - 1] in body;
    }
  }

  /** The close on the last chunk. */
  lemma {:induction false} ClosedLast(out: seq<Event>, body: seq<Event>, chunks: seq<Chunk>, billed: Usage)
    requires chunks != [] && NoneCloses(chunks, |chunks|) && Bears(body, chunks)
    requires var c := chunks[|chunks| - 1];
             out == [MessageStart] + body
                  + Pair(if LastFinish(chunks) == "" then "stop" else LastFinish(chunks),
                         if c.Finish() != "" && c.usage.Some? then c.usage.value else billed)
    ensures Delivers(out, body, chunks, |chunks|, billed)
  {
    assert chunks[..|chunks|] == chunks;
  }

  /** From the first chunk to the close. */
  method ConvertAll(chunks: seq<Chunk>, billed: Usage) returns (out: seq<Event>, ghost n: nat, ghost body: seq<Event>)
    requires chunks != []
    ensures Delivers(out, body, chunks, n, billed)
  {
    var conv := new Converter();
    out, n, body := ConvertHead(conv, chunks, billed);
    if !conv.done {
      var last := |chunks| - 1;
      var es;
      es, body := conv.Finish(chunks[last], billed, chunks[..last], out, body);
      assert chunks[..last] + [chunks[last]] == chunks;
      out, n := out + es, |chunks|;
      ClosedLast(out, body, chunks, billed);
    }
  }

  /** The whole stream.  One without any chunk is not answered. */
  method ConvertStream(chunks: seq<Chunk>, billed: Usage) returns (out: seq<Event>, ghost n: nat, ghost body: seq<Event>)
    ensures chunks == [] ==> out == []
    ensures chunks != [] ==> Delivers(out, body, chunks, n, billed) && Framed(out)
  {
    if chunks == [] {
      return [], 0, [];
    }
    out, n, body := ConvertAll(chunks, billed);
    DeliveredIsFramed(out, body, chunks, n, billed);
  }

  // ---------------------------------------------------------------- tool calls

  /** The tool calls read from a stream, in order: one from the first chunk, every one
      from a later chunk. */
  function CallsOf(p: seq<Chunk>): seq<ToolCall> {
    if p == [] then []
    else
      var n := |p| - 1;
      CallsOf(p[..n]) + (if p[n].choices == [] then [] else Calls(p[n].choices[0].tools, n == 0))
  }

  function Calls(tools: seq<ToolCall>, first: bool): seq<ToolCall> {
    if first && tools != [] then tools[..1] else tools
  }

  /** The first chunk brings a tool call. */
  predicate OpensWithCall(p: seq<Chunk>) {
    p != [] && p[0].choices != [] && p[0].choices[0].tools != []
  }

  /** How one call shows on the wire: announced by id and name, on the first chunk always
      and later when it has a name, then its arguments, both in the same block. */
  function MarksOfCall(call: ToolCall, block: int, always: bool): seq<Mark> {
    (if always || call.name != "" then [Announced(block, call.id, call.name)] else [])
    + (if call.args != "" then [Filled(block, call.args)] else [])
  }

  function MarksOf(calls: seq<ToolCall>, blocks: seq<int>, opens: bool): seq<Mark>
    requires |blocks| == |calls|
  {
    if calls == [] then []
    else
      var n := |calls| - 1;
      MarksOf(calls[..n], blocks[..n], opens) + MarksOfCall(calls[n], blocks[n], opens && n == 0)
  }

  /** A call that names its block is in it; the call of a first chunk is in block 0. */
  predicate InPlace(calls: seq<ToolCall>, blocks: seq<int>, opens: bool) {
    && |blocks| == |calls|
    && forall i | 0 <= i < |calls| ::
         if opens && i == 0 then blocks[i] == 0 else calls[i].index.Some? ==> blocks[i] == calls[i].index.value
  }

  lemma {:induction false} MarksSnoc(calls: seq<ToolCall>, blocks: seq<int>, call: ToolCall, block: int, opens: bool)
    requires |blocks| == |calls|
    ensures MarksOf(calls + [call], blocks + [block], opens)
         == MarksOf(calls, blocks, opens) + MarksOfCall(call, block, opens && calls == [])
  {
    assert (calls + [call])[..|calls|] == calls && (blocks + [block])[..|calls|] == blocks;
  }

  lemma Associates(a: seq<Mark>, b: seq<Mark>, c: seq<Mark>)
    ensures a + b + c == a + (b + c)
  {}

  lemma {:induction false} MarksAppend(a: seq<ToolCall>, x: seq<int>, b: seq<ToolCall>, y: seq<int>, opens: bool)
    requires |x| == |a| && |y| == |b| && (opens ==> a != [])
    ensures MarksOf(a + b, x + y, opens) == MarksOf(a, x, opens) + MarksOf(b, y, false)
    decreases |b|
  {
    if b == [] {
      assert a + b == a && x + y == x;
    } else {
      var n := |b| - 1;
      var m := MarksOfCall(b[n], y[n], false);
      var front, back := MarksOf(a, x, opens), MarksOf(b[..n], y[..n], false);
      assert MarksOf(a + b, x + y, opens) == front + back + m by {
        MarksAppend(a, x, b[..n], y[..n], opens);
        MarksSnoc(a + b[..n], x + y[..n], b[n], y[n], opens);
        assert a + b[..n] + [b[n]] == a + b && x + y[..n] + [y[n]] == x + y;
      }
      assert MarksOf(b, y, false) == back + m;
      Associates(front, back, m);
    }
  }

  lemma ToolMarks(v: View, call: ToolCall, block: int)
    ensures AfterTool(v, call, block).marks == v.marks + MarksOfCall(call, block, false)
  {}

  lemma {:induction false} ToolsMark(v: View, index: int, tools: seq<ToolCall>, k: nat) returns (blocks: seq<int>)
    requires k <= |tools|
    ensures InPlace(tools[..k], blocks, false)
    ensures AfterTools(v, index, tools, k).0.marks == v.marks + MarksOf(tools[..k], blocks, false)
  {
    blocks := [];
    if k > 0 {
      var before := ToolsMark(v, index, tools, k - 1);
      var (w, at) := AfterTools(v, index, tools, k - 1);
      var call := tools[k - 1];
      var block := BlockOf(call, k - 1, |tools|, at);
      ToolMarks(w, call, block);
      MarksSnoc(tools[..k - 1], before, call, block, false);
      assert tools[..k - 1] + [call] == tools[..k];
      assert AfterTools(v, index, tools, k).0.marks == w.marks + MarksOfCall(call, block, false);
      blocks := before + [block];
    }
  }

  lemma {:induction false} LaterMarks(s: Progress, tools: seq<ToolCall>) returns (blocks: seq<int>)
    ensures InPlace(tools, blocks, false)
    ensures AfterCalls(s, tools).view.marks == s.view.marks + MarksOf(tools, blocks, false)
  {
    if s.last == Tools {
      blocks := ToolsMark(s.view, s.index, tools, |tools|);
    } else {
      blocks := ToolsMark(Read(s.view, BlockStop(s.index)), s.index + 1, tools, |tools|);
    }
    assert tools[..|tools|] == tools;
  }

  lemma {:induction false} FirstMarks(s: Progress, choice: Choice) returns (blocks: seq<int>)
    requires s == Progress(FRESH, NoBlock, 0)
    ensures InPlace(Calls(choice.tools, true), blocks, choice.tools != [])
    ensures AfterFirst(s, choice).view.marks == MarksOf(Calls(choice.tools, true), blocks, choice.tools != [])
  {
    blocks := [];
    if choice.tools != [] {
      blocks := [0];
      assert MarksOf([], [], true) == [];
      assert choice.tools[..1][..0] == [] && blocks[..0] == [];
      assert AfterFirstTool(s.view, choice.tools, 0).marks == [] + MarksOfCall(choice.tools[0], 0, true);
    }
  }

  lemma {:induction false} ChunkMarks(s: Progress, c: Chunk, first: bool) returns (blocks: seq<int>)
    requires first ==> s == Progress(FRESH, NoBlock, 0)
    ensures var calls := if c.choices == [] then [] else Calls(c.choices[0].tools, first);
            && InPlace(calls, blocks, first && calls != [])
            && AfterChunk(s, c, first).view.marks == s.view.marks + MarksOf(calls, blocks, first && calls != [])
  {
    blocks := [];
    if c.choices != [] {
      var choice := c.choices[0];
      if first {
        blocks := FirstMarks(s, choice);
        assert s.view.marks == [];
      } else if choice.tools != [] {
        blocks := LaterMarks(s, choice.tools);
      }
      assert AfterChunk(s, c, first).view.marks == AfterChoice(s, choice, first).view.marks;
    }
  }

  lemma {:induction false} StreamMarks(p: seq<Chunk>) returns (blocks: seq<int>)
    ensures InPlace(CallsOf(p), blocks, OpensWithCall(p))
    ensures ProgressOf(p).view.marks == MarksOf(CallsOf(p), blocks, OpensWithCall(p))
  {
    blocks := [];
    if p != [] {
      var n := |p| - 1;
      var before := StreamMarks(p[..n]);
      var more := ChunkMarks(ProgressOf(p[..n]), p[n], n == 0);
      var calls := if p[n].choices == [] then [] else Calls(p[n].choices[0].tools, n == 0);
      assert CallsOf(p) == CallsOf(p[..n]) + calls;
      blocks := before + more;
      if n == 0 {
        assert CallsOf(p) == calls && blocks == more;
      } else {
        MarksGrow(p, n, before, calls, more);
      }
    }
  }

  lemma {:induction false} MarksGrow(p: seq<Chunk>, n: nat, before: seq<int>, calls: seq<ToolCall>, more: seq<int>)
    requires 0 < n == |p| - 1
    requires InPlace(CallsOf(p[..n]), before, OpensWithCall(p[..n])) && InPlace(calls, more, false)
    ensures InPlace(CallsOf(p[..n]) + calls, before + more, OpensWithCall(p))
    ensures MarksOf(CallsOf(p[..n]) + calls, before + more, OpensWithCall(p))
         == MarksOf(CallsOf(p[..n]), before, OpensWithCall(p[..n])) + MarksOf(calls, more, false)
  {
    assert p[..n][0] == p[0];
    if OpensWithCall(p[..n]) {
      OpeningCallCounts(p[..n]);
    }
    MarksAppend(CallsOf(p[..n]), before, calls, more, OpensWithCall(p));
  }

  lemma {:induction false} OpeningCallCounts(p: seq<Chunk>)
    requires OpensWithCall(p)
    ensures CallsOf(p) != []
  {
    if |p| > 1 {
      OpeningCallCounts(p[..|p| - 1]);
    }
  }

  /** Every tool call of every stream reaches the client once, in order, and under its own
      id and name: what the client is told is exactly the calls read upstream, each
      announced and then filled in one block, the block it names if it names one. */
  lemma {:induction false} CallsReachClient(out: seq<Event>, body: seq<Event>, chunks: seq<Chunk>, n: nat, billed: Usage)
    returns (blocks: seq<int>)
    requires Delivers(out, body, chunks, n, billed)
    ensures InPlace(CallsOf(chunks[..n]), blocks, OpensWithCall(chunks))
    ensures ReadAll(FRESH, body).marks == MarksOf(CallsOf(chunks[..n]), blocks, OpensWithCall(chunks))
  {
    blocks := StreamMarks(chunks[..n]);
    assert OpensWithCall(chunks[..n]) == OpensWithCall(chunks);
  }

  /** A lone call that names no block goes on in the block the converter is in after tool
      content, and opens the next one after anything else. */
  lemma {:induction false} UnindexedCall(s: Progress, call: ToolCall)
    requires call.index.None?
    ensures var t := AfterCalls(s, [call]);
            && t.index == (if s.last == Tools then s.index else s.index + 1) && t.last == Tools
            && t.view.marks == s.view.marks + MarksOfCall(call, t.index, false)
  {
    OneCall(s.view, s.index, [call]);
    OneCall(Read(s.view, BlockStop(s.index)), s.index + 1, [call]);
    var v := if s.last == Tools then s.view else Read(s.view, BlockStop(s.index));
    var at := if s.last == Tools then s.index else s.index + 1;
    assert AfterTool(v, call, at).marks == v.marks + MarksOfCall(call, at, false);
  }

  function Triangle(n: nat): nat {
    if n == 0 then 0 else Triangle(n - 1) + n
  }

  lemma {:induction false} TriangleExceeds(n: nat)
    ensures Triangle(n) >= n && (Triangle(n) == n <==> n <= 1)
  {
    if n > 0 {
      TriangleExceeds(n - 1);
    }
  }

  lemma {:induction false} UnindexedBlock(v: View, index: int, tools: seq<ToolCall>, i: nat)
    requires i < |tools| && |tools| > 1 && forall call | call in tools :: call.index.None?
    ensures AfterTools(v, index, tools, i + 1).1 == index + Triangle(i)
  {
    assert tools[i] in tools;
    if i > 0 {
      UnindexedBlock(v, index, tools, i - 1);
    } else {
      assert AfterTools(v, index, tools, 0) == (v, index);
    }
  }

  /** The block of call `i` of a later chunk. */
  function BlockAt(v: View, index: int, tools: seq<ToolCall>, i: nat): int
    requires i < |tools|
  {
    AfterTools(v, index, tools, i + 1).1
  }

  /** Calls that arrive together without indexes are each moved on by their position from
      the block of the call before, not from the first.  So they are numbered one after
      the other exactly when there are no more than two; from the third on, numbers are
      skipped. */
  lemma {:induction false} UnindexedCallsDrift(v: View, index: int, tools: seq<ToolCall>)
    requires |tools| > 1 && forall call | call in tools :: call.index.None?
    ensures (forall i: nat | i < |tools| :: BlockAt(v, index, tools, i) == index + i) <==> |tools| <= 2
  {
    forall i: nat | i < |tools|
      ensures BlockAt(v, index, tools, i) == index + i <==> i <= 1
    {
      UnindexedBlock(v, index, tools, i);
      TriangleExceeds(i);
    }
    if |tools| > 2 {
      assert BlockAt(v, index, tools, 2) != index + 2;
    }
  }

  // ---------------------------------------------------------------- the closing pair

  /** What the client is told at the end.  The stop reason translates the last finish
      reason seen, "stop" when there was none; the usage is that of the closing chunk if
      it brought one, else the billed one if the stream ran to its end, else the last one
      seen.  Where the prompt count includes cached tokens, input and both cache terms add
      up to it unless the cache terms alone exceed it. */
  lemma ClosingFigures(out: seq<Event>, body: seq<Event>, chunks: seq<Chunk>, n: nat, billed: Usage)
    requires Delivers(out, body, chunks, n, billed)
    ensures |out| >= 3 && out[|out| - 2].MessageDelta?
    ensures var told, last := out[|out| - 2].stopReason, LastFinish(chunks[..n]);
            && (last in {"", "stop"} ==> told == "end_turn")
            && (last in {"length", "max_tokens"} ==> told == "max_tokens")
            && (last == "tool_calls" ==> told == "tool_use")
            && (last !in {"", "stop", "length", "max_tokens", "tool_calls"} ==> told == last)
    ensures var c, told := chunks[n - 1], out[|out| - 2].usage;
            && (c.Finish() != "" && c.usage.Some? ==> Tells(told, c.usage.value))
            && (n == |chunks| && (c.Finish() == "" || c.usage.None?) ==> Tells(told, billed))
            && (n < |chunks| && c.usage.None? ==> LastUsage(chunks[..n]).Some? && Tells(told, LastUsage(chunks[..n]).value))
  {
    var pair := ClosingPair(chunks, n, billed);
    assert |out| == |body| + 3 && out[|out| - 2] == pair[0];
    if n < |chunks| {
      assert ClosesOn(chunks, n);
    }
  }

  predicate Tells(told: ClaudeUsage, u: Usage) {
    && told.output == u.completion && told.cacheCreation == u.creation && told.cacheRead == u.cached
    && (!u.includesCached ==> told.input == u.prompt)
    && (u.includesCached && u.cached + u.creation <= u.prompt ==> told.input + told.cacheCreation + told.cacheRead == u.prompt)
    && (u.includesCached && u.cached + u.creation > u.prompt ==> told.input == 0)
  }

  // ---------------------------------------------------------------- nesting

  /** Every block that starts is stopped, none overlaps another, and every delta lies in
      its own. */
  predicate Balanced(v: View) { v.nested && v.open.Shut? }

  /** The kind of content read from a chunk. */
  function Says(c: Chunk): Kind {
    if c.choices == [] then NoBlock
    else if c.choices[0].tools != [] then Tools
    else if c.choices[0].reasoning != "" then Thinking
    else if c.choices[0].content != "" then Text
    else NoBlock
  }

  predicate Names(c: Chunk) { Says(c) == Tools && c.choices[0].tools[0].name != "" }

  /** One tool call at a time, as a model that calls tools one by one streams them: with
      no index, or index 0 throughout (`indexed`), a name or arguments, and not mixed with text on the first
      chunk. */
  predicate Simple(c: Chunk, first: bool, indexed: bool) {
    Says(c) == Tools ==>
      var choice := c.choices[0];
      && |choice.tools| == 1 && choice.tools[0].index == (if indexed then Some(0) else None)
      && (choice.tools[0].name != "" || choice.tools[0].args != "")
      && (first ==> choice.reasoning == "" && choice.content == "")
  }

  predicate AllSimple(p: seq<Chunk>, indexed: bool) {
    forall i | 0 <= i < |p| :: Simple(p[i], i == 0, indexed)
  }

  /** Nothing is said, and nothing finishes, after a finish reason. */
  predicate EndsQuietly(p: seq<Chunk>) {
    forall i, j | 0 <= i < j < |p| && p[i].Finish() != "" :: Says(p[j]) == NoBlock && p[j].Finish() == ""
  }

  /** The kind of content read last. */
  function LastSaid(p: seq<Chunk>): Kind {
    if p == [] then NoBlock else if Says(p[|p| - 1]) != NoBlock then Says(p[|p| - 1]) else LastSaid(p[..|p| - 1])
  }

  /** What may follow what: reasoning only reasoning; text anything; a tool call starts
      with its name, after other content or on the first chunk, and goes on without. */
  predicate Fits(prev: Kind, c: Chunk, first: bool) {
    match Says(c)
    case Thinking => prev == NoBlock || prev == Thinking
    case Tools => first || if prev == Tools then !Names(c) else prev != NoBlock && Names(c)
    case _ => true
  }

  predicate Steady(p: seq<Chunk>) {
    p == [] || (Steady(p[..|p| - 1]) && Fits(LastSaid(p[..|p| - 1]), p[|p| - 1], |p| == 1))
  }

  /** The client's view of a stream that has nested so far. */
  predicate Nesting(s: Progress, said: Kind, finished: bool, indexed: bool) {
    && s.view.nested && s.last == said && (indexed && said == Tools ==> s.index == 0)
    && s.view.open == if finished || said == NoBlock then Shut else Block(s.index, said)
  }

  lemma {:induction false} OneCall(v: View, index: int, tools: seq<ToolCall>)
    requires |tools| == 1
    ensures var block := BlockOf(tools[0], 0, 1, index);
            AfterTools(v, index, tools, 1) == (AfterTool(v, tools[0], block), block)
  {
    assert AfterTools(v, index, tools, 0) == (v, index);
  }

  lemma ContentNests(s: Progress, c: Chunk, first: bool, prev: Kind, indexed: bool)
    requires Nesting(s, prev, false, indexed) && Simple(c, first, indexed) && c.choices != []
    requires first ==> s == Progress(FRESH, NoBlock, 0)
    ensures var t := AfterChoice(s, c.choices[0], first);
            if Fits(prev, c, first) then Nesting(t, if Says(c) == NoBlock then prev else Says(c), false, indexed)
            else !t.view.nested
  {
    if !first && Says(c) == Tools {
      OneCall(s.view, s.index, c.choices[0].tools);
      OneCall(Read(s.view, BlockStop(s.index)), s.index + 1, c.choices[0].tools);
    }
  }

  lemma ChunkNests(s: Progress, c: Chunk, first: bool, prev: Kind, finished: bool, indexed: bool)
    requires Nesting(s, prev, finished, indexed) && Simple(c, first, indexed)
    requires finished ==> Says(c) == NoBlock && c.Finish() == ""
    requires first ==> s == Progress(FRESH, NoBlock, 0) && !finished
    ensures var t, said := AfterChunk(s, c, first), if Says(c) == NoBlock then prev else Says(c);
            if Fits(prev, c, first) && (c.Finish() != "" ==> said != NoBlock) then
              Nesting(t, said, finished || c.Finish() != "", indexed)
            else !t.view.nested
  {
    if c.choices != [] && !finished {
      ContentNests(s, c, first, prev, indexed);
    }
  }

  lemma {:induction false} ToolsNestOnly(v: View, index: int, tools: seq<ToolCall>, k: nat)
    requires k <= |tools| && AfterTools(v, index, tools, k).0.nested
    ensures v.nested
  {
    if k > 0 {
      ToolsNestOnly(v, index, tools, k - 1);
    }
  }

  /** Blocks that overlapped stay overlapped. */
  lemma NestsOnly(s: Progress, c: Chunk, first: bool)
    requires AfterChunk(s, c, first).view.nested
    ensures s.view.nested
  {
    if c.choices != [] && !first && c.choices[0].tools != [] {
      var tools := c.choices[0].tools;
      if s.last == Tools {
        ToolsNestOnly(s.view, s.index, tools, |tools|);
      } else {
        ToolsNestOnly(Read(s.view, BlockStop(s.index)), s.index + 1, tools, |tools|);
      }
    }
  }

  lemma QuietHead(p: seq<Chunk>, n: nat)
    requires |p| == n + 1 && EndsQuietly(p)
    ensures EndsQuietly(p[..n])
  {}

  lemma {:induction false} FinishedBefore(p: seq<Chunk>) returns (i: nat)
    requires LastFinish(p) != ""
    ensures i < |p| && p[i].Finish() != ""
  {
    i := |p| - 1;
    if p[i].Finish() == "" {
      i := FinishedBefore(p[..i]);
    }
  }

  lemma {:induction false} StreamNests(p: seq<Chunk>, indexed: bool)
    requires AllSimple(p, indexed) && EndsQuietly(p)
    ensures var s := ProgressOf(p);
            if Steady(p) && (LastFinish(p) != "" ==> LastSaid(p) != NoBlock) then
              Nesting(s, LastSaid(p), LastFinish(p) != "", indexed)
            else !s.view.nested
  {
    if p != [] {
      var n := |p| - 1;
      var head, c := p[..n], p[n];
      QuietHead(p, n);
      StreamNests(head, indexed);
      if LastFinish(head) != "" {
        var i := FinishedBefore(head);
        assert p[i].Finish() != "";
      }
      if Steady(head) && (LastFinish(head) != "" ==> LastSaid(head) != NoBlock) {
        ChunkNests(ProgressOf(head), c, n == 0, LastSaid(head), LastFinish(head) != "", indexed);
      } else if ProgressOf(p).view.nested {
        NestsOnly(ProgressOf(head), c, n == 0);
      }
    }
  }

  /** Exactly which streams reach the client with balanced blocks, among those that call
      tools one by one and end quietly: something is said, reasoning comes before
      everything else, and each tool call is named once, where it starts. */
  lemma {:induction false} BalancedIffSteady(p: seq<Chunk>, indexed: bool)
    requires AllSimple(p, indexed) && EndsQuietly(p)
    ensures Balanced(Ended(p)) <==> LastSaid(p) != NoBlock && Steady(p)
  {
    StreamNests(p, indexed);
  }

  lemma {:induction false} NamedStaysOpen(v: View, index: int, tools: seq<ToolCall>, i: nat, k: nat)
    requires i < k <= |tools| && tools[i].name != ""
    ensures AfterTools(v, index, tools, k).0.open.Block?
    decreases k
  {
    if i < k - 1 {
      NamedStaysOpen(v, index, tools, i, k - 1);
    }
  }

  /** Two tool calls started by one chunk overlap, whatever came before: a chunk never
      stops the first block before it starts the second. */
  lemma ParallelCallsOverlap(s: Progress, tools: seq<ToolCall>, i: nat, j: nat)
    requires i < j < |tools| && tools[i].name != "" && tools[j].name != ""
    ensures !AfterCalls(s, tools).view.nested
  {
    if s.last == Tools {
      ParallelToolsOverlap(s.view, s.index, tools, i, j);
    } else {
      ParallelToolsOverlap(Read(s.view, BlockStop(s.index)), s.index + 1, tools, i, j);
    }
  }

  lemma {:induction false} ParallelToolsOverlap(v: View, index: int, tools: seq<ToolCall>, i: nat, j: nat)
    requires i < j < |tools| && tools[i].name != "" && tools[j].name != ""
    ensures !AfterTools(v, index, tools, |tools|).0.nested
  {
    NamedStaysOpen(v, index, tools, i, j);
    var (w, at) := AfterTools(v, index, tools, j);
    var block := BlockOf(tools[j], j, |tools|, at);
    NamedOverlaps(w, tools[j], block);
    assert AfterTools(v, index, tools, j + 1) == (AfterTool(w, tools[j], block), block);
    if AfterTools(v, index, tools, |tools|).0.nested {
      NestedThrough(v, index, tools, j + 1, |tools|);
    }
  }

  lemma NamedOverlaps(v: View, call: ToolCall, block: int)
    requires v.open.Block? && call.name != ""
    ensures !AfterTool(v, call, block).nested
  {}

  lemma {:induction false} NestedThrough(v: View, index: int, tools: seq<ToolCall>, j: nat, k: nat)
    requires j <= k <= |tools| && AfterTools(v, index, tools, k).0.nested
    ensures AfterTools(v, index, tools, j).0.nested
    decreases k
  {
    if j < k {
      NestedThrough(v, index, tools, j, k - 1);
    }
  }

  // ---------------------------------------------------------------- fidelity

  /** Everything the upstream put into these choices. */
  function OfChoices(cs: seq<Choice>): Content {
    if cs == [] then NOTHING
    else Content(cs[0].content, cs[0].reasoning, ArgsOf(cs[0].tools)).Plus(OfChoices(cs[1..]))
  }

  function Upstream(chunks: seq<Chunk>): Content {
    if chunks == [] then NOTHING
    else Upstream(chunks[..|chunks| - 1]).Plus(OfChoices(chunks[|chunks| - 1].choices))
  }

  predicate NoArgs(tools: seq<ToolCall>) {
    forall t | t in tools :: t.args == ""
  }

  predicate Silent(cs: seq<Choice>) {
    forall c | c in cs :: c.content == "" && c.reasoning == "" && NoArgs(c.tools)
  }

  /** Nothing of the chunk is passed over: only its first choice has content, of one
      kind, except that a first chunk may add one tool call with arguments. */
  predicate LossFree(c: Chunk, first: bool) {
    c.choices == [] ||
    var it := c.choices[0];
    && Silent(c.choices[1..])
    && (it.reasoning == "" || it.content == "")
    && if first then |it.tools| < 2 || NoArgs(it.tools[1..])
       else it.tools == [] || (it.reasoning == "" && it.content == "")
  }

  function Size(c: Content): nat { |c.text| + |c.thinking| + |c.args| }

  lemma {:induction false} ArgsSize(tools: seq<ToolCall>)
    ensures ArgsOf(tools) == "" <==> NoArgs(tools)
  {
    if tools != [] {
      var n := |tools| - 1;
      ArgsSize(tools[..n]);
      assert tools == tools[..n] + [tools[n]];
    }
  }

  lemma {:induction false} FirstCallIsPrefix(tools: seq<ToolCall>)
    requires tools != []
    ensures ArgsOf(tools) == ArgsOf(tools[..1]) + ArgsOf(tools[1..])
  {
    var n := |tools| - 1;
    if n == 0 {
      assert tools[..1] == tools && tools[1..] == [];
    } else {
      var head, mid, last := ArgsOf(tools[..1]), ArgsOf(tools[..n][1..]), tools[n].args;
      FirstCallIsPrefix(tools[..n]);
      assert tools[..n][..1] == tools[..1];
      assert ArgsOf(tools[1..]) == mid + last by {
        assert tools[1..][..n - 1] == tools[..n][1..];
      }
      assert head + mid + last == head + (mid + last);
    }
  }

  lemma {:induction false} SilentSize(cs: seq<Choice>)
    ensures Size(OfChoices(cs)) == 0 <==> Silent(cs)
  {
    if cs != [] {
      SilentSize(cs[1..]);
      ArgsSize(cs[0].tools);
      assert cs == [cs[0]] + cs[1..];
    }
  }

  /** One chunk loses content exactly when it is not loss-free. */
  lemma KeptSize(c: Chunk, first: bool)
    ensures Size(Kept(c, first)) <= Size(OfChoices(c.choices))
    ensures Size(Kept(c, first)) == Size(OfChoices(c.choices)) <==> LossFree(c, first)
    ensures LossFree(c, first) ==> Kept(c, first) == OfChoices(c.choices)
  {
    if c.choices != [] {
      SilentSize(c.choices[1..]);
      var tools := c.choices[0].tools;
      if tools != [] {
        FirstCallIsPrefix(tools);
        ArgsSize(tools[1..]);
      }
    }
  }

  predicate AllLossFree(p: seq<Chunk>) {
    forall k | 0 <= k < |p| :: LossFree(p[k], k == 0)
  }

  lemma SizeAdds(a: Content, b: Content)
    ensures Size(a.Plus(b)) == Size(a) + Size(b)
    ensures Size(b) == 0 ==> a.Plus(b) == a
  {}

  lemma LossFreeHead(p: seq<Chunk>, n: nat)
    requires |p| == n + 1
    ensures AllLossFree(p) <==> AllLossFree(p[..n]) && LossFree(p[n], n == 0)
  {}

  lemma {:induction false} KeptTotalSize(p: seq<Chunk>)
    ensures Size(KeptTotal(p)) <= Size(Upstream(p))
    ensures Size(KeptTotal(p)) == Size(Upstream(p)) <==> AllLossFree(p)
    ensures AllLossFree(p) ==> KeptTotal(p) == Upstream(p)
  {
    if p != [] {
      var n := |p| - 1;
      var head, kept, sent := p[..n], Kept(p[n], n == 0), OfChoices(p[n].choices);
      KeptTotalSize(head);
      KeptSize(p[n], n == 0);
      LossFreeHead(p, n);
      SizeAdds(KeptTotal(head), kept);
      SizeAdds(Upstream(head), sent);
    }
  }

  /** Only silence from chunk `n` on. */
  predicate SilentFrom(chunks: seq<Chunk>, n: nat) {
    forall k | n <= k < |chunks| :: Silent(chunks[k].choices)
  }

  lemma {:induction false} UpstreamNext(chunks: seq<Chunk>, n: nat)
    requires n < |chunks|
    ensures Upstream(chunks[..n + 1]) == Upstream(chunks[..n]).Plus(OfChoices(chunks[n].choices))
  {
    assert chunks[..n + 1][..n] == chunks[..n];
  }

  /** Nothing more comes from the upstream after the first `n` chunks exactly when the
      others are silent. */
  lemma {:induction false} TailSize(chunks: seq<Chunk>, n: nat)
    requires n <= |chunks|
    ensures Size(Upstream(chunks[..n])) <= Size(Upstream(chunks))
    ensures Size(Upstream(chunks[..n])) == Size(Upstream(chunks)) <==> SilentFrom(chunks, n)
    ensures SilentFrom(chunks, n) ==> Upstream(chunks[..n]) == Upstream(chunks)
    decreases |chunks| - n
  {
    if n == |chunks| {
      assert chunks[..n] == chunks;
    } else {
      TailSize(chunks, n + 1);
      UpstreamNext(chunks, n);
      SizeAdds(Upstream(chunks[..n]), OfChoices(chunks[n].choices));
      SilentSize(chunks[n].choices);
      assert SilentFrom(chunks, n) <==> Silent(chunks[n].choices) && SilentFrom(chunks, n + 1);
    }
  }

  /** The client reads exactly the text, thinking and tool arguments the upstream sent
      if and only if every converted chunk is loss-free and nothing but silence
      follows the closing pair. */
  lemma {:induction false} FaithfulIff(chunks: seq<Chunk>, n: nat)
    requires n <= |chunks|
    ensures KeptTotal(chunks[..n]) == Upstream(chunks) <==>
            AllLossFree(chunks[..n]) && SilentFrom(chunks, n)
  {
    KeptTotalSize(chunks[..n]);
    TailSize(chunks, n);
  }
}
