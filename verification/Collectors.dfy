/** The two collectors, which fold a stream into one message.

    JSON is opaque: `valid` stands for json.Valid, and a payload is given already decoded. */
module Collectors {
  import opened Common
  import opened StreamTypes
  import opened Sorting

  // ----- CollectOpenAIStream -----

  datatype ToolAcc = ToolAcc(id: string, name: string, args: string)

  const NO_TOOL := ToolAcc("", "", "")

  datatype OaiState = OaiState(
    text: string, tools: map<int, ToolAcc>, order: seq<int>, stop: string,
    model: string, usageIn: int, usageOut: int)

  const OAI_START := OaiState("", map[], [], "", "", 0, 0)

  function AddFragment(s: OaiState, tc: ToolDelta): OaiState {
    var known := tc.index in s.tools;
    var ta := if known then s.tools[tc.index] else NO_TOOL;
    var tb := ToolAcc(FirstNonEmpty(tc.id, ta.id), FirstNonEmpty(tc.name, ta.name), ta.args + tc.args);
    s.(tools := s.tools[tc.index := tb], order := if known then s.order else s.order + [tc.index])
  }

  function AddFragments(s: OaiState, tcs: seq<ToolDelta>): OaiState {
    if tcs == [] then s else AddFragment(AddFragments(s, tcs[..|tcs| - 1]), tcs[|tcs| - 1])
  }

  function AddHeader(s: OaiState, ch: Chunk): OaiState {
    s.(model := FirstNonEmpty(ch.model, s.model),
       usageIn := if ch.usage.Some? then ch.usage.value.prompt else s.usageIn,
       usageOut := if ch.usage.Some? then ch.usage.value.completion else s.usageOut)
  }

  function AddChunk(s: OaiState, p: Payload<Chunk>): OaiState {
    match p
    case Decoded(ch) =>
      var u := AddHeader(s, ch);
      if ch.choices == [] then u
      else
        var c := ch.choices[0];
        var v := if c.delta.None? then u
                 else AddFragments(u.(text := u.text + c.delta.value.content), c.delta.value.toolCalls);
        if c.finish.Some? && c.finish.value != "" then v.(stop := StopFromFinish(c.finish.value)) else v
    case _ => s
  }

  function AddChunks(s: OaiState, ps: seq<Payload<Chunk>>): OaiState {
    if ps == [] then s else AddChunk(AddChunks(s, ps[..|ps| - 1]), ps[|ps| - 1])
  }

  /** Arguments that are not valid JSON are replaced by an empty object. */
  function Normalize(raw: string, valid: string -> bool): string {
    if raw == "" || !valid(raw) then "{}" else raw
  }

  function OaiTool(i: int, ta: ToolAcc, valid: string -> bool, rand: int -> string): Block {
    Block(ToolUse, "", FirstNonEmpty(ta.id, rand(i)), ta.name, Normalize(ta.args, valid))
  }

  /** The tool blocks for a list of indices. */
  function OaiTools(s: OaiState, idxs: seq<int>, valid: string -> bool, rand: int -> string): seq<Block>
    requires forall k :: 0 <= k < |idxs| ==> idxs[k] in s.tools
  {
    seq(|idxs|, k requires 0 <= k < |idxs| => OaiTool(idxs[k], s.tools[idxs[k]], valid, rand))
  }

  function NonEmptyContent(content: seq<Block>): seq<Block> {
    if content == [] then [Block(Text, "", "", "", "")] else content
  }

  ghost predicate OaiWellFormed(s: OaiState) {
    forall i :: i in s.order <==> i in s.tools
  }

  function OaiUsageOf(s: OaiState): Usage {
    var out := if s.usageIn == 0 && s.usageOut == 0 then EstimateTokens(|s.text|) + |s.tools| * 60 else s.usageOut;
    Usage(s.usageIn, out, 0, 0)
  }

  function OaiMessage(s: OaiState, valid: string -> bool, id: string, rand: int -> string): Message
    requires forall k :: 0 <= k < |Sort(s.order)| ==> Sort(s.order)[k] in s.tools
  {
    var texts := if s.text != "" then [Block(Text, s.text, "", "", "")] else [];
    Message(id, FirstNonEmpty(s.model, "unknown"),
            NonEmptyContent(texts + OaiTools(s, Sort(s.order), valid, rand)),
            FirstNonEmpty(s.stop, "end_turn"), OaiUsageOf(s))
  }

  lemma {:induction false} FragmentsWellFormed(s: OaiState, tcs: seq<ToolDelta>)
    requires OaiWellFormed(s)
    ensures OaiWellFormed(AddFragments(s, tcs))
  {
    if tcs == [] {
    } else {
      FragmentsWellFormed(s, tcs[..|tcs| - 1]);
    }
  }

  lemma {:induction false} ChunksWellFormed(s: OaiState, ps: seq<Payload<Chunk>>)
    requires OaiWellFormed(s)
    ensures OaiWellFormed(AddChunks(s, ps))
  {
    if ps == [] {
    } else {
      ChunksWellFormed(s, ps[..|ps| - 1]);
      var u, p := AddChunks(s, ps[..|ps| - 1]), ps[|ps| - 1];
      if p.Decoded? && p.value.choices != [] && p.value.choices[0].delta.Some? {
        var d := p.value.choices[0].delta.value;
        var h := AddHeader(u, p.value);
        FragmentsWellFormed(h.(text := h.text + d.content), d.toolCalls);
      }
    }
  }

  lemma SortedKnown(s: OaiState)
    requires OaiWellFormed(s)
    ensures forall k :: 0 <= k < |Sort(s.order)| ==> Sort(s.order)[k] in s.tools
  {
    SortAscending(s.order);
    forall k | 0 <= k < |Sort(s.order)| ensures Sort(s.order)[k] in s.tools {
      assert Sort(s.order)[k] in Sort(s.order);
    }
  }

  /** What `CollectOpenAIStream` returns. */
  ghost function OaiCollected(src: Source<Chunk>, valid: string -> bool, id: string,
                              rand: int -> string): Option<Message> {
    if src.failed && !Finished(src.lines) then None
    else
      var s := AddChunks(OAI_START, Payloads(src.lines));
      ChunksWellFormed(OAI_START, Payloads(src.lines));
      SortedKnown(s);
      Some(OaiMessage(s, valid, id, rand))
  }

  method BuildTools(tools: map<int, ToolAcc>, order: seq<int>, valid: string -> bool, rand: int -> string)
    returns (content: seq<Block>)
    requires forall k :: 0 <= k < |order| ==> order[k] in tools
    ensures |content| == |order|
    ensures forall k :: 0 <= k < |order| ==> content[k] == OaiTool(order[k], tools[order[k]], valid, rand)
  {
    content := [];
    for k := 0 to |order|
      invariant |content| == k
      invariant forall j :: 0 <= j < k ==> content[j] == OaiTool(order[j], tools[order[j]], valid, rand)
    {
      content := content + [OaiTool(order[k], tools[order[k]], valid, rand)];
    }
  }

  /** The variables the scan callback of `CollectOpenAIStream` captures. */
  class OaiCollector {
    var text: string
    var tools: map<int, ToolAcc>
    var order: seq<int>
    var stop: string
    var model: string
    var usageIn: int
    var usageOut: int

    ghost function View(): OaiState
      reads this
    {
      OaiState(text, tools, order, stop, model, usageIn, usageOut)
    }

    constructor ()
      ensures View() == OAI_START
    {
      text, tools, order, stop, model, usageIn, usageOut := "", map[], [], "", "", 0, 0;
    }

    method Fragment(tc: ToolDelta)
      modifies this
      ensures View() == AddFragment(old(View()), tc)
    {
      if tc.index !in tools {
        tools := tools[tc.index := NO_TOOL];
        order := order + [tc.index];
      }
      var ta := tools[tc.index];
      if tc.id != "" { ta := ta.(id := tc.id); }
      if tc.name != "" { ta := ta.(name := tc.name); }
      tools := tools[tc.index := ta.(args := ta.args + tc.args)];
    }

    method ToolCalls(tcs: seq<ToolDelta>)
      modifies this
      ensures View() == AddFragments(old(View()), tcs)
    {
      for k := 0 to |tcs|
        invariant View() == AddFragments(old(View()), tcs[..k])
      {
        Fragment(tcs[k]);
        assert tcs[..k + 1][..k] == tcs[..k];
      }
      assert tcs[..|tcs|] == tcs;
    }

    method Handle(p: Payload<Chunk>)
      modifies this
      ensures View() == AddChunk(old(View()), p)
    {
      hide AddFragments;
      if !p.Decoded? { return; }
      var ch := p.value;
      if ch.model != "" { model := ch.model; }
      if ch.usage.Some? { usageIn, usageOut := ch.usage.value.prompt, ch.usage.value.completion; }
      if ch.choices == [] { return; }
      var c := ch.choices[0];
      if c.delta.Some? {
        text := text + c.delta.value.content;
        ToolCalls(c.delta.value.toolCalls);
      }
      if c.finish.Some? && c.finish.value != "" { stop := StopFromFinish(c.finish.value); }
    }

    method Finish(valid: string -> bool, id: string, rand: int -> string) returns (m: Message)
      requires OaiWellFormed(View())
      modifies this`order
      ensures order == Sort(old(order))
      ensures forall k :: 0 <= k < |Sort(old(order))| ==> Sort(old(order))[k] in old(tools)
      ensures m == OaiMessage(old(View()), valid, id, rand)
    {
      hide Sort, OaiTool, NonEmptyContent;
      var content: seq<Block> := [];
      if text != "" { content := [Block(Text, text, "", "", "")]; }
      SortedKnown(View());
      order := SortSlice(order);
      var blocks := BuildTools(tools, order, valid, rand);
      assert blocks == OaiTools(old(View()), order, valid, rand);
      content := content + blocks;
      var u := usageOut;
      if usageIn == 0 && usageOut == 0 { u := EstimateTokens(|text|) + |tools| * 60; }
      m := Message(id, FirstNonEmpty(model, "unknown"), NonEmptyContent(content), FirstNonEmpty(stop, "end_turn"),
                   Usage(usageIn, u, 0, 0));
    }
  }

  lemma OaiBegins()
    ensures !Finished<Chunk>([]) && AddChunks(OAI_START, Payloads<Chunk>([])) == OAI_START
  {
  }

  /** One line more. */
  lemma OaiLine(lines: seq<Line<Chunk>>, l: Line<Chunk>)
    requires !Finished(lines)
    ensures Finished(lines + [l]) <==> l == Data(Done)
    ensures var s := AddChunks(OAI_START, Payloads(lines));
            AddChunks(OAI_START, Payloads(lines + [l])) ==
            if l.Data? && l.payload != Done then AddChunk(s, l.payload) else s
  {
    PayloadsSnoc(lines, l);
    var ps := Payloads(lines);
    hide Payloads, AddChunk;
    if l.Data? && l.payload != Done { assert (ps + [l.payload])[..|ps|] == ps; }
    assert ps + [] == ps;
  }

  method CollectOpenAIStream(src: Source<Chunk>, valid: string -> bool, id: string, rand: int -> string)
    returns (r: Option<Message>)
    ensures r == OaiCollected(src, valid, id, rand)
  {
    hide Payloads, AddChunks, AddChunk, Finished;
    OaiBegins();
    var c := new OaiCollector();
    var k, marker := 0, false;
    while k < |src.lines| && !marker
      invariant 0 <= k <= |src.lines| && fresh(c)
      invariant marker == Finished(src.lines[..k])
      invariant c.View() == AddChunks(OAI_START, Payloads(src.lines[..k]))
      decreases |src.lines| - k, !marker
    {
      var line := src.lines[k];
      assert src.lines[..k + 1] == src.lines[..k] + [line];
      OaiLine(src.lines[..k], line);
      k := k + 1;
      if line.Data? {
        if line.payload == Done {
          marker := true;
        } else {
          c.Handle(line.payload);
        }
      }
    }
    assert src.lines == src.lines[..k] + src.lines[k..];
    if marker { PayloadsCut(src.lines[..k], src.lines[k..]); } else { assert src.lines[..k] == src.lines; }
    if src.failed && !marker { return None; }
    ChunksWellFormed(OAI_START, Payloads(src.lines));
    var m := c.Finish(valid, id, rand);
    r := Some(m);
  }

  // ----- CollectAnthropicStream -----

  datatype AnthState = AnthState(
    blocks: map<int, Block>, inputs: map<int, string>, order: seq<int>,
    id: string, model: string, stopReason: string, usage: Usage, halted: bool)

  function AnthStart(id: string): AnthState {
    AnthState(map[], map[], [], id, "", "", NO_USAGE, false)
  }

  ghost predicate AnthWellFormed(s: AnthState) {
    && s.blocks.Keys == s.inputs.Keys
    && forall i :: i in s.order <==> i in s.blocks
  }

  function OnChange(s: AnthState, j: int, c: BlockChange): AnthState {
    if j !in s.blocks || j !in s.inputs then s
    else match c
      case TextDelta(t) => s.(blocks := s.blocks[j := s.blocks[j].(text := s.blocks[j].text + t)])
      case InputJsonDelta(t) => s.(inputs := s.inputs[j := s.inputs[j] + t])
      case OtherDelta => s
  }

  function OnEvent(s: AnthState, e: Event): AnthState {
    match e
    case MessageStart(id, model, u) =>
      s.(id := FirstNonEmpty(id, s.id), model := model, usage := u.(output := s.usage.output))
    case BlockStart(j, Some(h)) =>
      s.(blocks := s.blocks[j := Block(h.kind, "", h.id, h.name, "")], inputs := s.inputs[j := ""],
         order := s.order + [j])
    case BlockDelta(j, Some(c)) => OnChange(s, j, c)
    case MessageDelta(top, _, u) =>
      s.(stopReason := FirstNonEmpty(top, s.stopReason),
         usage := if u.Some? && u.value.output > 0 then s.usage.(output := u.value.output) else s.usage)
    case ErrorEvent => s.(halted := true)
    case _ => s
  }

  function OnAnthPayload(s: AnthState, p: Payload<Event>): AnthState {
    if s.halted || !p.Decoded? then s else OnEvent(s, p.value)
  }

  function OnAnthPayloads(s: AnthState, ps: seq<Payload<Event>>): AnthState {
    if ps == [] then s else OnAnthPayload(OnAnthPayloads(s, ps[..|ps| - 1]), ps[|ps| - 1])
  }

  /** What becomes of one collected block: tool input is completed, thinking blocks are dropped. */
  function FinishBlock(b: Block, raw: string, valid: string -> bool): seq<Block> {
    if b.kind == Thinking then []
    else [if b.kind == ToolUse then b.(input := Normalize(raw, valid)) else b]
  }

  function FinishBlocks(s: AnthState, idxs: seq<int>, valid: string -> bool): seq<Block>
    requires forall k :: 0 <= k < |idxs| ==> idxs[k] in s.blocks && idxs[k] in s.inputs
  {
    if idxs == [] then []
    else FinishBlocks(s, idxs[..|idxs| - 1], valid) +
         FinishBlock(s.blocks[idxs[|idxs| - 1]], s.inputs[idxs[|idxs| - 1]], valid)
  }

  function AnthMessage(s: AnthState, valid: string -> bool): Message
    requires forall k :: 0 <= k < |Sort(s.order)| ==> Sort(s.order)[k] in s.blocks && Sort(s.order)[k] in s.inputs
  {
    Message(s.id, s.model, NonEmptyContent(FinishBlocks(s, Sort(s.order), valid)),
            FirstNonEmpty(s.stopReason, "end_turn"), s.usage)
  }

  lemma {:induction false} AnthStaysWellFormed(s: AnthState, ps: seq<Payload<Event>>)
    requires AnthWellFormed(s)
    ensures AnthWellFormed(OnAnthPayloads(s, ps))
  {
    if ps == [] {
    } else {
      AnthStaysWellFormed(s, ps[..|ps| - 1]);
    }
  }

  lemma AnthSortedKnown(s: AnthState)
    requires AnthWellFormed(s)
    ensures forall k :: 0 <= k < |Sort(s.order)| ==> Sort(s.order)[k] in s.blocks && Sort(s.order)[k] in s.inputs
  {
    SortAscending(s.order);
    forall k | 0 <= k < |Sort(s.order)| ensures Sort(s.order)[k] in s.blocks && Sort(s.order)[k] in s.inputs {
      assert Sort(s.order)[k] in Sort(s.order);
      assert Sort(s.order)[k] in s.blocks.Keys;
    }
  }

  /** What `CollectAnthropicStream` returns. An error event breaks the scan off; an error of the scanner is
      then returned only if it was recorded already. At the end marker none is returned. */
  ghost function AnthCollected(src: Source<Event>, valid: string -> bool, id: string): Option<Message> {
    var s := OnAnthPayloads(AnthStart(id), Payloads(src.lines));
    AnthStaysWellFormed(AnthStart(id), Payloads(src.lines));
    AnthSortedKnown(s);
    if src.failed && (if s.halted then src.early else !Finished(src.lines)) then None else Some(AnthMessage(s, valid))
  }

  /** Finishing reads the blocks and the inputs only. */
  lemma {:induction false} FinishReadsBlocks(s: AnthState, u: AnthState, idxs: seq<int>, valid: string -> bool)
    requires forall k :: 0 <= k < |idxs| ==> idxs[k] in s.blocks && idxs[k] in s.inputs
    requires u.blocks == s.blocks && u.inputs == s.inputs
    ensures FinishBlocks(u, idxs, valid) == FinishBlocks(s, idxs, valid)
  {
    if idxs == [] {
    } else {
      FinishReadsBlocks(s, u, idxs[..|idxs| - 1], valid);
    }
  }

  class AnthCollector {
    var blocks: map<int, Block>
    var inputs: map<int, string>
    var order: seq<int>
    var id: string
    var model: string
    var stopReason: string
    var usage: Usage
    var halted: bool

    ghost function View(): AnthState
      reads this
    {
      AnthState(blocks, inputs, order, id, model, stopReason, usage, halted)
    }

    constructor (id: string)
      ensures View() == AnthStart(id)
    {
      blocks, inputs, order := map[], map[], [];
      this.id, model, stopReason, usage, halted := id, "", "", NO_USAGE, false;
    }

    /** The scan callback; false asks the scan to stop. */
    method Handle(p: Payload<Event>) returns (more: bool)
      requires !halted
      modifies this
      ensures View() == OnAnthPayload(old(View()), p)
      ensures more == !halted
    {
      more := true;
      if !p.Decoded? { return; }
      match p.value
      case MessageStart(i, m, u) =>
        id, model := FirstNonEmpty(i, id), m;
        usage := Usage(u.input, usage.output, u.cacheRead, u.cacheWrite);
      case BlockStart(j, Some(h)) =>
        blocks := blocks[j := Block(h.kind, "", h.id, h.name, "")];
        inputs := inputs[j := ""];
        order := order + [j];
      case BlockDelta(j, Some(c)) =>
        if j in blocks && j in inputs {
          match c
          case TextDelta(t) => blocks := blocks[j := blocks[j].(text := blocks[j].text + t)];
          case InputJsonDelta(t) => inputs := inputs[j := inputs[j] + t];
          case OtherDelta =>
        }
      case MessageDelta(top, _, u) =>
        if top != "" { stopReason := top; }
        if u.Some? && u.value.output > 0 { usage := usage.(output := u.value.output); }
      case ErrorEvent =>
        halted, more := true, false;
      case _ =>
    }

    /** The blocks in the order listed. */
    method BuildBlocks(valid: string -> bool) returns (content: seq<Block>)
      requires forall k :: 0 <= k < |order| ==> order[k] in blocks && order[k] in inputs
      ensures content == FinishBlocks(View(), order, valid)
    {
      content := [];
      for k := 0 to |order|
        invariant content == FinishBlocks(View(), order[..k], valid)
      {
        var b, raw := blocks[order[k]], inputs[order[k]];
        if b.kind == ToolUse { b := b.(input := Normalize(raw, valid)); }
        assert order[..k + 1][..k] == order[..k];
        if b.kind != Thinking { content := content + [b]; }
      }
      assert order[..|order|] == order;
    }

    method Finish(valid: string -> bool) returns (m: Message)
      requires AnthWellFormed(View())
      modifies this
      ensures forall k :: 0 <= k < |Sort(old(order))| ==>
              Sort(old(order))[k] in old(blocks) && Sort(old(order))[k] in old(inputs)
      ensures m == AnthMessage(old(View()), valid)
    {
      ghost var s := View();
      AnthSortedKnown(s);
      order := SortSlice(order);
      var content := BuildBlocks(valid);
      FinishReadsBlocks(s, View(), order, valid);
      m := Message(id, model, NonEmptyContent(content), FirstNonEmpty(stopReason, "end_turn"), usage);
    }
  }

  lemma {:induction false} HaltedStays(s: AnthState, ps: seq<Payload<Event>>, more: seq<Payload<Event>>)
    requires OnAnthPayloads(s, ps).halted
    ensures OnAnthPayloads(s, ps + more) == OnAnthPayloads(s, ps)
  {
    if more == [] {
      assert ps + more == ps;
    } else {
      HaltedStays(s, ps, more[..|more| - 1]);
      assert (ps + more)[..|ps + more| - 1] == ps + more[..|more| - 1];
    }
  }

  lemma {:induction false} PayloadsPrefix<T>(lines: seq<Line<T>>, more: seq<Line<T>>)
    ensures Payloads(lines) <= Payloads(lines + more)
  {
    if lines != [] && lines[0] != Data(Done) {
      assert (lines + more)[1..] == lines[1..] + more;
      PayloadsPrefix(lines[1..], more);
    }
  }

  lemma AnthBegins(id: string)
    ensures !Finished<Event>([]) && OnAnthPayloads(AnthStart(id), Payloads<Event>([])) == AnthStart(id)
  {
  }

  /** One line more. */
  lemma AnthLine(lines: seq<Line<Event>>, l: Line<Event>, id: string)
    requires !Finished(lines)
    ensures Finished(lines + [l]) <==> l == Data(Done)
    ensures var s := OnAnthPayloads(AnthStart(id), Payloads(lines));
            OnAnthPayloads(AnthStart(id), Payloads(lines + [l])) ==
            if l.Data? && l.payload != Done then OnAnthPayload(s, l.payload) else s
  {
    PayloadsSnoc(lines, l);
    var ps := Payloads(lines);
    hide Payloads, OnAnthPayload;
    if l.Data? && l.payload != Done { assert (ps + [l.payload])[..|ps|] == ps; }
    assert ps + [] == ps;
  }

  method CollectAnthropicStream(src: Source<Event>, valid: string -> bool, id: string) returns (r: Option<Message>)
    ensures r == AnthCollected(src, valid, id)
  {
    hide Payloads, OnAnthPayloads, OnAnthPayload, Finished;
    AnthBegins(id);
    var c := new AnthCollector(id);
    var k, marker, more := 0, false, true;
    while k < |src.lines| && !marker && more
      invariant 0 <= k <= |src.lines| && fresh(c)
      invariant marker == Finished(src.lines[..k])
      invariant c.View() == OnAnthPayloads(AnthStart(id), Payloads(src.lines[..k]))
      invariant more == !c.halted && (marker ==> more)
      decreases |src.lines| - k, !marker
    {
      var line := src.lines[k];
      assert src.lines[..k + 1] == src.lines[..k] + [line];
      AnthLine(src.lines[..k], line, id);
      k := k + 1;
      if line.Data? {
        if line.payload == Done {
          marker := true;
        } else {
          more := c.Handle(line.payload);
        }
      }
    }
    ScanEnds(src, k, id);
    if !marker && src.failed && (more || src.early) { return None; }
    AnthStaysWellFormed(AnthStart(id), Payloads(src.lines));
    var m := c.Finish(valid);
    r := Some(m);
  }

  /** Once the marker or an error event was seen the remaining lines change nothing. */
  lemma ScanEnds(src: Source<Event>, k: nat, id: string)
    requires k <= |src.lines|
    requires k == |src.lines| || Finished(src.lines[..k])
             || OnAnthPayloads(AnthStart(id), Payloads(src.lines[..k])).halted
    ensures OnAnthPayloads(AnthStart(id), Payloads(src.lines)) ==
            OnAnthPayloads(AnthStart(id), Payloads(src.lines[..k]))
    ensures !OnAnthPayloads(AnthStart(id), Payloads(src.lines[..k])).halted ==>
            Finished(src.lines) == Finished(src.lines[..k])
  {
    hide OnAnthPayloads, Payloads, Finished;
    var a, b := src.lines[..k], src.lines[k..];
    assert src.lines == a + b;
    if Finished(a) {
      PayloadsCut(a, b);
    } else if OnAnthPayloads(AnthStart(id), Payloads(a)).halted {
      PayloadsPrefix(a, b);
      var all := Payloads(src.lines);
      assert all == Payloads(a) + all[|Payloads(a)|..];
      HaltedStays(AnthStart(id), Payloads(a), all[|Payloads(a)|..]);
    } else {
      assert a == src.lines;
    }
  }
}
