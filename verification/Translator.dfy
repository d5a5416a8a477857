/** `StreamTranslator`: chunk deltas become indexed content-block events. */
module Translator {
  import opened Common
  import opened StreamTypes
  import opened Sorting

  datatype StreamTool = StreamTool(aIdx: int, id: string, name: string)

  ghost predicate HasTool(tools: map<int, StreamTool>, j: int) {
    exists i :: i in tools && tools[i].aIdx == j
  }

  /** The translator's fields and the events written so far. */
  datatype State = State(
    nextIdx: int, openText: bool, textIdx: int, textChars: nat, tools: map<int, StreamTool>,
    usageIn: int, usageOut: int, stopReason: string, started: bool, out: seq<Event>)
  {
    function Emit(e: Event): State { this.(out := out + [e]) }
  }

  const TOOL_TOKENS := 60

  function Initial(): State {
    State(0, false, 0, 0, map[], 0, 0, "", false, [])
  }

  function Started(t: State, msgID: string, model: string): State {
    if t.started then t
    else t.(started := true).Emit(MessageStart(msgID, model, Usage(0, 1, 0, 0)))
  }

  function EnsureText(t: State): State {
    if t.openText then t
    else t.(openText := true, textIdx := t.nextIdx, nextIdx := t.nextIdx + 1)
          .Emit(BlockStart(t.nextIdx, Some(BlockHeader(Text, "", ""))))
  }

  function CloseText(t: State): State {
    if !t.openText then t else t.(openText := false).Emit(BlockStop(t.textIdx))
  }

  function OnText(t: State, s: string): State {
    if s == "" then t
    else
      var u := EnsureText(t);
      u.(textChars := u.textChars + |s|).Emit(BlockDelta(u.textIdx, Some(TextDelta(s))))
  }

  /** A tool's first fragment opens its block; `rand(i)` is the identifier drawn for index i. */
  function OpenTool(t: State, tc: ToolDelta, rand: int -> string): State {
    if tc.index in t.tools then
      var st := t.tools[tc.index];
      if tc.name != "" && st.name == "" then t.(tools := t.tools[tc.index := st.(name := tc.name)]) else t
    else
      var u := CloseText(t);
      var st := StreamTool(u.nextIdx, FirstNonEmpty(tc.id, rand(tc.index)), tc.name);
      u.(tools := u.tools[tc.index := st], nextIdx := u.nextIdx + 1)
       .Emit(BlockStart(st.aIdx, Some(BlockHeader(ToolUse, st.id, st.name))))
  }

  function OnTool(t: State, tc: ToolDelta, rand: int -> string): State {
    var u := OpenTool(t, tc, rand);
    if tc.args == "" then u
    else u.Emit(BlockDelta(u.tools[tc.index].aIdx, Some(InputJsonDelta(tc.args))))
  }

  function OnTools(t: State, tcs: seq<ToolDelta>, rand: int -> string): State {
    if tcs == [] then t else OnTool(OnTools(t, tcs[..|tcs| - 1], rand), tcs[|tcs| - 1], rand)
  }

  function OnUsage(t: State, u: Option<OaiUsage>): State {
    if u.None? then t else t.(usageIn := u.value.prompt, usageOut := u.value.completion)
  }

  function OnFinish(t: State, f: Option<string>): State {
    if f.None? || f.value == "" then t else t.(stopReason := StopFromFinish(f.value))
  }

  function OnChunk(t: State, p: Payload<Chunk>, rand: int -> string): State {
    match p
    case Decoded(ch) =>
      var u := OnUsage(t, ch.usage);
      if ch.choices == [] then u
      else
        var c := ch.choices[0];
        var v := if c.delta.None? then u
                 else OnTools(OnText(u, c.delta.value.content), c.delta.value.toolCalls, rand);
        OnFinish(v, c.finish)
    case _ => t
  }

  /** The whole input: the payloads in order, after the start event. */
  function OnPayloads(t: State, ps: seq<Payload<Chunk>>, rand: int -> string): State {
    if ps == [] then t else OnChunk(OnPayloads(t, ps[..|ps| - 1], rand), ps[|ps| - 1], rand)
  }

  /** The block stops `Finalize` writes, one per tool in index order. */
  function ToolStops(t: State, idxs: seq<int>): seq<Event>
    requires forall k :: 0 <= k < |idxs| ==> idxs[k] in t.tools
  {
    seq(|idxs|, k requires 0 <= k < |idxs| => BlockStop(t.tools[idxs[k]].aIdx))
  }

  function FinalUsage(t: State): (u: Usage) {
    var out := if t.usageOut == 0 then EstimateTokens(t.textChars) + |t.tools| * TOOL_TOKENS else t.usageOut;
    Usage(t.usageIn, out, 0, 0)
  }

  function FinalEvents(t: State): seq<Event> {
    var sr := FirstNonEmpty(t.stopReason, "end_turn");
    [MessageDelta("", sr, Some(FinalUsage(t))), MessageStop]
  }

  /** idxs is the ascending list of the tool indices. */
  ghost predicate IsIndexList(idxs: seq<int>, tools: map<int, StreamTool>) {
    && Strict(idxs)
    && (forall k :: 0 <= k < |idxs| ==> idxs[k] in tools)
    && (forall i :: i in tools ==> i in idxs)
  }

  /** Everything one run of `TranslateOpenAIStream` writes, given the index list. */
  ghost predicate IsOutput(out: seq<Event>, t: State) {
    exists idxs :: IsIndexList(idxs, t.tools) && out == CloseText(t).out + ToolStops(t, idxs) + FinalEvents(t)
  }

  /** The state after a number of lines: the start event is written at the first payload. */
  ghost function Fed(lines: seq<Line<Chunk>>, msgID: string, model: string, rand: int -> string): State {
    var ps := Payloads(lines);
    OnPayloads(if ps == [] then Initial() else Started(Initial(), msgID, model), ps, rand)
  }

  lemma FedSnoc(lines: seq<Line<Chunk>>, l: Line<Chunk>, msgID: string, model: string, rand: int -> string)
    requires !Finished(lines)
    ensures l.Data? && l.payload != Done ==>
              Fed(lines + [l], msgID, model, rand) ==
                  OnChunk(Started(Fed(lines, msgID, model, rand), msgID, model), l.payload, rand)
    ensures !(l.Data? && l.payload != Done) ==>
              Fed(lines + [l], msgID, model, rand) == Fed(lines, msgID, model, rand)
  {
    PayloadsSnoc(lines, l);
    var ps := Payloads(lines);
    if l.Data? && l.payload != Done {
      assert (ps + [l.payload])[..|ps|] == ps;
      KeepsStarted(Started(Initial(), msgID, model), ps, rand);
    } else {
      assert ps + [] == ps;
    }
  }

  lemma NothingFed(msgID: string, model: string, rand: int -> string)
    ensures Fed([], msgID, model, rand) == Initial()
  {
  }

  lemma FedCut(lines: seq<Line<Chunk>>, more: seq<Line<Chunk>>, msgID: string, model: string, rand: int -> string)
    requires Finished(lines)
    ensures Fed(lines + more, msgID, model, rand) == Fed(lines, msgID, model, rand) && Finished(lines + more)
  {
    PayloadsCut(lines, more);
  }

  lemma {:induction false} ToolsKeepStarted(t: State, tcs: seq<ToolDelta>, rand: int -> string)
    ensures OnTools(t, tcs, rand).started == t.started
  {
    if tcs == [] {
    } else {
      ToolsKeepStarted(t, tcs[..|tcs| - 1], rand);
    }
  }

  lemma ChunkKeepsStarted(t: State, p: Payload<Chunk>, rand: int -> string)
    ensures OnChunk(t, p, rand).started == t.started
  {
    if p.Decoded? && p.value.choices != [] && p.value.choices[0].delta.Some? {
      var d := p.value.choices[0].delta.value;
      ToolsKeepStarted(OnText(OnUsage(t, p.value.usage), d.content), d.toolCalls, rand);
    }
  }

  lemma {:induction false} KeepsStarted(t: State, ps: seq<Payload<Chunk>>, rand: int -> string)
    ensures OnPayloads(t, ps, rand).started == t.started
  {
    if ps == [] {
    } else {
      KeepsStarted(t, ps[..|ps| - 1], rand);
      ChunkKeepsStarted(OnPayloads(t, ps[..|ps| - 1], rand), ps[|ps| - 1], rand);
    }
  }

  /** The state in which `Finalize` is called. An input without payload whose scan shows no error still gets its start
      event. */
  ghost function BeforeFinalize(src: Source<Chunk>, msgID: string, model: string, rand: int -> string): State {
    var t := Fed(src.lines, msgID, model, rand);
    if ErrorSeen(src) then t else Started(t, msgID, model)
  }

  class StreamTranslator {
    const msgID: string
    const model: string
    const rand: int -> string
    var nextIdx: int
    var openText: bool
    var textIdx: int
    var textChars: nat
    var tools: map<int, StreamTool>
    var usageIn: int
    var usageOut: int
    var stopReason: string
    var started: bool
    var out: seq<Event>

    ghost function View(): State
      reads this
    {
      State(nextIdx, openText, textIdx, textChars, tools, usageIn, usageOut, stopReason, started, out)
    }

    constructor (msgID: string, model: string, rand: int -> string)
      ensures View() == Initial()
      ensures this.msgID == msgID && this.model == model && this.rand == rand
    {
      this.msgID, this.model, this.rand := msgID, model, rand;
      nextIdx, openText, textIdx, textChars, tools := 0, false, 0, 0, map[];
      usageIn, usageOut, stopReason, started, out := 0, 0, "", false, [];
    }

    method Emit(e: Event)
      modifies this`out
      ensures View() == old(View()).Emit(e)
    {
      out := out + [e];
    }

    method Start()
      modifies this
      ensures View() == Started(old(View()), msgID, model)
    {
      if started { return; }
      started := true;
      Emit(MessageStart(msgID, model, Usage(0, 1, 0, 0)));
    }

    method EnsureTextBlock()
      modifies this
      ensures View() == EnsureText(old(View()))
    {
      if openText { return; }
      openText := true;
      textIdx := nextIdx;
      nextIdx := nextIdx + 1;
      Emit(BlockStart(textIdx, Some(BlockHeader(Text, "", ""))));
    }

    method CloseTextBlock()
      modifies this
      ensures View() == CloseText(old(View()))
    {
      if !openText { return; }
      openText := false;
      Emit(BlockStop(textIdx));
    }

    method ToolCall(tc: ToolDelta)
      modifies this
      ensures View() == OnTool(old(View()), tc, rand)
    {
      if tc.index !in tools {
        CloseTextBlock();
        var st := StreamTool(nextIdx, FirstNonEmpty(tc.id, rand(tc.index)), tc.name);
        nextIdx := nextIdx + 1;
        tools := tools[tc.index := st];
        Emit(BlockStart(st.aIdx, Some(BlockHeader(ToolUse, st.id, st.name))));
      } else if tc.name != "" && tools[tc.index].name == "" {
        tools := tools[tc.index := tools[tc.index].(name := tc.name)];
      }
      if tc.args != "" {
        Emit(BlockDelta(tools[tc.index].aIdx, Some(InputJsonDelta(tc.args))));
      }
    }

    method WriteText(s: string)
      modifies this
      ensures View() == OnText(old(View()), s)
    {
      if s != "" {
        EnsureTextBlock();
        textChars := textChars + |s|;
        Emit(BlockDelta(textIdx, Some(TextDelta(s))));
      }
    }

    method ToolCalls(tcs: seq<ToolDelta>)
      modifies this
      ensures View() == OnTools(old(View()), tcs, rand)
    {
      for k := 0 to |tcs|
        invariant View() == OnTools(old(View()), tcs[..k], rand)
      {
        ToolCall(tcs[k]);
        assert tcs[..k + 1][..k] == tcs[..k];
      }
      assert tcs[..|tcs|] == tcs;
    }

    method Chunk(p: Payload<Chunk>)
      modifies this
      ensures View() == OnChunk(old(View()), p, rand)
    {
      hide OnText, OnTools;
      if !p.Decoded? { return; }
      var ch := p.value;
      if ch.usage.Some? {
        usageIn := ch.usage.value.prompt;
        usageOut := ch.usage.value.completion;
      }
      if ch.choices == [] { return; }
      var c := ch.choices[0];
      if c.delta.Some? {
        WriteText(c.delta.value.content);
        ToolCalls(c.delta.value.toolCalls);
      }
      if c.finish.Some? && c.finish.value != "" {
        stopReason := StopFromFinish(c.finish.value);
      }
    }

    method StopTools(idxs: seq<int>)
      requires forall k :: 0 <= k < |idxs| ==> idxs[k] in tools
      modifies this
      ensures View() == old(View()).(out := old(out) + ToolStops(old(View()), idxs))
    {
      ghost var t := View();
      for k := 0 to |idxs|
        invariant View() == t.(out := t.out + ToolStops(t, idxs[..k]))
      {
        Emit(BlockStop(tools[idxs[k]].aIdx));
        assert idxs[..k + 1][..k] == idxs[..k];
        assert ToolStops(t, idxs[..k + 1]) == ToolStops(t, idxs[..k]) + [BlockStop(t.tools[idxs[k]].aIdx)];
      }
      assert idxs[..|idxs|] == idxs;
    }

    method Finalize() returns (u: Usage)
      modifies this
      ensures IsOutput(out, old(View())) && u == FinalUsage(old(View()))
    {
      ghost var t := View();
      CloseTextBlock();
      var idxs := SortedKeys(tools);
      StopTools(idxs);
      var o := usageOut;
      if o == 0 {
        o := EstimateTokens(textChars) + |tools| * TOOL_TOKENS;
      }
      u := Usage(usageIn, o, 0, 0);
      Emit(MessageDelta("", FirstNonEmpty(stopReason, "end_turn"), Some(u)));
      Emit(MessageStop);
      assert out == CloseText(t).out + ToolStops(t, idxs) + FinalEvents(t);
    }
  }

  /** The keys of a map, visited in any order. */
  method AnyOrder(keys: set<int>) returns (found: seq<int>)
    ensures Distinct(found)
    ensures forall i :: i in found <==> i in keys
  {
    var rest := keys;
    found := [];
    while rest != {}
      invariant rest <= keys
      invariant forall i :: i in found ==> i in keys && i !in rest
      invariant forall i :: i in keys ==> i in found || i in rest
      invariant Distinct(found)
      decreases rest
    {
      ghost var member := Member(rest);
      var i :| i in rest;
      rest := rest - {i};
      found := found + [i];
    }
  }

  method SortedKeys(tools: map<int, StreamTool>) returns (idxs: seq<int>)
    ensures IsIndexList(idxs, tools)
  {
    var found := AnyOrder(tools.Keys);
    idxs := SortSlice(found);
    SortAscending(found);
    SortStrict(found);
  }

  method TranslateOpenAIStream(src: Source<Chunk>, msgID: string, model: string, rand: int -> string)
    returns (out: seq<Event>, u: Usage, failed: bool)
    ensures IsOutput(out, BeforeFinalize(src, msgID, model, rand))
    ensures u == FinalUsage(BeforeFinalize(src, msgID, model, rand))
    ensures failed == ErrorSeen(src)
  {
    hide OnChunk, IsOutput, FinalUsage, Payloads, Fed;
    NothingFed(msgID, model, rand);
    var tr := new StreamTranslator(msgID, model, rand);
    var first, k, marker := true, 0, false;
    while k < |src.lines| && !marker
      invariant 0 <= k <= |src.lines| && fresh(tr)
      invariant tr.msgID == msgID && tr.model == model && tr.rand == rand
      invariant marker == Finished(src.lines[..k])
      invariant tr.started == !first
      invariant tr.View() == Fed(src.lines[..k], msgID, model, rand)
      decreases |src.lines| - k, !marker
    {
      var line := src.lines[k];
      assert src.lines[..k + 1] == src.lines[..k] + [line];
      FedSnoc(src.lines[..k], line, msgID, model, rand);
      k := k + 1;
      if line.Skipped? { continue; }
      if line.payload == Done {
        marker := true;
        continue;
      }
      if first {
        tr.Start();
        first := false;
      }
      tr.Chunk(line.payload);
      ChunkKeepsStarted(Started(Fed(src.lines[..k - 1], msgID, model, rand), msgID, model), line.payload, rand);
    }
    assert src.lines == src.lines[..k] + src.lines[k..];
    if marker {
      FedCut(src.lines[..k], src.lines[k..], msgID, model, rand);
    } else {
      assert src.lines[..k] == src.lines;
    }
    failed := src.failed && (!marker || src.early);
    if first && !failed {
      tr.Start();
    }
    u := tr.Finalize();
    out := tr.out;
  }
}
