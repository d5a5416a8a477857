/** The blocks the translator writes, related to the chunks it has read. */
module TranslatedBlocks {
  import opened Common
  import opened StreamTypes
  import opened Translator
  import opened StreamAgreement
  import opened DenseStream

  /** The block of tool i: identity of its first fragment, arguments of all of them. */
  function ToolBlock(fs: seq<ToolDelta>, i: int, rand: int -> string): Block {
    var f := FirstFragment(fs, i);
    Block(ToolUse, "", FirstNonEmpty(f.id, rand(i)), f.name, ArgsOf(fs, i))
  }

  ghost predicate ToolsTracked(bs: seq<Block>, tools: map<int, StreamTool>, fs: seq<ToolDelta>, rand: int -> string) {
    var order := FirstSeen(fs);
    && (forall i :: i in tools <==> i in order)
    && (forall k :: 0 <= k < |order| ==>
          0 <= tools[order[k]].aIdx < |bs| && bs[tools[order[k]].aIdx] == ToolBlock(fs, order[k], rand))
    && (forall k, l :: 0 <= k < l < |order| ==> tools[order[k]].aIdx < tools[order[l]].aIdx)
    && (forall j :: 0 <= j < |bs| ==>
          if bs[j].kind == ToolUse then HasTool(tools, j) else bs[j] == Block(Text, bs[j].text, "", "", ""))
  }

  ghost predicate Tracks(t: State, text: string, fs: seq<ToolDelta>, rand: int -> string) {
    var bs := Blocks(t.out);
    && t.started && |bs| == t.nextIdx
    && TextIn(bs) == text && t.textChars == |text|
    && (t.openText ==> 0 <= t.textIdx == t.nextIdx - 1 && bs[t.textIdx].kind == Text)
    && ToolsTracked(bs, t.tools, fs, rand)
  }

  lemma StartTracks(msgID: string, model: string, rand: int -> string)
    ensures Tracks(Started(Initial(), msgID, model), "", [], rand)
  {
    var t := Started(Initial(), msgID, model);
    BlocksSnoc([], t.out[0]);
    assert t.out == [] + [t.out[0]];
  }

  // ----- text -----

  lemma AppendTextBlock(bs: seq<Block>, s: string)
    ensures TextIn(bs + [Block(Text, s, "", "", "")]) == TextIn(bs) + s
  {
    assert (bs + [Block(Text, s, "", "", "")])[..|bs|] == bs;
  }

  lemma ExtendLastText(bs: seq<Block>, s: string)
    requires bs != []
    ensures TextIn(bs[|bs| - 1 := bs[|bs| - 1].(text := bs[|bs| - 1].text + s)]) == TextIn(bs) + s
  {
    var n := |bs| - 1;
    var cs := bs[n := bs[n].(text := bs[n].text + s)];
    assert cs[..n] == bs[..n];
    assert TextIn(bs[..n]) + (bs[n].text + s) == TextIn(bs[..n]) + bs[n].text + s;
  }

  lemma TextBlocks(t: State, s: string)
    requires s != "" && |Blocks(t.out)| == t.nextIdx
    requires t.openText ==> 0 <= t.textIdx < t.nextIdx
    ensures var bs := Blocks(t.out);
            Blocks(OnText(t, s).out) ==
            if t.openText then bs[t.textIdx := bs[t.textIdx].(text := bs[t.textIdx].text + s)]
            else bs + [Block(Text, s, "", "", "")]
  {
    hide Blocks;
    var u := EnsureText(t);
    BlocksSnoc(t.out, BlockStart(t.nextIdx, Some(BlockHeader(Text, "", ""))));
    BlocksSnoc(u.out, BlockDelta(u.textIdx, Some(TextDelta(s))));
    if !t.openText {
      assert "" + s == s;
      UpdateLast(Blocks(t.out), Block(Text, "", "", "", ""), Block(Text, s, "", "", ""));
    }
  }

  lemma TextState(t: State, s: string)
    requires s != ""
    ensures var u := OnText(t, s);
            && u.started == t.started && u.tools == t.tools && u.textChars == t.textChars + |s| && u.openText
            && u.nextIdx == (if t.openText then t.nextIdx else t.nextIdx + 1)
            && u.textIdx == (if t.openText then t.textIdx else t.nextIdx)
  {
  }

  /** Adding or extending a text block disturbs no tool. */
  lemma ToolsStay(bs: seq<Block>, cs: seq<Block>, tools: map<int, StreamTool>, fs: seq<ToolDelta>, rand: int -> string)
    requires ToolsTracked(bs, tools, fs, rand) && |bs| <= |cs|
    requires forall j :: 0 <= j < |cs| ==>
               cs[j] == Block(Text, cs[j].text, "", "", "") || (j < |bs| && cs[j] == bs[j])
    requires forall j :: 0 <= j < |bs| && bs[j].kind == ToolUse ==> cs[j] == bs[j]
    ensures ToolsTracked(cs, tools, fs, rand)
  {
    hide FirstSeen, FirstFragment, ArgsOf, HasTool;
  }

  lemma TextBlocksStay(bs: seq<Block>, tools: map<int, StreamTool>, fs: seq<ToolDelta>, rand: int -> string)
    requires ToolsTracked(bs, tools, fs, rand)
    ensures forall j :: 0 <= j < |bs| && bs[j].kind != ToolUse ==> bs[j] == Block(Text, bs[j].text, "", "", "")
  {
    hide FirstSeen, ToolBlock;
  }

  lemma TextTracks(t: State, text: string, fs: seq<ToolDelta>, rand: int -> string, s: string)
    requires Tracks(t, text, fs, rand)
    ensures Tracks(OnText(t, s), text + s, fs, rand)
  {
    hide Blocks, TextIn, HasTool, FirstSeen, ToolBlock, ToolsTracked;
    var bs, cs := Blocks(t.out), Blocks(OnText(t, s).out);
    if s == "" {
      assert text + s == text;
    } else {
      hide OnText;
      TextBlocks(t, s);
      TextState(t, s);
      TextBlocksStay(bs, t.tools, fs, rand);
      if t.openText { ExtendLastText(bs, s); } else { AppendTextBlock(bs, s); }
      ToolsStay(bs, cs, t.tools, fs, rand);
    }
  }

  // ----- tools -----

  lemma KnownToolWritten(t: State, tc: ToolDelta, rand: int -> string)
    requires tc.index in t.tools && 0 <= t.tools[tc.index].aIdx < |Blocks(t.out)|
    ensures var bs, a := Blocks(t.out), t.tools[tc.index].aIdx;
            Blocks(OnTool(t, tc, rand).out) == bs[a := bs[a].(input := bs[a].input + tc.args)]
  {
    hide Blocks;
    var bs, a := Blocks(t.out), t.tools[tc.index].aIdx;
    assert OpenTool(t, tc, rand).out == t.out;
    if tc.args == "" {
      assert bs[a].input + "" == bs[a].input;
    } else {
      BlocksSnoc(t.out, BlockDelta(a, Some(InputJsonDelta(tc.args))));
    }
  }

  lemma OpenedToolWritten(t: State, tc: ToolDelta, rand: int -> string)
    requires tc.index !in t.tools
    ensures Blocks(OpenTool(t, tc, rand).out) ==
            Blocks(t.out) + [Block(ToolUse, "", FirstNonEmpty(tc.id, rand(tc.index)), tc.name, "")]
  {
    BlocksSnoc(t.out, BlockStop(t.textIdx));
    BlocksSnoc(CloseText(t).out,
        BlockStart(t.nextIdx, Some(BlockHeader(ToolUse, FirstNonEmpty(tc.id, rand(tc.index)), tc.name))));
  }

  lemma OpenedToolIndex(t: State, tc: ToolDelta, rand: int -> string)
    requires tc.index !in t.tools
    ensures tc.index in OpenTool(t, tc, rand).tools && OpenTool(t, tc, rand).tools[tc.index].aIdx == t.nextIdx
  {
  }

  lemma ArgumentsWritten(out: seq<Event>, bs: seq<Block>, b: Block, args: string)
    requires Blocks(out) == bs + [b] && b.kind == ToolUse && b.input == "" && args != ""
    ensures Blocks(out + [BlockDelta(|bs|, Some(InputJsonDelta(args)))]) == bs + [b.(input := args)]
  {
    BlocksSnoc(out, BlockDelta(|bs|, Some(InputJsonDelta(args))));
    hide Blocks;
    assert "" + args == args;
    UpdateLast(bs, b, b.(input := args));
  }

  lemma NewToolWritten(t: State, tc: ToolDelta, rand: int -> string)
    requires tc.index !in t.tools && |Blocks(t.out)| == t.nextIdx
    ensures Blocks(OnTool(t, tc, rand).out) ==
            Blocks(t.out) + [Block(ToolUse, "", FirstNonEmpty(tc.id, rand(tc.index)), tc.name, tc.args)]
  {
    hide Blocks, FirstNonEmpty, OpenTool, Apply;
    OpenedToolWritten(t, tc, rand);
    OpenedToolIndex(t, tc, rand);
    if tc.args != "" {
      var b := Block(ToolUse, "", FirstNonEmpty(tc.id, rand(tc.index)), tc.name, "");
      ArgumentsWritten(OpenTool(t, tc, rand).out, Blocks(t.out), b, tc.args);
    }
  }

  lemma ToolBlockSnoc(fs: seq<ToolDelta>, tc: ToolDelta, i: int, rand: int -> string)
    ensures i in FirstSeen(fs) ==>
              ToolBlock(fs + [tc], i, rand) ==
              ToolBlock(fs, i, rand).(input := ArgsOf(fs, i) + if tc.index == i then tc.args else "")
    ensures i !in FirstSeen(fs) && i == tc.index ==>
              ToolBlock(fs + [tc], i, rand) == Block(ToolUse, "", FirstNonEmpty(tc.id, rand(i)), tc.name, tc.args)
  {
    assert (fs + [tc])[..|fs|] == fs;
    FirstFragmentSnoc(fs, tc, i);
    if i !in FirstSeen(fs) { UnseenEmpty(fs, i); assert "" + tc.args == tc.args; }
  }

  lemma KnownToolBlock(bs: seq<Block>, tools: map<int, StreamTool>, fs: seq<ToolDelta>, tc: ToolDelta,
                       rand: int -> string, k: nat)
    requires ToolsTracked(bs, tools, fs, rand) && tc.index in tools && k < |FirstSeen(fs)|
    requires 0 <= tools[tc.index].aIdx < |bs|
    ensures var a, i := tools[tc.index].aIdx, FirstSeen(fs)[k];
            bs[a := bs[a].(input := bs[a].input + tc.args)][tools[i].aIdx] == ToolBlock(fs + [tc], i, rand)
  {
    hide FirstSeen, FirstFragment, ArgsOf, HasTool, FirstNonEmpty;
    var order := FirstSeen(fs);
    var p :| 0 <= p < |order| && order[p] == tc.index;
    FirstSeenFacts(fs);
    ToolBlockSnoc(fs, tc, order[k], rand);
    assert ArgsOf(fs, order[k]) + "" == ArgsOf(fs, order[k]);
  }

  lemma KnownToolTracked(bs: seq<Block>, tools: map<int, StreamTool>, tools': map<int, StreamTool>,
                         fs: seq<ToolDelta>, tc: ToolDelta, rand: int -> string)
    requires ToolsTracked(bs, tools, fs, rand) && tc.index in tools && tools'.Keys == tools.Keys
    requires forall i :: i in tools ==> tools'[i].aIdx == tools[i].aIdx
    requires 0 <= tools[tc.index].aIdx < |bs| && bs[tools[tc.index].aIdx].kind == ToolUse
    ensures var a := tools[tc.index].aIdx;
            ToolsTracked(bs[a := bs[a].(input := bs[a].input + tc.args)], tools', fs + [tc], rand)
  {
    hide ToolBlock, ArgsOf, FirstFragment;
    var a, order := tools[tc.index].aIdx, FirstSeen(fs);
    var cs := bs[a := bs[a].(input := bs[a].input + tc.args)];
    assert FirstSeen(fs + [tc]) == order by { assert (fs + [tc])[..|fs|] == fs; }
    forall k | 0 <= k < |order| ensures cs[tools'[order[k]].aIdx] == ToolBlock(fs + [tc], order[k], rand) {
      KnownToolBlock(bs, tools, fs, tc, rand, k);
      assert order[k] in tools;
    }
    forall j | 0 <= j < |cs| && cs[j].kind == ToolUse ensures HasTool(tools', j) {
      assert bs[j].kind == ToolUse;
      var i :| i in tools && tools[i].aIdx == j;
      assert i in tools' && tools'[i].aIdx == j;
    }
    forall k, l | 0 <= k < l < |order| ensures tools'[order[k]].aIdx < tools'[order[l]].aIdx {
      assert order[k] in tools && order[l] in tools;
    }
  }

  lemma NewToolSeen(fs: seq<ToolDelta>, tc: ToolDelta)
    ensures FirstSeen(fs + [tc]) == if tc.index in FirstSeen(fs) then FirstSeen(fs) else FirstSeen(fs) + [tc.index]
  {
    assert (fs + [tc])[..|fs|] == fs;
  }

  /** A fragment of another tool leaves a block alone. */
  lemma OtherToolBlock(fs: seq<ToolDelta>, tc: ToolDelta, i: int, rand: int -> string)
    requires i in FirstSeen(fs) && i != tc.index
    ensures ToolBlock(fs + [tc], i, rand) == ToolBlock(fs, i, rand)
  {
    ToolBlockSnoc(fs, tc, i, rand);
    assert ArgsOf(fs, i) + "" == ArgsOf(fs, i);
  }

  lemma NewToolPlaced(bs: seq<Block>, tools: map<int, StreamTool>, st: StreamTool, fs: seq<ToolDelta>, tc: ToolDelta,
                      rand: int -> string, k: nat)
    requires ToolsTracked(bs, tools, fs, rand) && tc.index !in tools && st.aIdx == |bs| && k <= |FirstSeen(fs)|
    ensures var cs := bs + [Block(ToolUse, "", FirstNonEmpty(tc.id, rand(tc.index)), tc.name, tc.args)];
            var i, tools' := (FirstSeen(fs) + [tc.index])[k], tools[tc.index := st];
            0 <= tools'[i].aIdx < |cs| && cs[tools'[i].aIdx] == ToolBlock(fs + [tc], i, rand)
  {
    hide FirstSeen, FirstFragment, ArgsOf, ToolBlock, FirstNonEmpty, HasTool;
    var order := FirstSeen(fs);
    if k < |order| {
      assert order[k] in order;
      OtherToolBlock(fs, tc, order[k], rand);
    } else {
      ToolBlockSnoc(fs, tc, tc.index, rand);
    }
  }

  lemma NewToolLast(bs: seq<Block>, tools: map<int, StreamTool>, st: StreamTool, fs: seq<ToolDelta>, tc: ToolDelta,
                    rand: int -> string, k: nat, l: nat)
    requires ToolsTracked(bs, tools, fs, rand) && tc.index !in tools && st.aIdx == |bs|
    requires k < l <= |FirstSeen(fs)|
    ensures var order, tools' := FirstSeen(fs) + [tc.index], tools[tc.index := st];
            tools'[order[k]].aIdx < tools'[order[l]].aIdx
  {
    hide FirstSeen, ToolBlock, HasTool;
    var order := FirstSeen(fs);
    assert order[k] in order;
    if l < |order| { assert order[l] in order; }
  }

  lemma HasNewTool(tools: map<int, StreamTool>, i: int, st: StreamTool, j: int)
    requires i !in tools && (HasTool(tools, j) || j == st.aIdx)
    ensures HasTool(tools[i := st], j)
  {
    var tools' := tools[i := st];
    if HasTool(tools, j) {
      var k :| k in tools && tools[k].aIdx == j;
      assert k in tools' && tools'[k].aIdx == j;
    } else {
      assert i in tools' && tools'[i].aIdx == j;
    }
  }

  lemma NewToolTracked(bs: seq<Block>, tools: map<int, StreamTool>, st: StreamTool,
                       fs: seq<ToolDelta>, tc: ToolDelta, rand: int -> string)
    requires ToolsTracked(bs, tools, fs, rand) && tc.index !in tools && st.aIdx == |bs|
    ensures ToolsTracked(bs + [Block(ToolUse, "", FirstNonEmpty(tc.id, rand(tc.index)), tc.name, tc.args)],
                         tools[tc.index := st], fs + [tc], rand)
  {
    hide FirstSeen, FirstFragment, ArgsOf, ToolBlock, FirstNonEmpty, HasTool;
    var order, tools' := FirstSeen(fs), tools[tc.index := st];
    var cs := bs + [Block(ToolUse, "", FirstNonEmpty(tc.id, rand(tc.index)), tc.name, tc.args)];
    NewToolSeen(fs, tc);
    forall k | 0 <= k <= |order|
      ensures var i := (order + [tc.index])[k];
              0 <= tools'[i].aIdx < |cs| && cs[tools'[i].aIdx] == ToolBlock(fs + [tc], i, rand)
    {
      NewToolPlaced(bs, tools, st, fs, tc, rand, k);
    }
    forall k, l | 0 <= k < l <= |order|
      ensures tools'[(order + [tc.index])[k]].aIdx < tools'[(order + [tc.index])[l]].aIdx
    {
      NewToolLast(bs, tools, st, fs, tc, rand, k, l);
    }
    forall j | 0 <= j < |cs| && cs[j].kind == ToolUse ensures HasTool(tools', j) {
      if j < |bs| { assert bs[j].kind == ToolUse; }
      HasNewTool(tools, tc.index, st, j);
    }
  }

  lemma KnownToolKind(bs: seq<Block>, tools: map<int, StreamTool>, fs: seq<ToolDelta>, rand: int -> string, i: int)
    requires ToolsTracked(bs, tools, fs, rand) && i in tools
    ensures 0 <= tools[i].aIdx < |bs| && bs[tools[i].aIdx].kind == ToolUse
  {
    hide FirstFragment, ArgsOf, FirstSeen;
    var k :| 0 <= k < |FirstSeen(fs)| && FirstSeen(fs)[k] == i;
    assert bs[tools[FirstSeen(fs)[k]].aIdx] == ToolBlock(fs, i, rand);
  }

  lemma KnownToolTracks(t: State, text: string, fs: seq<ToolDelta>, rand: int -> string, tc: ToolDelta)
    requires Tracks(t, text, fs, rand) && tc.index in t.tools
    ensures Tracks(OnTool(t, tc, rand), text, fs + [tc], rand)
  {
    hide Blocks, FirstFragment, ArgsOf, TextIn, FirstSeen, ToolsTracked;
    var bs, u := Blocks(t.out), OnTool(t, tc, rand);
    KnownToolKind(bs, t.tools, fs, rand, tc.index);
    KnownToolWritten(t, tc, rand);
    KnownToolTracked(bs, t.tools, u.tools, fs, tc, rand);
    SameTexts(Blocks(u.out), bs);
  }

  lemma NewToolTracks(t: State, text: string, fs: seq<ToolDelta>, rand: int -> string, tc: ToolDelta)
    requires Tracks(t, text, fs, rand) && tc.index !in t.tools
    ensures Tracks(OnTool(t, tc, rand), text, fs + [tc], rand)
  {
    hide Blocks, FirstFragment, ArgsOf, TextIn, FirstSeen, ToolsTracked;
    var bs, u := Blocks(t.out), OnTool(t, tc, rand);
    var b := Block(ToolUse, "", FirstNonEmpty(tc.id, rand(tc.index)), tc.name, tc.args);
    NewToolWritten(t, tc, rand);
    NewToolTracked(bs, t.tools, u.tools[tc.index], fs, tc, rand);
    AppendToolBlock(bs, b);
  }

  lemma AppendToolBlock(bs: seq<Block>, b: Block)
    requires b.text == ""
    ensures TextIn(bs + [b]) == TextIn(bs)
  {
    assert (bs + [b])[..|bs|] == bs;
    assert TextIn(bs) + "" == TextIn(bs);
  }

  lemma ToolTracks(t: State, text: string, fs: seq<ToolDelta>, rand: int -> string, tc: ToolDelta)
    requires Tracks(t, text, fs, rand)
    ensures Tracks(OnTool(t, tc, rand), text, fs + [tc], rand)
  {
    hide Tracks, OnTool;
    if tc.index in t.tools {
      KnownToolTracks(t, text, fs, rand, tc);
    } else {
      NewToolTracks(t, text, fs, rand, tc);
    }
  }

  lemma {:induction false} ToolsTrack(t: State, text: string, fs: seq<ToolDelta>, rand: int -> string,
                                      tcs: seq<ToolDelta>)
    requires Tracks(t, text, fs, rand)
    ensures Tracks(OnTools(t, tcs, rand), text, fs + tcs, rand)
  {
    hide Tracks;
    if tcs == [] {
      assert fs + tcs == fs;
    } else {
      ToolsTrack(t, text, fs, rand, tcs[..|tcs| - 1]);
      ToolTracks(OnTools(t, tcs[..|tcs| - 1], rand), text, fs + tcs[..|tcs| - 1], rand, tcs[|tcs| - 1]);
      assert fs + tcs[..|tcs| - 1] + [tcs[|tcs| - 1]] == fs + tcs;
    }
  }

  lemma HeaderTracks(t: State, text: string, fs: seq<ToolDelta>, rand: int -> string, ch: Chunk)
    requires Tracks(t, text, fs, rand)
    ensures Tracks(OnUsage(t, ch.usage), text, fs, rand)
  {
  }

  lemma FinishTracks(t: State, text: string, fs: seq<ToolDelta>, rand: int -> string, f: Option<string>)
    requires Tracks(t, text, fs, rand)
    ensures Tracks(OnFinish(t, f), text, fs, rand)
  {
  }

  lemma ChunkTracks(t: State, text: string, fs: seq<ToolDelta>, rand: int -> string, p: Payload<Chunk>)
    requires Tracks(t, text, fs, rand)
    ensures Tracks(OnChunk(t, p, rand), text + DeltaOf(p).content, fs + DeltaOf(p).toolCalls, rand)
  {
    hide Tracks, OnTools, OnText, OnUsage, OnFinish;
    assert text + "" == text && fs + [] == fs;
    if p.Decoded? {
      HeaderTracks(t, text, fs, rand, p.value);
      if p.value.choices != [] {
        var u, c := OnUsage(t, p.value.usage), p.value.choices[0];
        if c.delta.Some? {
          TextTracks(u, text, fs, rand, c.delta.value.content);
          ToolsTrack(OnText(u, c.delta.value.content), text + c.delta.value.content, fs, rand, c.delta.value.toolCalls);
          u := OnTools(OnText(u, c.delta.value.content), c.delta.value.toolCalls, rand);
        }
        FinishTracks(u, text + DeltaOf(p).content, fs + DeltaOf(p).toolCalls, rand, c.finish);
      }
    }
  }

  /** After any payloads the blocks written carry exactly the text and the tool fragments read. */
  lemma {:induction false} PayloadsTrack(t: State, ps: seq<Payload<Chunk>>, rand: int -> string)
    requires Tracks(t, "", [], rand)
    ensures Tracks(OnPayloads(t, ps, rand), TextOf(ps), Fragments(ps), rand)
  {
    hide Tracks;
    if ps == [] {
    } else {
      PayloadsTrack(t, ps[..|ps| - 1], rand);
      ChunkTracks(OnPayloads(t, ps[..|ps| - 1], rand), TextOf(ps[..|ps| - 1]), Fragments(ps[..|ps| - 1]), rand,
          ps[|ps| - 1]);
    }
  }
}
