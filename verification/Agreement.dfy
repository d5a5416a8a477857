/** Main results on streams: translating and then collecting agrees with collecting directly. */
module Agreement {
  import opened Common
  import opened StreamTypes
  import opened Sorting
  import T = Translator
  import opened Collectors
  import opened EventGrammar
  import opened StreamAgreement
  import opened TranslatedBlocks
  import opened DenseStream
  import L = StreamLayout

  // ----- the shape of the output -----

  lemma {:induction false} BodyShape(es: seq<Event>)
    requires Watch(es).Body?
    ensures es != [] && es[0].MessageStart? && AllBlockEvents(es[1..])
  {
    if Watch(es[..|es| - 1]).Body? { BodyShape(es[..|es| - 1]); }
  }

  lemma ToolGrows(t: T.State, tc: ToolDelta, rand: int -> string)
    ensures var u := T.OnTool(t, tc, rand);
            t.out <= u.out && u.usageIn == t.usageIn && u.usageOut == t.usageOut && u.stopReason == t.stopReason
  {
    OpenGrows(t, tc, rand);
    hide T.OpenTool;
  }

  lemma OpenGrows(t: T.State, tc: ToolDelta, rand: int -> string)
    ensures var u := T.OpenTool(t, tc, rand);
            t.out <= u.out && u.usageIn == t.usageIn && u.usageOut == t.usageOut && u.stopReason == t.stopReason
  {
  }

  lemma TextGrows(t: T.State, s: string)
    ensures var u := T.OnText(t, s);
            t.out <= u.out && u.usageIn == t.usageIn && u.usageOut == t.usageOut && u.stopReason == t.stopReason
  {
  }

  lemma {:induction false} ToolsGrow(t: T.State, tcs: seq<ToolDelta>, rand: int -> string)
    ensures t.out <= T.OnTools(t, tcs, rand).out
    ensures var u := T.OnTools(t, tcs, rand);
            u.usageIn == t.usageIn && u.usageOut == t.usageOut && u.stopReason == t.stopReason
  {
    if tcs == [] {
    } else {
      var init := T.OnTools(t, tcs[..|tcs| - 1], rand);
      ToolsGrow(t, tcs[..|tcs| - 1], rand);
      ToolGrows(init, tcs[|tcs| - 1], rand);
      hide T.OnTool;
    }
  }

  /** A chunk only appends events; usage and stop reason come from their own fields. */
  lemma ChunkTotals(t: T.State, p: Payload<Chunk>, rand: int -> string)
    ensures t.out <= T.OnChunk(t, p, rand).out
    ensures var u := T.OnChunk(t, p, rand);
            && OaiUsage(u.usageIn, u.usageOut) ==
               (if p.Decoded? && p.value.usage.Some? then p.value.usage.value else OaiUsage(t.usageIn, t.usageOut))
            && u.stopReason == (if StopOf(p) != "" then StopOf(p) else t.stopReason)
  {
    hide T.OnText, T.OnTools;
    if p.Decoded? && p.value.choices != [] && p.value.choices[0].delta.Some? {
      var u, d := T.OnUsage(t, p.value.usage), p.value.choices[0].delta.value;
      TextGrows(u, d.content);
      ToolsGrow(T.OnText(u, d.content), d.toolCalls, rand);
    }
  }

  lemma {:induction false} PayloadTotals(t: T.State, ps: seq<Payload<Chunk>>, rand: int -> string)
    requires t.usageIn == t.usageOut == 0 && t.stopReason == ""
    ensures t.out <= T.OnPayloads(t, ps, rand).out
    ensures var u := T.OnPayloads(t, ps, rand);
            OaiUsage(u.usageIn, u.usageOut) == UsageOf(ps) && u.stopReason == FinishOf(ps)
  {
    if ps == [] {
    } else {
      var p := ps[|ps| - 1];
      PayloadTotals(t, ps[..|ps| - 1], rand);
      ChunkTotals(T.OnPayloads(t, ps[..|ps| - 1], rand), p, rand);
      hide T.OnChunk, StopOf;
    }
  }

  // ----- finishing the collected blocks -----

  /** A tool's input is kept if it is valid JSON; otherwise it is an empty object. */
  function NormTool(b: Block, valid: string -> bool): Block {
    if b.kind == ToolUse && (b.input == "" || !valid(b.input)) then b.(input := "{}") else b
  }

  lemma {:induction false} FinishedPointwise(bs: seq<Block>, valid: string -> bool)
    requires forall j :: 0 <= j < |bs| ==> bs[j].kind == ToolUse || (bs[j].kind == Text && bs[j].input == "")
    ensures FinishedBlocks(bs, valid) == seq(|bs|, j requires 0 <= j < |bs| => NormTool(bs[j], valid))
  {
    if bs == [] {
    } else {
      FinishedPointwise(bs[..|bs| - 1], valid);
    }
  }

  lemma {:induction false} StopsAddNoBlocks(es: seq<Event>, stops: seq<Event>)
    requires forall k :: 0 <= k < |stops| ==> stops[k].BlockStop? || stops[k].MessageDelta? || stops[k].MessageStop?
    ensures Blocks(es + stops) == Blocks(es)
  {
    if stops == [] {
      assert es + stops == es;
    } else {
      StopsAddNoBlocks(es, stops[..|stops| - 1]);
      assert (es + stops)[..|es + stops| - 1] == es + stops[..|stops| - 1];
    }
  }

  /** The finished tool blocks of a tracked block list, in order of first appearance. */
  function FirstTools(fs: seq<ToolDelta>, valid: string -> bool, rand: int -> string): seq<Block> {
    seq(|FirstSeen(fs)|, k requires 0 <= k < |FirstSeen(fs)| => NormTool(ToolBlock(fs, FirstSeen(fs)[k], rand), valid))
  }

  lemma TrackedFinish(bs: seq<Block>, tools: map<int, T.StreamTool>, fs: seq<ToolDelta>, valid: string -> bool,
                      rand: int -> string)
    requires ToolsTracked(bs, tools, fs, rand)
    ensures var c := NonEmptyContent(FinishedBlocks(bs, valid));
            TextIn(c) == TextIn(bs) && ToolsIn(c) == FirstTools(fs, valid, rand)
  {
    hide TextIn, ToolsIn, FinishedBlocks, FirstSeen, ToolBlock, Normalize;
    FinishedPointwise(bs, valid);
    var cs, order := FinishedBlocks(bs, valid), FirstSeen(fs);
    SameTexts(cs, bs);
    var pos := seq(|order|, k requires 0 <= k < |order| && order[k] in tools => tools[order[k]].aIdx);
    TrackedPositions(bs, tools, fs, rand, pos);
    ToolsAtPositions(cs, pos);
    if cs == [] { SingleText(""); EmptyBlocks(); }
  }

  lemma EmptyBlocks()
    ensures TextIn([]) == "" && ToolsIn([]) == []
  {
  }

  lemma TrackedPositions(bs: seq<Block>, tools: map<int, T.StreamTool>, fs: seq<ToolDelta>, rand: int -> string,
                         pos: seq<int>)
    requires ToolsTracked(bs, tools, fs, rand) && |pos| == |FirstSeen(fs)|
    requires forall k :: 0 <= k < |pos| ==> pos[k] == tools[FirstSeen(fs)[k]].aIdx
    ensures ToolPositions(bs, pos)
  {
    var order := FirstSeen(fs);
    forall j | 0 <= j < |bs| && bs[j].kind == ToolUse ensures j in pos {
      var i :| i in tools && tools[i].aIdx == j;
      var k :| 0 <= k < |order| && order[k] == i;
      assert pos[k] == j;
    }
    forall k | 0 <= k < |pos| ensures 0 <= pos[k] < |bs| && bs[pos[k]].kind == ToolUse {
      assert bs[tools[order[k]].aIdx] == ToolBlock(fs, order[k], rand);
    }
  }

  // ----- collecting a translated stream -----

  /** The layout of the chunks with every tool's arguments normalised. */
  function LaidOut(ps: seq<Payload<Chunk>>, valid: string -> bool, rand: int -> string): seq<Block> {
    var ls := L.Layout(L.Pieces(ps), rand);
    seq(|ls|, k requires 0 <= k < |ls| => NormTool(ls[k].block, valid))
  }

  lemma LaidOutFinished(ps: seq<Payload<Chunk>>, valid: string -> bool, rand: int -> string)
    ensures FinishedBlocks(L.BlocksOf(L.Layout(L.Pieces(ps), rand)), valid) == LaidOut(ps, valid, rand)
  {
    var ls := L.Layout(L.Pieces(ps), rand);
    L.LayoutKinds(L.Pieces(ps), rand);
    hide L.Layout, L.Pieces, NormTool, Normalize;
    FinishedPointwise(L.BlocksOf(ls), valid);
  }

  lemma {:induction false} KeyCount(ks: set<int>, order: seq<int>)
    requires Distinct(order) && forall i :: i in ks <==> i in order
    ensures |ks| == |order|
  {
    if order == [] {
      forall i ensures i !in ks { assert i in ks <==> i in order; }
      assert ks == {};
    } else {
      var n := |order| - 1;
      assert order[n] in order;
      forall i ensures i in ks - {order[n]} <==> i in order[..n] {
        assert i in order <==> i in order[..n] || i == order[n];
      }
      KeyCount(ks - {order[n]}, order[..n]);
    }
  }

  /** The output tokens `Finalize` reports: those of the last usage, or an estimate if they are 0. */
  function OutputTokens(ps: seq<Payload<Chunk>>): int {
    if UsageOf(ps).completion != 0 then UsageOf(ps).completion
    else (|TextOf(ps)| + 3) / 4 + |FirstSeen(Fragments(ps))| * 60
  }

  lemma TrackedCount(t: T.State, text: string, fs: seq<ToolDelta>, rand: int -> string)
    requires Tracks(t, text, fs, rand)
    ensures |t.tools| == |FirstSeen(fs)| && t.textChars == |text|
  {
    FirstSeenFacts(fs);
    KeyCount(t.tools.Keys, FirstSeen(fs));
    hide FirstSeen, Blocks, TextIn, ToolBlock;
  }

  lemma FinalOutput(ps: seq<Payload<Chunk>>, msgID: string, model: string, rand: int -> string)
    ensures T.FinalUsage(T.OnPayloads(T.Started(T.Initial(), msgID, model), ps, rand)) ==
            Usage(UsageOf(ps).prompt, OutputTokens(ps), 0, 0)
  {
    hide T.OnPayloads, Fragments, FirstSeen, TextOf, UsageOf, Blocks, TextIn, FinishOf;
    var t0 := T.Started(T.Initial(), msgID, model);
    var t := T.OnPayloads(t0, ps, rand);
    StartTracks(msgID, model, rand);
    PayloadsTrack(t0, ps, rand);
    PayloadTotals(t0, ps, rand);
    TrackedCount(t, TextOf(ps), Fragments(ps), rand);
    hide Tracks;
  }

  /** What collecting the translator's events gives, for every input not lost before its first payload: the whole
      message, its content as laid out from the chunks. */
  lemma CollectedTranslation(ps: seq<Payload<Chunk>>, msgID: string, model: string, rand: int -> string,
                             out: seq<Event>, valid: string -> bool, id: string)
    requires T.IsOutput(out, T.OnPayloads(T.Started(T.Initial(), msgID, model), ps, rand))
    ensures AnthCollected(Intact(EventLines(out)), valid, id) ==
            Some(Message(FirstNonEmpty(msgID, id), model, NonEmptyContent(LaidOut(ps, valid, rand)), "end_turn",
                         Usage(0, if OutputTokens(ps) > 0 then OutputTokens(ps) else 0, 0, 0)))
  {
    var t0 := T.Started(T.Initial(), msgID, model);
    var t := T.OnPayloads(t0, ps, rand);
    StartedInOrder(msgID, model);
    PayloadsInOrder(t0, ps, rand);
    PayloadTotals(t0, ps, rand);
    FinalOutput(ps, msgID, model, rand);
    L.PayloadsLaid(msgID, model, ps, rand);
    LaidOutFinished(ps, valid, rand);
    hide InOrder, T.OnPayloads, L.Layout, L.PlacesKnown, Blocks, FinishedBlocks, LaidOut, OutputTokens, T.FinalUsage,
        Watch;
    var body := TranslationFramed(t, out);
    FinalizeEnds(t, out);
    CollectFramed(t.out[0], body, T.FinalEvents(t)[0], valid, id);
  }

  /** Its text is all the text, and its tools are those of the chunks in order of first appearance. */
  lemma LaidOutParts(ps: seq<Payload<Chunk>>, msgID: string, model: string, rand: int -> string, valid: string -> bool)
    ensures var c := NonEmptyContent(LaidOut(ps, valid, rand));
            TextIn(c) == TextOf(ps) && ToolsIn(c) == FirstTools(Fragments(ps), valid, rand)
  {
    var t0 := T.Started(T.Initial(), msgID, model);
    var t := T.OnPayloads(t0, ps, rand);
    StartTracks(msgID, model, rand);
    PayloadsTrack(t0, ps, rand);
    L.PayloadsLaid(msgID, model, ps, rand);
    LaidOutFinished(ps, valid, rand);
    hide T.OnPayloads, L.Layout, L.PlacesKnown, Blocks, FinishedBlocks, LaidOut, ToolsTracked, TextIn, ToolsIn;
    TrackedFinish(Blocks(t.out), t.tools, Fragments(ps), valid, rand);
  }

  lemma TranslationFramed(t: T.State, out: seq<Event>) returns (body: seq<Event>)
    requires InOrder(t) && T.IsOutput(out, t)
    ensures t.out != [] && t.out[0].MessageStart? && AllBlockEvents(body)
    ensures out == Framed(t.out[0], body, T.FinalEvents(t)[0])
    ensures Blocks(out) == Blocks(t.out)
  {
    hide InOrder, Blocks, T.CloseText, T.FinalUsage;
    var c := T.CloseText(t);
    var idxs :| T.IsIndexList(idxs, t.tools) && out == c.out + T.ToolStops(t, idxs) + T.FinalEvents(t);
    var stops := T.ToolStops(t, idxs);
    CloseTextInOrder(t);
    ClosedShape(t);
    body := c.out[1..] + stops;
    Regroup(c.out, stops, T.FinalEvents(t)[0]);
    StopsAddNoBlocks(c.out, stops + T.FinalEvents(t));
  }

  lemma Regroup(es: seq<Event>, stops: seq<Event>, delta: Event)
    requires es != []
    ensures es + stops + [delta, MessageStop] == Framed(es[0], es[1..] + stops, delta)
    ensures es + stops + [delta, MessageStop] == es + (stops + [delta, MessageStop])
  {
  }

  lemma ClosedShape(t: T.State)
    requires InOrder(t) && InOrder(T.CloseText(t))
    ensures t.out != [] && t.out[0].MessageStart?
    ensures T.CloseText(t).out != [] && T.CloseText(t).out[0] == t.out[0] && AllBlockEvents(T.CloseText(t).out[1..])
    ensures Blocks(T.CloseText(t).out) == Blocks(t.out)
  {
    BodyShape(T.CloseText(t).out);
    BodyShape(t.out);
    BlocksSnoc(t.out, BlockStop(t.textIdx));
  }

  // ----- the two collections compared -----

  function LastTool(fs: seq<ToolDelta>, i: int, valid: string -> bool, rand: int -> string): Block {
    var args := ArgsOf(fs, i);
    Block(ToolUse, "", FirstNonEmpty(LastId(fs, i), rand(i)), LastName(fs, i),
          if args != "" && valid(args) then args else "{}")
  }

  function LastTools(fs: seq<ToolDelta>, idxs: seq<int>, valid: string -> bool, rand: int -> string): seq<Block> {
    seq(|idxs|, k requires 0 <= k < |idxs| => LastTool(fs, idxs[k], valid, rand))
  }

  lemma SummarizedTools(s: OaiState, fs: seq<ToolDelta>, idxs: seq<int>, valid: string -> bool, rand: int -> string)
    requires Summarizes(s, fs) && forall k :: 0 <= k < |idxs| ==> idxs[k] in s.tools
    ensures OaiTools(s, idxs, valid, rand) == LastTools(fs, idxs, valid, rand)
  {
  }

  lemma SummarizedMessage(s: OaiState, fs: seq<ToolDelta>, valid: string -> bool, id: string, rand: int -> string)
    requires OaiWellFormed(s) && Summarizes(s, fs)
    ensures forall k :: 0 <= k < |Sort(s.order)| ==> Sort(s.order)[k] in s.tools
    ensures var m := OaiMessage(s, valid, id, rand);
            TextIn(m.content) == s.text && ToolsIn(m.content) == LastTools(fs, Sort(FirstSeen(fs)), valid, rand)
  {
    hide Sort, FirstSeen, LastId, LastName, ArgsOf, TextIn, ToolsIn;
    SortedKnown(s);
    SummarizedTools(s, fs, Sort(s.order), valid, rand);
    DirectContent(s.text, OaiTools(s, Sort(s.order), valid, rand));
  }

  /** What collecting the chunks directly gives. */
  lemma CollectedDirectly(src: Source<Chunk>, valid: string -> bool, id: string, rand: int -> string)
    requires !src.failed || Finished(src.lines)
    ensures var r, fs := OaiCollected(src, valid, id, rand), Fragments(Payloads(src.lines));
            && r.Some? && r.value.id == id
            && TextIn(r.value.content) == TextOf(Payloads(src.lines))
            && ToolsIn(r.value.content) == LastTools(fs, Sort(FirstSeen(fs)), valid, rand)
            && r.value.stopReason == FirstNonEmpty(FinishOf(Payloads(src.lines)), "end_turn")
  {
    hide AddChunks, Fragments, TextOf, FinishOf, TextIn, ToolsIn, Sort, FirstSeen, UsageOf, LastTools;
    hide Summarizes, OaiTools, Finished, Payloads;
    var ps := Payloads(src.lines);
    CollectorSummarizes(ps);
    ChunksWellFormed(OAI_START, ps);
    SummarizedMessage(AddChunks(OAI_START, ps), Fragments(ps), valid, id, rand);
  }

  lemma DirectContent(text: string, tools: seq<Block>)
    requires forall k :: 0 <= k < |tools| ==> tools[k].kind == ToolUse && tools[k].text == ""
    ensures var c := NonEmptyContent((if text != "" then [Block(Text, text, "", "", "")] else []) + tools);
            TextIn(c) == text && ToolsIn(c) == tools
  {
    var texts := if text != "" then [Block(Text, text, "", "", "")] else [];
    TextInConcat(texts, tools);
    ToolsInConcat(texts, tools);
    OnlyTools(tools);
    SingleText(text);
  }

  lemma SingleText(s: string)
    ensures TextIn([Block(Text, s, "", "", "")]) == s && ToolsIn([Block(Text, s, "", "", "")]) == []
  {
    var b := [Block(Text, s, "", "", "")];
    assert b[..0] == [];
    assert "" + s == s;
  }

  lemma {:induction false} OnlyTools(bs: seq<Block>)
    requires forall k :: 0 <= k < |bs| ==> bs[k].kind == ToolUse && bs[k].text == ""
    ensures TextIn(bs) == "" && ToolsIn(bs) == bs
  {
    if bs == [] {
    } else {
      OnlyTools(bs[..|bs| - 1]);
      assert "" + "" == "";
      assert bs == bs[..|bs| - 1] + [bs[|bs| - 1]];
    }
  }

  /** Each tool's first fragment carries its identifier and name, and later fragments do not change them. */
  ghost predicate Consistent(fs: seq<ToolDelta>) {
    forall k :: 0 <= k < |fs| ==>
      var f := FirstFragment(fs, fs[k].index);
      f.id != "" && f.name != "" && (fs[k].id == "" || fs[k].id == f.id) && (fs[k].name == "" || fs[k].name == f.name)
  }

  lemma {:induction false} LastIsFirst(fs: seq<ToolDelta>, i: int, id: string, name: string)
    requires i in FirstSeen(fs)
    requires FirstFragment(fs, i).id == id != "" && FirstFragment(fs, i).name == name != ""
    requires forall k :: 0 <= k < |fs| && fs[k].index == i ==> fs[k].id in ["", id] && fs[k].name in ["", name]
    ensures LastId(fs, i) == id && LastName(fs, i) == name
  {
    var init, tc := fs[..|fs| - 1], fs[|fs| - 1];
    assert fs == init + [tc];
    FirstFragmentSnoc(init, tc, i);
    if i in FirstSeen(init) {
      LastIsFirst(init, i, id, name);
    } else {
      UnseenEmpty(init, i);
    }
  }

  lemma ConsistentIdentity(fs: seq<ToolDelta>, i: int, r1: int -> string, r2: int -> string)
    requires Consistent(fs) && i in FirstSeen(fs)
    ensures SameIdentity(fs, i, r1, r2)
    ensures FirstFragment(fs, i).id != "" && LastId(fs, i) == FirstFragment(fs, i).id
  {
    SeenHasFragment(fs, i);
    var f := FirstFragment(fs, i);
    LastIsFirst(fs, i, f.id, f.name);
  }

  lemma {:induction false} SeenHasFragment(fs: seq<ToolDelta>, i: int)
    requires i in FirstSeen(fs)
    ensures exists k :: 0 <= k < |fs| && fs[k].index == i
  {
    if i in FirstSeen(fs[..|fs| - 1]) {
      SeenHasFragment(fs[..|fs| - 1], i);
      var k :| 0 <= k < |fs| - 1 && fs[..|fs| - 1][k].index == i;
      assert fs[k].index == i;
    } else {
      assert fs[|fs| - 1].index == i;
    }
  }

  /** With no payload and an error shown only the two closing events are written; collecting them gives an empty
      message. */
  lemma UnstartedCollected(out: seq<Event>, valid: string -> bool, id: string)
    requires T.IsOutput(out, T.Initial())
    ensures AnthCollected(Intact(EventLines(out)), valid, id) ==
            Some(Message(id, "", [Block(Text, "", "", "", "")], "end_turn", NO_USAGE))
  {
    var t := T.Initial();
    var idxs :| T.IsIndexList(idxs, t.tools) && out == T.CloseText(t).out + T.ToolStops(t, idxs) + T.FinalEvents(t);
    IndexListOfNone(idxs, t.tools);
    var delta := T.FinalEvents(t)[0];
    assert out == [delta, MessageStop];
    EmittedLinesScan(out);
    var ps := AsPayloads(out);
    assert ps[..1] == [Decoded(delta)] && ps[..1][..0] == [];
    assert OnAnthPayloads(AnthStart(id), ps[..1]) == OnEvent(AnthStart(id), delta);
    assert ps == [Decoded(delta), Decoded(MessageStop)] && ps[..|ps| - 1] == ps[..1];
    var s := OnAnthPayloads(AnthStart(id), ps);
    assert s == AnthStart(id).(stopReason := "");
    assert FinishBlocks(s, Sort(s.order), valid) == [];
    hide EventLines, OnAnthPayloads, AsPayloads;
  }

  lemma NothingLaidOut()
    ensures TextIn([Block(Text, "", "", "", "")]) == "" && ToolsIn([Block(Text, "", "", "", "")]) == []
  {
    SingleText("");
  }

  /** What survives of any source when its translation is collected, started or not. */
  lemma TranslatedAndCollected(src: Source<Chunk>, msgID: string, model: string, rand: int -> string, out: seq<Event>,
                               valid: string -> bool, id: string)
    requires T.IsOutput(out, T.BeforeFinalize(src, msgID, model, rand))
    ensures var a, ps := AnthCollected(Intact(EventLines(out)), valid, id), Payloads(src.lines);
            && a.Some? && TextIn(a.value.content) == TextOf(ps)
            && ToolsIn(a.value.content) == FirstTools(Fragments(ps), valid, rand)
            && a.value.stopReason == "end_turn"
    ensures |out| >= 2 && out[|out| - 2].MessageDelta?
    ensures out[|out| - 2].deltaStopReason == FirstNonEmpty(FinishOf(Payloads(src.lines)), "end_turn")
  {
    hide AnthCollected, T.IsOutput, TextIn, ToolsIn;
    var ps := Payloads(src.lines);
    LastTwo(out, T.BeforeFinalize(src, msgID, model, rand));
    if FailedBeforePayload(src) {
      UnstartedCollected(out, valid, id);
      NothingLaidOut();
    } else {
      hide T.BeforeFinalize, Payloads, TextOf, FinishOf, Fragments, FirstTools, T.OnPayloads, LaidOut, OutputTokens;
      hide NonEmptyContent, T.FinalUsage;
      FedPayloads(src, msgID, model, rand);
      CollectedTranslation(ps, msgID, model, rand, out, valid, id);
      LaidOutParts(ps, msgID, model, rand, valid);
      PayloadTotals(T.Started(T.Initial(), msgID, model), ps, rand);
    }
  }

  /** The identity in the first fragment of tool i is that of all its fragments together, drawn identifiers filled
      in. */
  ghost predicate SameIdentity(fs: seq<ToolDelta>, i: int, r1: int -> string, r2: int -> string) {
    && FirstNonEmpty(FirstFragment(fs, i).id, r1(i)) == FirstNonEmpty(LastId(fs, i), r2(i))
    && FirstFragment(fs, i).name == LastName(fs, i)
  }

  lemma ToolAgreesIff(fs: seq<ToolDelta>, i: int, valid: string -> bool, r1: int -> string, r2: int -> string)
    ensures NormTool(ToolBlock(fs, i, r1), valid) == LastTool(fs, i, valid, r2) <==> SameIdentity(fs, i, r1, r2)
  {
  }

  /** Main result. The translated-and-collected message has the same text as the directly collected one, and for each
      tool the same block exactly when its first fragment carries the identity of all of them; the directly collected
      tools come in index order, the translated ones in order of first appearance. */
  lemma StreamingAgreesIff(src: Source<Chunk>, msgID: string, model: string, r1: int -> string, out: seq<Event>,
                           valid: string -> bool, id1: string, id2: string, r2: int -> string)
    requires !src.failed || Finished(src.lines)
    requires T.IsOutput(out, T.BeforeFinalize(src, msgID, model, r1))
    ensures var a, o := AnthCollected(Intact(EventLines(out)), valid, id1), OaiCollected(src, valid, id2, r2);
            var fs := Fragments(Payloads(src.lines));
            var order := FirstSeen(fs);
            && a.Some? && o.Some?
            && TextIn(a.value.content) == TextIn(o.value.content)
            && |ToolsIn(a.value.content)| == |ToolsIn(o.value.content)| == |order| == |Sort(order)|
            && forall k, l :: 0 <= k < |order| && 0 <= l < |order| && order[k] == Sort(order)[l] ==>
                 (ToolsIn(a.value.content)[k] == ToolsIn(o.value.content)[l] <==> SameIdentity(fs, order[k], r1, r2))
  {
    hide AnthCollected, OaiCollected, Fragments, FirstSeen, TextOf, FinishOf, TextIn, ToolsIn, Sort, Payloads;
    hide T.BeforeFinalize, T.IsOutput, NormTool, ToolBlock, LastTool, SameIdentity, Finished;
    var fs := Fragments(Payloads(src.lines));
    var order := FirstSeen(fs);
    TranslatedAndCollected(src, msgID, model, r1, out, valid, id1);
    CollectedDirectly(src, valid, id2, r2);
    SortPermutes(order);
    forall k | 0 <= k < |order|
      ensures NormTool(ToolBlock(fs, order[k], r1), valid) == LastTool(fs, order[k], valid, r2) <==>
              SameIdentity(fs, order[k], r1, r2)
    {
      ToolAgreesIff(fs, order[k], valid, r1, r2);
    }
  }

  /** In particular, on consistent fragments every tool agrees, and the order too if indices first appear in ascending
      order. */
  lemma StreamingAgreesWithCollecting(src: Source<Chunk>, msgID: string, model: string, r1: int -> string,
                                      out: seq<Event>, valid: string -> bool, id1: string, id2: string,
                                      r2: int -> string)
    requires !src.failed || Finished(src.lines)
    requires T.IsOutput(out, T.BeforeFinalize(src, msgID, model, r1))
    requires Consistent(Fragments(Payloads(src.lines)))
    ensures var a, o := AnthCollected(Intact(EventLines(out)), valid, id1), OaiCollected(src, valid, id2, r2);
            var order := FirstSeen(Fragments(Payloads(src.lines)));
            && a.Some? && o.Some?
            && TextIn(a.value.content) == TextIn(o.value.content)
            && |ToolsIn(a.value.content)| == |ToolsIn(o.value.content)| == |order| == |Sort(order)|
            && (forall k, l :: 0 <= k < |order| && 0 <= l < |order| && order[k] == Sort(order)[l] ==>
                  ToolsIn(a.value.content)[k] == ToolsIn(o.value.content)[l])
            && (Ascending(order) ==> ToolsIn(a.value.content) == ToolsIn(o.value.content))
  {
    hide AnthCollected, OaiCollected, Fragments, FirstSeen, TextIn, ToolsIn, Sort, Payloads, Finished;
    hide T.BeforeFinalize, T.IsOutput, Consistent, SameIdentity, Ascending;
    var fs := Fragments(Payloads(src.lines));
    var order := FirstSeen(fs);
    StreamingAgreesIff(src, msgID, model, r1, out, valid, id1, id2, r2);
    forall k | 0 <= k < |order| ensures SameIdentity(fs, order[k], r1, r2) {
      ConsistentIdentity(fs, order[k], r1, r2);
    }
    if Ascending(order) { SortOfAscending(order); }
  }

  /** The order of the tools agrees exactly when the indices first appear in ascending order. */
  lemma ToolOrderAgreesIff(src: Source<Chunk>, msgID: string, model: string, r1: int -> string, out: seq<Event>,
                           valid: string -> bool, id1: string, id2: string, r2: int -> string)
    requires !src.failed || Finished(src.lines)
    requires T.IsOutput(out, T.BeforeFinalize(src, msgID, model, r1))
    requires Consistent(Fragments(Payloads(src.lines)))
    requires DistinctIds(Fragments(Payloads(src.lines)))
    ensures var a, o := AnthCollected(Intact(EventLines(out)), valid, id1), OaiCollected(src, valid, id2, r2);
            a.Some? && o.Some? &&
            (ToolsIn(a.value.content) == ToolsIn(o.value.content) <==>
             Ascending(FirstSeen(Fragments(Payloads(src.lines)))))
  {
    hide AnthCollected, OaiCollected, Fragments, FirstSeen, TextIn, ToolsIn, Sort, Payloads, Finished, TextOf, FinishOf;
    hide T.BeforeFinalize, T.IsOutput, Consistent, Ascending, FirstTools, LastTools, DistinctIds;
    var fs := Fragments(Payloads(src.lines));
    StreamingAgreesWithCollecting(src, msgID, model, r1, out, valid, id1, id2, r2);
    TranslatedAndCollected(src, msgID, model, r1, out, valid, id1);
    CollectedDirectly(src, valid, id2, r2);
    if FirstTools(fs, valid, r1) == LastTools(fs, Sort(FirstSeen(fs)), valid, r2) {
      SameToolsSorted(fs, valid, r1, r2);
    }
  }

  /** Different tools have different first identifiers. */
  ghost predicate DistinctIds(fs: seq<ToolDelta>) {
    forall i, j :: i in FirstSeen(fs) && j in FirstSeen(fs) && FirstFragment(fs, i).id == FirstFragment(fs, j).id ==>
      i == j
  }

  lemma SameToolsSorted(fs: seq<ToolDelta>, valid: string -> bool, r1: int -> string, r2: int -> string)
    requires Consistent(fs) && DistinctIds(fs)
    requires FirstTools(fs, valid, r1) == LastTools(fs, Sort(FirstSeen(fs)), valid, r2)
    ensures Ascending(FirstSeen(fs))
  {
    hide Consistent, FirstSeen, Sort, FirstFragment, LastId, LastName, ArgsOf, Normalize, FirstTools, LastTools;
    var order := FirstSeen(fs);
    SortAscending(order);
    SortPermutes(order);
    forall k | 0 <= k < |order| ensures order[k] == Sort(order)[k] {
      var i, j := order[k], Sort(order)[k];
      assert j in Sort(order);
      FirstToolAt(fs, valid, r1, k);
      LastToolAt(fs, Sort(order), valid, r2, k);
      ConsistentIdentity(fs, i, r1, r2);
      ConsistentIdentity(fs, j, r1, r2);
    }
    assert order == Sort(order);
  }

  lemma FirstToolAt(fs: seq<ToolDelta>, valid: string -> bool, rand: int -> string, k: nat)
    requires k < |FirstSeen(fs)|
    ensures |FirstTools(fs, valid, rand)| == |FirstSeen(fs)|
    ensures var i := FirstSeen(fs)[k];
            FirstTools(fs, valid, rand)[k].id == FirstNonEmpty(FirstFragment(fs, i).id, rand(i))
  {
  }

  lemma LastToolAt(fs: seq<ToolDelta>, idxs: seq<int>, valid: string -> bool, rand: int -> string, k: nat)
    requires k < |idxs|
    ensures |LastTools(fs, idxs, valid, rand)| == |idxs|
    ensures LastTools(fs, idxs, valid, rand)[k].id == FirstNonEmpty(LastId(fs, idxs[k]), rand(idxs[k]))
  {
  }

  /** The stop reason written inside `message_delta` is the directly collected one, but the collector of
      events looks for it at top level: it survives exactly when the chunks give none or the default. */
  lemma StopReasonAgreement(src: Source<Chunk>, msgID: string, model: string, r1: int -> string, out: seq<Event>,
                            valid: string -> bool, id1: string, id2: string, r2: int -> string)
    requires !src.failed || Finished(src.lines)
    requires T.IsOutput(out, T.BeforeFinalize(src, msgID, model, r1))
    ensures var a, o := AnthCollected(Intact(EventLines(out)), valid, id1), OaiCollected(src, valid, id2, r2);
            && |out| >= 2 && out[|out| - 2].MessageDelta? && a.Some? && o.Some?
            && out[|out| - 2].deltaStopReason == o.value.stopReason
            && (a.value.stopReason == o.value.stopReason <==> FinishOf(Payloads(src.lines)) in {"", "end_turn"})
  {
    hide AnthCollected, OaiCollected, Fragments, FirstSeen, TextIn, ToolsIn, Sort, Payloads, Finished, TextOf, FinishOf;
    hide T.BeforeFinalize, T.IsOutput, FirstTools, LastTools;
    TranslatedAndCollected(src, msgID, model, r1, out, valid, id1);
    CollectedDirectly(src, valid, id2, r2);
  }

  lemma LastTwo(out: seq<Event>, t: T.State)
    requires T.IsOutput(out, t)
    ensures |out| >= 2 && out[|out| - 2] == T.FinalEvents(t)[0]
  {
  }

  // ----- inputs on which the two differ -----

  function OneDelta(d: Delta): Payload<Chunk> {
    Decoded(Chunk("", [Choice(Some(d), None)], None))
  }

  /** One chunk that ends for length: `max_tokens` becomes `end_turn`. */
  lemma StopReasonLost(msgID: string, model: string, r1: int -> string, out: seq<Event>,
                       valid: string -> bool, id1: string, id2: string, r2: int -> string)
    requires T.IsOutput(out, T.BeforeFinalize(CutShort(), msgID, model, r1))
    ensures var a, o := AnthCollected(Intact(EventLines(out)), valid, id1), OaiCollected(CutShort(), valid, id2, r2);
            a.Some? && o.Some? && o.value.stopReason == "max_tokens" && a.value.stopReason == "end_turn"
  {
    var ps := Payloads(CutShort().lines);
    assert ps == [Decoded(Chunk("", [Choice(None, Some("length"))], None))] by {
      assert CutShort().lines[1..] == [];
    }
    assert ps[..0] == [];
    assert FinishOf(ps) == "max_tokens";
    hide AnthCollected, OaiCollected, T.BeforeFinalize, T.IsOutput, FinishOf, TextIn, ToolsIn, FirstTools, LastTools;
    TranslatedAndCollected(CutShort(), msgID, model, r1, out, valid, id1);
    CollectedDirectly(CutShort(), valid, id2, r2);
  }

  function CutShort(): Source<Chunk> {
    Intact([Data(Decoded(Chunk("", [Choice(None, Some("length"))], None)))])
  }

  /** A tool whose name comes with its second fragment. */
  function LateName(): Source<Chunk> {
    Intact([Data(OneDelta(Delta("", [ToolDelta(0, "t", "", "")]))),
            Data(OneDelta(Delta("", [ToolDelta(0, "", "f", "")])))])
  }

  lemma LateNameFragments()
    ensures Fragments(Payloads(LateName().lines)) == [ToolDelta(0, "t", "", ""), ToolDelta(0, "", "f", "")]
  {
    var d, e := Delta("", [ToolDelta(0, "t", "", "")]), Delta("", [ToolDelta(0, "", "f", "")]);
    TwoPayloads(OneDelta(d), OneDelta(e));
    TwoFragments(OneDelta(d), OneDelta(e));
    hide Payloads, Fragments;
    assert d.toolCalls + e.toolCalls == [ToolDelta(0, "t", "", ""), ToolDelta(0, "", "f", "")];
  }

  lemma TwoPayloads(p: Payload<Chunk>, q: Payload<Chunk>)
    requires p != Done && q != Done
    ensures Payloads([Data(p), Data(q)]) == [p, q]
  {
    PayloadsSnoc([Data(p)], Data(q));
    PayloadsSnoc([], Data(p));
    hide Payloads;
    NoPayloads();
    assert [Data(p)] + [Data(q)] == [Data(p), Data(q)];
    assert [] + [Data(p)] == [Data(p)];
    assert [] + [p] == [p];
    assert [p] + [q] == [p, q];
  }

  lemma NoPayloads()
    ensures Payloads<Chunk>([]) == []
  {
  }

  lemma TwoFragments(p: Payload<Chunk>, q: Payload<Chunk>)
    ensures Fragments([p, q]) == DeltaOf(p).toolCalls + DeltaOf(q).toolCalls
  {
    hide DeltaOf;
    assert [p, q][..1] == [p] && [p][..0] == [];
    assert Fragments([p]) == [] + DeltaOf(p).toolCalls == DeltaOf(p).toolCalls;
  }

  lemma LateNameTool(fs: seq<ToolDelta>)
    requires fs == [ToolDelta(0, "t", "", ""), ToolDelta(0, "", "f", "")]
    ensures FirstSeen(fs) == [0] && FirstFragment(fs, 0).name == "" && LastName(fs, 0) == "f"
  {
    assert fs[..1] == [fs[0]] && fs[..1][..0] == [];
    assert FirstSeen(fs[..1]) == [0];
  }

  /** The direct collector keeps that name, the events lose it. */
  lemma LateNameLost(msgID: string, model: string, r1: int -> string, out: seq<Event>,
                     valid: string -> bool, id1: string, id2: string, r2: int -> string)
    requires T.IsOutput(out, T.BeforeFinalize(LateName(), msgID, model, r1))
    ensures var a, o := AnthCollected(Intact(EventLines(out)), valid, id1), OaiCollected(LateName(), valid, id2, r2);
            && a.Some? && o.Some? && |ToolsIn(a.value.content)| == |ToolsIn(o.value.content)| == 1
            && ToolsIn(a.value.content)[0].name == "" && ToolsIn(o.value.content)[0].name == "f"
  {
    var fs := [ToolDelta(0, "t", "", ""), ToolDelta(0, "", "f", "")];
    hide AnthCollected, OaiCollected, T.BeforeFinalize, T.IsOutput, FinishOf, TextIn, ToolsIn, Fragments, Payloads;
    hide Sort, FirstFragment, LastName, LastId, ArgsOf, FirstSeen, Normalize, TextOf;
    LateNameFragments();
    LateNameTool(fs);
    SortOfAscending([0]);
    TranslatedAndCollected(LateName(), msgID, model, r1, out, valid, id1);
    CollectedDirectly(LateName(), valid, id2, r2);
  }

  lemma FinalizedUsage(src: Source<Chunk>, msgID: string, model: string, rand: int -> string)
    ensures var ps := Payloads(src.lines);
            T.FinalUsage(T.BeforeFinalize(src, msgID, model, rand)) == Usage(UsageOf(ps).prompt, OutputTokens(ps), 0, 0)
  {
    var ps := Payloads(src.lines);
    if FailedBeforePayload(src) {
      assert T.BeforeFinalize(src, msgID, model, rand) == T.Initial();
      assert UsageOf([]) == OaiUsage(0, 0) && OutputTokens([]) == 0;
    } else {
      hide T.BeforeFinalize, T.FinalUsage, UsageOf, OutputTokens, Payloads;
      FedPayloads(src, msgID, model, rand);
      FinalOutput(ps, msgID, model, rand);
    }
  }

  lemma SummarizedCount(s: OaiState, fs: seq<ToolDelta>)
    requires Summarizes(s, fs)
    ensures |s.tools| == |FirstSeen(fs)|
  {
    FirstSeenFacts(fs);
    KeyCount(s.tools.Keys, FirstSeen(fs));
    hide FirstSeen, LastId, LastName, ArgsOf;
  }

  /** The usage `Finalize` returns is the directly collected one, except exactly when a prompt count came
      with no completion count and there was something to estimate. */
  lemma UsageAgreement(src: Source<Chunk>, msgID: string, model: string, r1: int -> string,
                       valid: string -> bool, id2: string, r2: int -> string)
    requires !src.failed || Finished(src.lines)
    ensures var u, o := UsageOf(Payloads(src.lines)), OaiCollected(src, valid, id2, r2);
            var anything := TextOf(Payloads(src.lines)) != "" || FirstSeen(Fragments(Payloads(src.lines))) != [];
            && o.Some?
            && (T.FinalUsage(T.BeforeFinalize(src, msgID, model, r1)) == o.value.usage
                <==> !(u.prompt != 0 && u.completion == 0 && anything))
  {
    hide T.BeforeFinalize, T.FinalUsage, AddChunks, Fragments, TextOf, FinishOf, FirstSeen, UsageOf, Sort, Payloads;
    hide Finished, Summarizes;
    var ps := Payloads(src.lines);
    FinalizedUsage(src, msgID, model, r1);
    CollectorSummarizes(ps);
    SummarizedCount(AddChunks(OAI_START, ps), Fragments(ps));
  }
}
