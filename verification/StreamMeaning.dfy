/** What the stream machines write and collect, said from the payloads alone, in words and figures. */
module StreamMeaning {
  import opened Common
  import opened StreamTypes
  import opened Sorting
  import T = Translator
  import opened Collectors
  import opened EventGrammar
  import opened StreamAgreement
  import opened DenseStream
  import opened Agreement

  // ----- the stop reason -----

  /** The finish word of a payload's first choice; empty if it has none. */
  function FinishWord(p: Payload<Chunk>): string {
    if p.Decoded? && p.value.choices != [] && p.value.choices[0].finish.Some? then p.value.choices[0].finish.value
    else ""
  }

  /** The last finish word that is not empty; empty if there is none. */
  function LastWord(ps: seq<Payload<Chunk>>): string {
    if ps == [] then ""
    else if FinishWord(ps[|ps| - 1]) != "" then FinishWord(ps[|ps| - 1])
    else LastWord(ps[..|ps| - 1])
  }

  /** The stop reason that answers to a finish word. */
  ghost predicate Answers(reason: string, word: string) {
    && (reason == "max_tokens" <==> word == "length")
    && (reason == "tool_use" <==> word == "tool_calls" || word == "function_call")
    && (reason == "end_turn" <==> word != "length" && word != "tool_calls" && word != "function_call")
  }

  lemma {:induction false} FinishAnswers(ps: seq<Payload<Chunk>>)
    ensures FinishOf(ps) == "" <==> LastWord(ps) == ""
    ensures Answers(FirstNonEmpty(FinishOf(ps), "end_turn"), LastWord(ps))
  {
    if ps == [] {
    } else {
      FinishAnswers(ps[..|ps| - 1]);
    }
  }

  /** Main result on stop reasons, for every source: the one written in `message_delta` and the one collected directly
      are max_tokens exactly if the last finish word is "length", tool_use exactly if it is "tool_calls" or
      "function_call", and end_turn exactly for any other word and for none. */
  lemma StopReasonAnswers(src: Source<Chunk>, msgID: string, model: string, r1: int -> string, out: seq<Event>,
                          valid: string -> bool, id2: string, r2: int -> string)
    requires T.IsOutput(out, T.BeforeFinalize(src, msgID, model, r1))
    ensures var word := LastWord(Payloads(src.lines));
            && |out| >= 2 && out[|out| - 2].MessageDelta? && Answers(out[|out| - 2].deltaStopReason, word)
            && (OaiCollected(src, valid, id2, r2).Some? ==>
                  Answers(OaiCollected(src, valid, id2, r2).value.stopReason, word))
  {
    hide T.IsOutput, T.BeforeFinalize, AnthCollected, OaiCollected, TextIn, ToolsIn, FirstTools, LastTools, Sort;
    hide Fragments, FirstSeen, TextOf, FinishOf, Answers, LastWord;
    TranslatedAndCollected(src, msgID, model, r1, out, valid, id2);
    FinishAnswers(Payloads(src.lines));
    CollectedOnlyIf(src, valid, id2, r2);
    if OaiCollected(src, valid, id2, r2).Some? { CollectedDirectly(src, valid, id2, r2); }
  }

  lemma CollectedOnlyIf(src: Source<Chunk>, valid: string -> bool, id: string, rand: int -> string)
    ensures OaiCollected(src, valid, id, rand).Some? <==> !src.failed || Finished(src.lines)
  {
  }

  // ----- the first and the last events -----

  lemma StartStays(ps: seq<Payload<Chunk>>, msgID: string, model: string, rand: int -> string)
    ensures var t := T.OnPayloads(T.Started(T.Initial(), msgID, model), ps, rand);
            [MessageStart(msgID, model, Usage(0, 1, 0, 0))] <= t.out && t.stopReason == FinishOf(ps)
  {
    hide T.OnPayloads;
    PayloadTotals(T.Started(T.Initial(), msgID, model), ps, rand);
  }

  lemma StartWritten(out: seq<Event>, t: T.State, start: Event)
    requires T.IsOutput(out, t) && [start] <= t.out
    ensures |out| >= 3 && out[0] == start
    ensures out[|out| - 2..] == T.FinalEvents(t)
  {
    hide T.IsIndexList, T.FinalUsage;
    assert t.out[0] == start;
    assert t.out <= T.CloseText(t).out;
  }

  /** The events around the blocks, for every source not lost before its first payload. */
  lemma FrameWritten(src: Source<Chunk>, msgID: string, model: string, rand: int -> string, out: seq<Event>)
    requires !FailedBeforePayload(src) && T.IsOutput(out, T.BeforeFinalize(src, msgID, model, rand))
    ensures var ps := Payloads(src.lines);
            var last := UsageOf(ps);
            var tokens := if last.completion != 0 then last.completion
                          else (|TextOf(ps)| + 3) / 4 + |FirstSeen(Fragments(ps))| * 60;
            && |out| >= 3 && out[0] == MessageStart(msgID, model, Usage(0, 1, 0, 0)) && out[|out| - 1] == MessageStop
            && out[|out| - 2].MessageDelta? && out[|out| - 2].topStopReason == ""
            && out[|out| - 2].deltaUsage == Some(Usage(last.prompt, tokens, 0, 0))
            && Answers(out[|out| - 2].deltaStopReason, LastWord(ps))
  {
    hide T.IsOutput, T.BeforeFinalize, T.OnPayloads, T.FinalUsage, TextOf, Fragments, FirstSeen, UsageOf, LastWord;
    hide Answers, FinishOf, Payloads;
    var ps := Payloads(src.lines);
    FedPayloads(src, msgID, model, rand);
    StartStays(ps, msgID, model, rand);
    FinalOutput(ps, msgID, model, rand);
    FinishAnswers(ps);
    StartWritten(out, T.BeforeFinalize(src, msgID, model, rand), MessageStart(msgID, model, Usage(0, 1, 0, 0)));
  }

  // ----- the collected header -----

  function ModelOf(p: Payload<Chunk>): string {
    if p.Decoded? then p.value.model else ""
  }

  /** The last model name that is not empty; empty if there is none. */
  function LastModel(ps: seq<Payload<Chunk>>): string {
    if ps == [] then ""
    else if ModelOf(ps[|ps| - 1]) != "" then ModelOf(ps[|ps| - 1])
    else LastModel(ps[..|ps| - 1])
  }

  lemma {:induction false} FragmentsKeepModel(s: OaiState, tcs: seq<ToolDelta>)
    ensures AddFragments(s, tcs).model == s.model
  {
    if tcs == [] {
    } else {
      FragmentsKeepModel(s, tcs[..|tcs| - 1]);
    }
  }

  lemma ChunkModel(s: OaiState, p: Payload<Chunk>)
    ensures AddChunk(s, p).model == if ModelOf(p) != "" then ModelOf(p) else s.model
  {
    hide AddFragments;
    if p.Decoded? && p.value.choices != [] && p.value.choices[0].delta.Some? {
      var u, d := AddHeader(s, p.value), p.value.choices[0].delta.value;
      FragmentsKeepModel(u.(text := u.text + d.content), d.toolCalls);
    }
  }

  lemma {:induction false} ModelKept(ps: seq<Payload<Chunk>>)
    ensures AddChunks(OAI_START, ps).model == LastModel(ps)
  {
    if ps == [] {
    } else {
      ModelKept(ps[..|ps| - 1]);
      ChunkModel(AddChunks(OAI_START, ps[..|ps| - 1]), ps[|ps| - 1]);
      hide AddChunk, ModelOf;
    }
  }

  /** The header collected directly: the last model name or "unknown", and the last usage, estimated only if that counts
      nothing at all. */
  lemma CollectedHeader(src: Source<Chunk>, valid: string -> bool, id: string, rand: int -> string)
    requires !src.failed || Finished(src.lines)
    ensures var o, ps := OaiCollected(src, valid, id, rand), Payloads(src.lines);
            && o.Some? && o.value.id == id
            && o.value.model == (if LastModel(ps) != "" then LastModel(ps) else "unknown")
            && o.value.usage == (if UsageOf(ps) == OaiUsage(0, 0)
                                 then Usage(0, (|TextOf(ps)| + 3) / 4 + |FirstSeen(Fragments(ps))| * 60, 0, 0)
                                 else Usage(UsageOf(ps).prompt, UsageOf(ps).completion, 0, 0))
  {
    hide AddChunks, Sort, FirstSeen, Fragments, TextOf, UsageOf, LastModel, Payloads, Finished, FinishOf, Summarizes;
    var ps := Payloads(src.lines);
    ModelKept(ps);
    CollectorSummarizes(ps);
    SummarizedCount(AddChunks(OAI_START, ps), Fragments(ps));
  }

  // ----- the collected blocks -----

  /** The blocks a client sees: thinking is left out, a tool's input is kept if it is valid JSON. */
  function Visible(bs: seq<Block>, valid: string -> bool): seq<Block> {
    if bs == [] then []
    else
      var b := bs[0];
      var rest := Visible(bs[1..], valid);
      if b.kind == Thinking then rest
      else if b.kind == ToolUse then [b.(input := if b.input != "" && valid(b.input) then b.input else "{}")] + rest
      else [b.(input := "")] + rest
  }

  lemma {:induction false} VisibleSnoc(bs: seq<Block>, b: Block, valid: string -> bool)
    ensures Visible(bs + [b], valid) == Visible(bs, valid) + Visible([b], valid)
  {
    if bs == [] {
      assert [] + [b] == [b];
      assert Visible([], valid) + Visible([b], valid) == Visible([b], valid);
    } else {
      assert (bs + [b])[1..] == bs[1..] + [b];
      VisibleSnoc(bs[1..], b, valid);
      VisibleCons(bs[0], bs[1..], valid);
      VisibleCons(bs[0], bs[1..] + [b], valid);
      assert [bs[0]] + bs[1..] == bs && [bs[0]] + (bs[1..] + [b]) == bs + [b];
      hide Visible;
    }
  }

  lemma VisibleCons(b: Block, bs: seq<Block>, valid: string -> bool)
    ensures Visible([b] + bs, valid) == Visible([b], valid) + Visible(bs, valid)
  {
    assert ([b] + bs)[1..] == bs && [b][1..] == [];
    assert Visible([], valid) == [];
    assert forall x: Block :: [x] + [] == [x];
    assert [] + Visible(bs, valid) == Visible(bs, valid);
  }

  lemma {:induction false} FinishedVisible(bs: seq<Block>, valid: string -> bool)
    ensures FinishedBlocks(bs, valid) == Visible(bs, valid)
  {
    if bs == [] {
    } else {
      var init, b := bs[..|bs| - 1], bs[|bs| - 1];
      FinishedVisible(init, valid);
      VisibleSnoc(init, b, valid);
      OneVisible(b, valid);
      assert init + [b] == bs;
      hide Visible, FinishBlock;
    }
  }

  lemma OneVisible(b: Block, valid: string -> bool)
    ensures FinishBlock(b.(input := ""), b.input, valid) == Visible([b], valid)
  {
    assert [b][1..] == [];
    assert Visible([b][1..], valid) == [];
  }

  /** The content collected of a complete accepted stream: its visible blocks, or one empty text. */
  lemma CollectedVisible(start: Event, body: seq<Event>, delta: Event, valid: string -> bool, id: string)
    requires start.MessageStart? && delta.MessageDelta?
    requires AllBlockEvents(body)
    requires Watch(Framed(start, body, delta)) != Rejected
    ensures var es := Framed(start, body, delta);
            var r, seen := AnthCollected(Intact(EventLines(es)), valid, id), Visible(Blocks(es), valid);
            r.Some? && r.value.content == if seen == [] then [Block(Text, "", "", "", "")] else seen
  {
    hide Blocks, FinishedBlocks, Visible, AnthCollected, Watch, Framed, AllBlockEvents, EventLines;
    CollectFramed(start, body, delta, valid, id);
    FinishedVisible(Blocks(Framed(start, body, delta)), valid);
  }

  // ----- lines that end the collection, and lines that do not count -----

  lemma {:induction false} PayloadsSplit<X>(a: seq<Line<X>>, b: seq<Line<X>>)
    requires !Finished(a)
    ensures Payloads(a + b) == Payloads(a) + Payloads(b) && (Finished(a + b) <==> Finished(b))
  {
    if a == [] {
      assert a + b == b;
      assert Payloads(a) + Payloads(b) == Payloads(b);
    } else {
      assert (a + b)[1..] == a[1..] + b;
      assert a[0] in a;
      PayloadsSplit(a[1..], b);
      assert a == [a[0]] + a[1..];
      assert a + b == [a[0]] + (a[1..] + b);
    }
  }

  lemma OnePayload<X>(p: Payload<X>)
    requires p != Done
    ensures Payloads([Data(p)]) == [p] && !Finished([Data(p)])
  {
    assert [Data(p)][1..] == [];
    assert Payloads([Data(p)][1..]) == [];
  }

  lemma HaltedMessage(s: AnthState, valid: string -> bool)
    requires AnthWellFormed(s)
    ensures AnthWellFormed(s.(halted := true))
    ensures forall k :: 0 <= k < |Sort(s.order)| ==> Sort(s.order)[k] in s.blocks && Sort(s.order)[k] in s.inputs
    ensures AnthMessage(s.(halted := true), valid) == AnthMessage(s, valid)
  {
    hide Sort;
    AnthSortedKnown(s);
    FinishReadsBlocks(s, s.(halted := true), Sort(s.order), valid);
  }

  lemma ErrorHalts(s: AnthState, ps: seq<Payload<Event>>, more: seq<Payload<Event>>)
    ensures OnAnthPayloads(s, ps + ([Decoded(ErrorEvent)] + more)) == OnAnthPayloads(s, ps).(halted := true)
  {
    var upTo := ps + [Decoded(ErrorEvent)];
    assert upTo[..|ps|] == ps;
    assert OnAnthPayloads(s, upTo) == OnAnthPayloads(s, ps).(halted := true);
    hide OnAnthPayloads;
    HaltedStays(s, upTo, more);
    assert ps + ([Decoded(ErrorEvent)] + more) == upTo + more;
  }

  lemma CollectedIs(lines: seq<Line<Event>>, s: AnthState, valid: string -> bool, id: string)
    requires OnAnthPayloads(AnthStart(id), Payloads(lines)) == s
    ensures forall k :: 0 <= k < |Sort(s.order)| ==> Sort(s.order)[k] in s.blocks && Sort(s.order)[k] in s.inputs
    ensures AnthWellFormed(s) && AnthCollected(Intact(lines), valid, id) == Some(AnthMessage(s, valid))
  {
    hide Sort, AnthMessage, OnAnthPayloads, Payloads;
    AnthStaysWellFormed(AnthStart(id), Payloads(lines));
    AnthSortedKnown(s);
  }

  /** An error event ends the collection: nothing behind it counts. */
  lemma ErrorEventEnds(a: seq<Line<Event>>, b: seq<Line<Event>>, valid: string -> bool, id: string)
    ensures AnthCollected(Intact(a + ([Data(Decoded(ErrorEvent))] + b)), valid, id) ==
            AnthCollected(Intact(a), valid, id)
  {
    hide AnthCollected, OnAnthPayloads, AnthMessage, Sort, Payloads, Finished, AnthWellFormed;
    var e := Data(Decoded(ErrorEvent));
    var lines := a + ([e] + b);
    var s := OnAnthPayloads(AnthStart(id), Payloads(a));
    CollectedIs(a, s, valid, id);
    if Finished(a) {
      PayloadsCut(a, [e] + b);
      CollectedIs(lines, s, valid, id);
    } else {
      PayloadsSplit(a, [e] + b);
      OnePayload<Event>(Decoded(ErrorEvent));
      PayloadsSplit([e], b);
      ErrorHalts(AnthStart(id), Payloads(a), Payloads(b));
      HaltedMessage(s, valid);
      CollectedIs(lines, s.(halted := true), valid, id);
    }
  }

  /** A line that says nothing: blank, no data line, or a payload that cannot be decoded. */
  predicate Void<X>(l: Line<X>) {
    l.Skipped? || l.payload.Undecodable?
  }

  lemma VoidPayload<X>(l: Line<X>)
    requires Void(l)
    ensures !Finished([l]) && Payloads([l]) == if l.Skipped? then [] else [Undecodable]
  {
    assert [l][1..] == [];
    assert Payloads([l][1..]) == [];
  }

  lemma UndecodableIgnored(s: AnthState, a: seq<Payload<Event>>, b: seq<Payload<Event>>)
    ensures OnAnthPayloads(s, a + ([Undecodable] + b)) == OnAnthPayloads(s, a + b)
  {
    OnPayloadsSplit(s, a, [Undecodable] + b);
    OnPayloadsSplit(s, a, b);
    var t := OnAnthPayloads(s, a);
    OnPayloadsSplit(t, [Undecodable], b);
    var one: seq<Payload<Event>> := [Undecodable];
    assert one[..0] == [];
    assert OnAnthPayloads(t, [Undecodable]) == t;
  }

  /** Lines that say nothing change nothing, wherever they stand. */
  lemma VoidLinesIgnored(a: seq<Line<Event>>, l: Line<Event>, b: seq<Line<Event>>, valid: string -> bool, id: string)
    requires Void(l)
    ensures AnthCollected(Intact(a + ([l] + b)), valid, id) == AnthCollected(Intact(a + b), valid, id)
  {
    hide AnthCollected, OnAnthPayloads, AnthMessage, Sort, Payloads, Finished, AnthWellFormed;
    var s := OnAnthPayloads(AnthStart(id), Payloads(a + b));
    CollectedIs(a + b, s, valid, id);
    if Finished(a) {
      PayloadsCut(a, [l] + b);
      PayloadsCut(a, b);
    } else {
      PayloadsSplit(a, [l] + b);
      PayloadsSplit(a, b);
      VoidPayload(l);
      PayloadsSplit([l], b);
      if l.Skipped? {
        assert [] + Payloads(b) == Payloads(b);
      } else {
        UndecodableIgnored(AnthStart(id), Payloads(a), Payloads(b));
      }
    }
    CollectedIs(a + ([l] + b), s, valid, id);
  }
}
