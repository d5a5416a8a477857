/** `WriteSyntheticStream`: a message replayed as a stream, and collected again. */
module Synthetic {
  import opened Common
  import opened StreamTypes
  import opened Sorting
  import opened Collectors
  import opened EventGrammar
  import opened DenseStream

  function BlockEvents(i: nat, b: Block): seq<Event> {
    if b.kind == ToolUse then
      [BlockStart(i, Some(BlockHeader(ToolUse, b.id, b.name))),
       BlockDelta(i, Some(InputJsonDelta(if b.input == "" then "{}" else b.input))),
       BlockStop(i)]
    else
      [BlockStart(i, Some(BlockHeader(Text, "", "")))]
      + (if b.text != "" then [BlockDelta(i, Some(TextDelta(b.text)))] else [])
      + [BlockStop(i)]
  }

  function ContentEvents(bs: seq<Block>): seq<Event> {
    if bs == [] then [] else ContentEvents(bs[..|bs| - 1]) + BlockEvents(|bs| - 1, bs[|bs| - 1])
  }

  function ContentLength(bs: seq<Block>): nat {
    if bs == [] then 0 else ContentLength(bs[..|bs| - 1]) + |bs[|bs| - 1].text| + |bs[|bs| - 1].input|
  }

  /** The reported output tokens, or an estimate from the length when there are none. */
  function OutputTokens(m: Message): int {
    if m.usage.output == 0 then EstimateTokens(ContentLength(m.content)) else m.usage.output
  }

  function StartEvent(m: Message, freshId: string): Event {
    MessageStart(FirstNonEmpty(m.id, freshId), m.model, Usage(m.usage.input, 1, 0, 0))
  }

  function DeltaEvent(m: Message): Event {
    MessageDelta("", FirstNonEmpty(m.stopReason, "end_turn"), Some(Usage(m.usage.input, OutputTokens(m), 0, 0)))
  }

  function Replay(m: Message, freshId: string): seq<Event> {
    Framed(StartEvent(m, freshId), ContentEvents(m.content), DeltaEvent(m))
  }

  method OutputEstimate(m: Message) returns (tokens: int)
    ensures tokens == OutputTokens(m)
  {
    tokens := m.usage.output;
    if tokens == 0 {
      var total := 0;
      for k := 0 to |m.content|
        invariant total == ContentLength(m.content[..k])
      {
        assert m.content[..k + 1][..k] == m.content[..k];
        total := total + |m.content[k].text| + |m.content[k].input|;
      }
      assert m.content[..|m.content|] == m.content;
      tokens := EstimateTokens(total);
    }
  }

  method WriteBlock(i: nat, b: Block) returns (out: seq<Event>)
    ensures out == BlockEvents(i, b)
  {
    if b.kind == ToolUse {
      out := [BlockStart(i, Some(BlockHeader(ToolUse, b.id, b.name)))];
      var args := b.input;
      if args == "" { args := "{}"; }
      out := out + [BlockDelta(i, Some(InputJsonDelta(args)))];
    } else {
      out := [BlockStart(i, Some(BlockHeader(Text, "", "")))];
      if b.text != "" { out := out + [BlockDelta(i, Some(TextDelta(b.text)))]; }
    }
    out := out + [BlockStop(i)];
  }

  method WriteSyntheticStream(m: Message, freshId: string) returns (out: seq<Event>)
    ensures out == Replay(m, freshId)
  {
    var tokens := OutputEstimate(m);
    out := [MessageStart(FirstNonEmpty(m.id, freshId), m.model, Usage(m.usage.input, 1, 0, 0))];
    hide BlockEvents, OutputTokens;
    ghost var body: seq<Event> := [];
    for i := 0 to |m.content|
      invariant out == [StartEvent(m, freshId)] + body && body == ContentEvents(m.content[..i])
    {
      var es := WriteBlock(i, m.content[i]);
      out := out + es;
      body := body + es;
      assert m.content[..i + 1][..i] == m.content[..i];
    }
    assert m.content[..|m.content|] == m.content;
    out := out + [MessageDelta("", FirstNonEmpty(m.stopReason, "end_turn"), Some(Usage(m.usage.input, tokens, 0, 0)))];
    out := out + [MessageStop];
  }

  /** The lengths of all texts and inputs, from the front. */
  function LengthOf(bs: seq<Block>): nat {
    if bs == [] then 0 else |bs[0].text| + |bs[0].input| + LengthOf(bs[1..])
  }

  lemma {:induction false} LengthSnoc(bs: seq<Block>, b: Block)
    ensures LengthOf(bs + [b]) == LengthOf(bs) + |b.text| + |b.input|
  {
    if bs == [] {
      assert [] + [b] == [b] && [b][1..] == [];
    } else {
      assert (bs + [b])[1..] == bs[1..] + [b];
      LengthSnoc(bs[1..], b);
    }
  }

  lemma {:induction false} LengthIs(bs: seq<Block>)
    ensures ContentLength(bs) == LengthOf(bs)
  {
    if bs == [] {
    } else {
      LengthIs(bs[..|bs| - 1]);
      LengthSnoc(bs[..|bs| - 1], bs[|bs| - 1]);
      assert bs[..|bs| - 1] + [bs[|bs| - 1]] == bs;
      hide LengthOf;
    }
  }

  /** The events around the blocks of a replay: the message's own identifier, stop reason and usage if it has them. */
  lemma ReplayFrame(m: Message, freshId: string)
    ensures var out := Replay(m, freshId);
            var tokens := if m.usage.output != 0 then m.usage.output else (LengthOf(m.content) + 3) / 4;
            && |out| >= 3
            && out[0] == MessageStart(if m.id != "" then m.id else freshId, m.model, Usage(m.usage.input, 1, 0, 0))
            && out[|out| - 2] == MessageDelta("", if m.stopReason != "" then m.stopReason else "end_turn",
                                              Some(Usage(m.usage.input, tokens, 0, 0)))
            && out[|out| - 1] == MessageStop
  {
    LengthIs(m.content);
    hide ContentEvents, ContentLength, LengthOf;
  }

  // ----- the replay is a well-formed stream of exactly these blocks -----

  /** The block as the replay carries it. */
  function Carried(b: Block): Block {
    if b.kind == ToolUse then Block(ToolUse, "", b.id, b.name, if b.input == "" then "{}" else b.input)
    else Block(Text, b.text, "", "", "")
  }

  function CarriedAll(bs: seq<Block>): seq<Block> {
    seq(|bs|, i requires 0 <= i < |bs| => Carried(bs[i]))
  }

  lemma OneBlock(m: Monitor, i: nat, h: BlockHeader, c: BlockChange)
    requires m == Body(i, map[]) && c.OtherDelta? == false && (c.TextDelta? <==> h.kind == Text)
    ensures var m1 := Observe(m, BlockStart(i, Some(h)));
            && Observe(m1, BlockDelta(i, Some(c))) == m1 && Observe(m1, BlockStop(i)) == Body(i + 1, map[])
  {
    assert !HasOpenText(m.open);
    var open := map[i := h.kind == Text];
    assert open - {i} == map[];
  }

  lemma BlockEventsAccepted(es: seq<Event>, i: nat, b: Block)
    requires Watch(es) == Body(i, map[])
    ensures Watch(es + BlockEvents(i, b)) == Body(i + 1, map[])
  {
    hide Watch, Observe;
    var r := BlockEvents(i, b);
    var e1 := es + [r[0]];
    var e2 := if |r| == 3 then e1 + [r[1]] else e1;
    OneBlock(Watch(es), i, r[0].block.value, if |r| == 3 then r[1].change.value else TextDelta(""));
    WatchSnoc(es, r[0]);
    WatchSnoc(e1, r[1]);
    WatchSnoc(e2, BlockStop(i));
    assert es + r == e2 + [BlockStop(i)];
  }

  lemma BlockEventsBlocks(es: seq<Event>, i: nat, b: Block)
    requires |Blocks(es)| == i
    ensures Blocks(es + BlockEvents(i, b)) == Blocks(es) + [Carried(b)]
  {
    hide Blocks;
    var r := BlockEvents(i, b);
    var e1 := es + [r[0]];
    var e2 := if |r| == 3 then e1 + [r[1]] else e1;
    var h := Block(r[0].block.value.kind, "", r[0].block.value.id, r[0].block.value.name, "");
    BlocksSnoc(es, r[0]);
    BlocksSnoc(e1, r[1]);
    UpdateLast(Blocks(es), h, Carried(b));
    assert "" + b.text == b.text;
    assert "" + Carried(b).input == Carried(b).input;
    assert Blocks(e2) == Blocks(es) + [Carried(b)];
    BlocksSnoc(e2, BlockStop(i));
    assert es + r == e2 + [BlockStop(i)];
  }

  lemma {:induction false} ContentAccepted(start: Event, bs: seq<Block>)
    requires start.MessageStart?
    ensures Watch([start] + ContentEvents(bs)) == Body(|bs|, map[])
    ensures Blocks([start] + ContentEvents(bs)) == CarriedAll(bs)
  {
    hide BlockEvents, Blocks, Watch, Carried, ContentEvents;
    if bs == [] {
      StartAccepted(start);
    } else {
      var n := |bs| - 1;
      ContentAccepted(start, bs[..n]);
      var es := [start] + ContentEvents(bs[..n]);
      BlockEventsAccepted(es, n, bs[n]);
      BlockEventsBlocks(es, n, bs[n]);
      ContentSnoc(bs);
      assert [start] + (ContentEvents(bs[..n]) + BlockEvents(n, bs[n])) == es + BlockEvents(n, bs[n]);
      CarriedSnoc(bs);
    }
  }

  lemma StartAccepted(start: Event)
    requires start.MessageStart?
    ensures Watch([start] + ContentEvents([])) == Body(0, map[])
    ensures Blocks([start] + ContentEvents([])) == CarriedAll([])
  {
    WatchSnoc([], start);
    BlocksSnoc([], start);
    assert [start] + ContentEvents([]) == [] + [start];
  }

  lemma ContentSnoc(bs: seq<Block>)
    requires bs != []
    ensures ContentEvents(bs) == ContentEvents(bs[..|bs| - 1]) + BlockEvents(|bs| - 1, bs[|bs| - 1])
  {
    hide BlockEvents;
  }

  lemma CarriedSnoc(bs: seq<Block>)
    requires bs != []
    ensures CarriedAll(bs) == CarriedAll(bs[..|bs| - 1]) + [Carried(bs[|bs| - 1])]
  {
  }

  lemma {:induction false} ContentIsBlockEvents(bs: seq<Block>)
    ensures AllBlockEvents(ContentEvents(bs))
  {
    if bs == [] {
    } else {
      ContentIsBlockEvents(bs[..|bs| - 1]);
    }
  }

  lemma ReplayAccepted(m: Message, freshId: string)
    ensures Watch(Replay(m, freshId)) == Ended(|m.content|)
    ensures Blocks(Replay(m, freshId)) == CarriedAll(m.content)
  {
    hide Watch, Blocks, ContentEvents, CarriedAll;
    var es, d := [StartEvent(m, freshId)] + ContentEvents(m.content), DeltaEvent(m);
    ContentAccepted(StartEvent(m, freshId), m.content);
    WatchSnoc(es, d);
    WatchSnoc(es + [d], MessageStop);
    BlocksSnoc(es, d);
    BlocksSnoc(es + [d], MessageStop);
    assert Replay(m, freshId) == es + [d] + [MessageStop];
  }

  // ----- the round trip -----

  /** The collected form of a block: text blocks keep their text, tool blocks their identity and valid input. */
  function Kept(b: Block, valid: string -> bool): Block {
    if b.kind == ToolUse
      then Block(ToolUse, "", b.id, b.name, if b.input != "" && valid(b.input) then b.input else "{}")
    else Block(Text, b.text, "", "", "")
  }

  function KeptAll(bs: seq<Block>, valid: string -> bool): seq<Block> {
    seq(|bs|, i requires 0 <= i < |bs| => Kept(bs[i], valid))
  }

  lemma {:induction false} CarriedFinish(bs: seq<Block>, valid: string -> bool)
    ensures FinishedBlocks(CarriedAll(bs), valid) == KeptAll(bs, valid)
  {
    if bs == [] {
    } else {
      var n := |bs| - 1;
      CarriedFinish(bs[..n], valid);
      CarriedKept(bs[n], valid);
      hide Carried, Kept, FinishBlock;
      assert CarriedAll(bs)[..n] == CarriedAll(bs[..n]);
      assert KeptAll(bs, valid) == KeptAll(bs[..n], valid) + [Kept(bs[n], valid)];
    }
  }

  lemma CarriedKept(b: Block, valid: string -> bool)
    ensures FinishBlock(Carried(b).(input := ""), Carried(b).input, valid) == [Kept(b, valid)]
  {
  }

  /** Main result, for every message: what collecting its replay gives. */
  lemma SyntheticRoundTrip(m: Message, freshId: string, valid: string -> bool, id: string)
    ensures AnthCollected(Intact(EventLines(Replay(m, freshId))), valid, id) ==
            Some(Message(FirstNonEmpty(FirstNonEmpty(m.id, freshId), id), m.model,
                         NonEmptyContent(KeptAll(m.content, valid)), "end_turn",
                         Usage(m.usage.input, if OutputTokens(m) > 0 then OutputTokens(m) else 0, 0, 0)))
  {
    ReplayAccepted(m, freshId);
    ContentIsBlockEvents(m.content);
    CollectFramed(StartEvent(m, freshId), ContentEvents(m.content), DeltaEvent(m), valid, id);
    CarriedFinish(m.content, valid);
  }

  /** A plain block: text and nothing else, or a tool call without text whose input is valid JSON. */
  predicate Plain(b: Block, valid: string -> bool) {
    if b.kind == ToolUse then b.text == "" && (b.input == "{}" || (b.input != "" && valid(b.input)))
    else b == Block(Text, b.text, "", "", "")
  }

  /** The content survives unchanged exactly when it is non-empty and every block is plain. */
  lemma RoundTripIff(m: Message, freshId: string, valid: string -> bool, id: string)
    ensures var r := AnthCollected(Intact(EventLines(Replay(m, freshId))), valid, id);
            r.Some? && (r.value.content == m.content <==>
                        m.content != [] && forall i :: 0 <= i < |m.content| ==> Plain(m.content[i], valid))
  {
    SyntheticRoundTrip(m, freshId, valid, id);
    var kept := KeptAll(m.content, valid);
    if m.content != [] && kept == m.content {
      forall i | 0 <= i < |m.content| ensures Plain(m.content[i], valid) {
        assert kept[i] == m.content[i];
      }
    }
  }

  lemma PlainKept(bs: seq<Block>, valid: string -> bool)
    requires forall i :: 0 <= i < |bs| ==> Plain(bs[i], valid)
    ensures KeptAll(bs, valid) == bs
  {
  }

  lemma CollectedPlain(s: OaiState, valid: string -> bool, id: string, rand: int -> string)
    requires OaiWellFormed(s)
    requires forall k :: 0 <= k < |Sort(s.order)| ==> Sort(s.order)[k] in s.tools
    ensures var c := OaiMessage(s, valid, id, rand).content;
            c != [] && forall i :: 0 <= i < |c| ==> Plain(c[i], valid)
  {
    hide Sort;
  }

  /** The buffered path of the handler: what the client collects of a collected and replayed OpenAI stream. Blocks,
      model and input tokens are those collected, the output tokens are too or else the writer's estimate, and the stop
      reason is always the default. */
  lemma ReplayOfCollected(src: Source<Chunk>, valid: string -> bool, id: string, rand: int -> string, freshId: string,
                          id': string)
    requires !src.failed || Finished(src.lines)
    ensures var o := OaiCollected(src, valid, id, rand);
            && o.Some?
            && AnthCollected(Intact(EventLines(Replay(o.value, freshId))), valid, id') ==
               Some(Message(FirstNonEmpty(FirstNonEmpty(id, freshId), id'), o.value.model, o.value.content, "end_turn",
                            Usage(o.value.usage.input,
                                  if OutputTokens(o.value) > 0 then OutputTokens(o.value) else 0, 0, 0)))
  {
    var s := AddChunks(OAI_START, Payloads(src.lines));
    ChunksWellFormed(OAI_START, Payloads(src.lines));
    SortedKnown(s);
    var o := OaiMessage(s, valid, id, rand);
    CollectedPlain(s, valid, id, rand);
    PlainKept(o.content, valid);
    SyntheticRoundTrip(o, freshId, valid, id');
    hide AnthCollected, AddChunks, Sort, KeptAll, Plain, OutputTokens, Payloads, Replay;
  }
}
