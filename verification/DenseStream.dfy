/** What collecting means for an accepted stream: the blocks form a list, filled index by index. */
module DenseStream {
  import opened Common
  import opened StreamTypes
  import opened Sorting
  import opened Collectors
  import opened EventGrammar

  /** The blocks of a stream as a list; `input` holds the partial JSON received. */
  function Blocks(es: seq<Event>): seq<Block> {
    if es == [] then [] else Apply(Blocks(es[..|es| - 1]), es[|es| - 1])
  }

  function Apply(bs: seq<Block>, e: Event): seq<Block> {
    match e
    case BlockStart(_, Some(h)) => bs + [Block(h.kind, "", h.id, h.name, "")]
    case BlockDelta(j, Some(TextDelta(t))) => if 0 <= j < |bs| then bs[j := bs[j].(text := bs[j].text + t)] else bs
    case BlockDelta(j, Some(InputJsonDelta(t))) =>
      if 0 <= j < |bs| then bs[j := bs[j].(input := bs[j].input + t)] else bs
    case _ => bs
  }

  lemma UpdateLast(bs: seq<Block>, x: Block, y: Block)
    ensures (bs + [x])[|bs| := y] == bs + [y]
  {
  }

  lemma BlocksSnoc(es: seq<Event>, e: Event)
    ensures Blocks(es + [e]) == Apply(Blocks(es), e)
  {
    assert (es + [e])[..|es|] == es;
  }

  function FinishedBlocks(bs: seq<Block>, valid: string -> bool): seq<Block> {
    if bs == [] then []
    else FinishedBlocks(bs[..|bs| - 1], valid) + FinishBlock(bs[|bs| - 1].(input := ""), bs[|bs| - 1].input, valid)
  }

  /** The collector's maps hold exactly the list, under the indices 0, 1, 2, ... */
  ghost predicate Holds(s: AnthState, bs: seq<Block>) {
    && !s.halted
    && |s.order| == |bs|
    && (forall j :: 0 <= j < |bs| ==> s.order[j] == j)
    && (forall j :: j in s.blocks <==> 0 <= j < |bs|)
    && (forall j :: j in s.inputs <==> 0 <= j < |bs|)
    && (forall j :: 0 <= j < |bs| ==> s.blocks[j] == bs[j].(input := "") && s.inputs[j] == bs[j].input)
  }

  function BlockCount(m: Monitor): nat {
    match m
    case Body(n, _) => n
    case Closed(n) => n
    case Ended(n) => n
    case _ => 0
  }

  lemma AsPayloadsSnoc(es: seq<Event>)
    requires es != []
    ensures AsPayloads(es)[..|es| - 1] == AsPayloads(es[..|es| - 1])
    ensures AsPayloads(es)[|es| - 1] == Decoded(es[|es| - 1])
  {
  }

  ghost predicate OpenInRange(m: Monitor) {
    m.Body? ==> forall j :: j in m.open ==> 0 <= j < m.n
  }

  lemma {:induction false} WatchInRange(es: seq<Event>)
    ensures OpenInRange(Watch(es))
  {
    if es == [] {
    } else {
      WatchInRange(es[..|es| - 1]);
    }
  }

  lemma HoldsStep(s: AnthState, bs: seq<Block>, m: Monitor, e: Event)
    requires Holds(s, bs) && |bs| == BlockCount(m) && OpenInRange(m) && Observe(m, e) != Rejected
    ensures Holds(OnEvent(s, e), Apply(bs, e)) && |Apply(bs, e)| == BlockCount(Observe(m, e))
  {
    hide HasOpenText;
    match e
    case BlockStart(j, Some(h)) => HoldsStart(s, bs, h);
    case BlockDelta(j, Some(c)) => HoldsChange(s, bs, j, c);
    case _ =>
  }

  lemma HoldsStart(s: AnthState, bs: seq<Block>, h: BlockHeader)
    requires Holds(s, bs)
    ensures Holds(OnEvent(s, BlockStart(|bs|, Some(h))), bs + [Block(h.kind, "", h.id, h.name, "")])
  {
  }

  lemma HoldsChange(s: AnthState, bs: seq<Block>, j: int, c: BlockChange)
    requires Holds(s, bs) && 0 <= j < |bs|
    ensures Holds(OnChange(s, j, c), Apply(bs, BlockDelta(j, Some(c))))
  {
  }

  /** Collecting an accepted stream fills exactly the list. */
  lemma {:induction false} CollectsList(es: seq<Event>, id: string)
    requires Watch(es) != Rejected
    ensures Holds(OnAnthPayloads(AnthStart(id), AsPayloads(es)), Blocks(es))
    ensures |Blocks(es)| == BlockCount(Watch(es))
  {
    if es == [] {
    } else {
      var init := es[..|es| - 1];
      CollectsList(init, id);
      WatchInRange(init);
      AsPayloadsSnoc(es);
      HoldsStep(OnAnthPayloads(AnthStart(id), AsPayloads(init)), Blocks(init), Watch(init), es[|es| - 1]);
    }
  }

  lemma {:induction false} FinishesList(s: AnthState, bs: seq<Block>, idxs: seq<int>, n: nat, valid: string -> bool)
    requires Holds(s, bs) && n <= |bs| && idxs == s.order[..n]
    ensures FinishBlocks(s, idxs, valid) == FinishedBlocks(bs[..n], valid)
    decreases n
  {
    if n == 0 {
    } else {
      FinishesList(s, bs, s.order[..n - 1], n - 1, valid);
      assert idxs[..n - 1] == s.order[..n - 1];
      assert bs[..n][..n - 1] == bs[..n - 1];
    }
  }

  predicate IsBlockEvent(e: Event) {
    e.BlockStart? || e.BlockDelta? || e.BlockStop?
  }

  ghost predicate AllBlockEvents(es: seq<Event>) {
    forall k :: 0 <= k < |es| ==> IsBlockEvent(es[k])
  }

  lemma {:induction false} BlockEventsKeepHeader(s: AnthState, es: seq<Event>)
    requires AllBlockEvents(es)
    requires !s.halted
    ensures var r := OnAnthPayloads(s, AsPayloads(es));
            r.id == s.id && r.model == s.model && r.stopReason == s.stopReason && r.usage == s.usage && !r.halted
  {
    if es == [] {
    } else {
      BlockEventsKeepHeader(s, es[..|es| - 1]);
      AsPayloadsSnoc(es);
    }
  }

  lemma {:induction false} OnPayloadsSplit(s: AnthState, a: seq<Payload<Event>>, b: seq<Payload<Event>>)
    ensures OnAnthPayloads(s, a + b) == OnAnthPayloads(OnAnthPayloads(s, a), b)
  {
    if b == [] {
      assert a + b == a;
    } else {
      OnPayloadsSplit(s, a, b[..|b| - 1]);
      assert (a + b)[..|a + b| - 1] == a + b[..|b| - 1];
    }
  }

  /** A complete stream: the start event, block events, the two closing events. */
  function Framed(start: Event, body: seq<Event>, delta: Event): seq<Event> {
    [start] + body + [delta, MessageStop]
  }

  lemma FramedHeader(start: Event, body: seq<Event>, delta: Event, id: string)
    requires start.MessageStart? && delta.MessageDelta?
    requires AllBlockEvents(body)
    ensures OnAnthPayloads(AnthStart(id), AsPayloads(Framed(start, body, delta))) ==
            OnEvent(OnAnthPayloads(OnEvent(AnthStart(id), start), AsPayloads(body)), delta)
  {
    var s0 := AnthStart(id);
    assert AsPayloads(Framed(start, body, delta)) ==
        ([Decoded(start)] + AsPayloads(body)) + [Decoded(delta), Decoded(MessageStop)];
    OnPayloadsSplit(s0, [Decoded(start)] + AsPayloads(body), [Decoded(delta), Decoded(MessageStop)]);
    OnPayloadsSplit(s0, [Decoded(start)], AsPayloads(body));
    var s1 := OnEvent(s0, start);
    assert OnAnthPayloads(s0, [Decoded(start)]) == s1 by { assert [Decoded(start)][..0] == []; }
    BlockEventsKeepHeader(s1, body);
    var s2 := OnAnthPayloads(s1, AsPayloads(body));
    var tail := [Decoded(delta), Decoded(MessageStop)];
    assert tail[..1] == [Decoded(delta)] && tail[..1][..0] == [];
    assert OnAnthPayloads(s2, tail[..1]) == OnEvent(s2, delta);
    assert OnAnthPayloads(s2, tail) == OnEvent(OnEvent(s2, delta), MessageStop);
  }

  function OutputOf(delta: Event): int
    requires delta.MessageDelta?
  {
    if delta.deltaUsage.Some? && delta.deltaUsage.value.output > 0 then delta.deltaUsage.value.output else 0
  }

  /** Collecting a complete accepted stream: what of it survives. The stop reason inside `delta` does not. */
  lemma CollectFramed(start: Event, body: seq<Event>, delta: Event, valid: string -> bool, id: string)
    requires start.MessageStart? && delta.MessageDelta?
    requires AllBlockEvents(body)
    requires Watch(Framed(start, body, delta)) != Rejected
    ensures AnthCollected(Intact(EventLines(Framed(start, body, delta))), valid, id) ==
            Some(Message(FirstNonEmpty(start.id, id), start.model,
                         NonEmptyContent(FinishedBlocks(Blocks(Framed(start, body, delta)), valid)),
                         FirstNonEmpty(delta.topStopReason, "end_turn"),
                         Usage(start.usage.input, OutputOf(delta), start.usage.cacheRead, start.usage.cacheWrite)))
  {
    hide Blocks, FinishBlocks, FinishedBlocks, Framed, OnAnthPayloads, Watch, AllBlockEvents, EventLines, Holds, Sort;
    hide AsPayloads, Payloads, Finished;
    var es := Framed(start, body, delta);
    EmittedLinesScan(es);
    CollectsList(es, id);
    FramedHeader(start, body, delta, id);
    BlockEventsKeepHeader(OnEvent(AnthStart(id), start), body);
    FinishSorted(OnAnthPayloads(AnthStart(id), AsPayloads(es)), Blocks(es), valid);
  }

  lemma FinishSorted(s: AnthState, bs: seq<Block>, valid: string -> bool)
    requires Holds(s, bs)
    ensures Sort(s.order) == s.order
    ensures forall k :: 0 <= k < |s.order| ==> s.order[k] in s.blocks && s.order[k] in s.inputs
    ensures FinishBlocks(s, s.order, valid) == FinishedBlocks(bs, valid)
  {
    hide Sort, FinishBlocks, FinishedBlocks;
    SortOfAscending(s.order);
    FinishesList(s, bs, s.order, |bs|, valid);
    assert bs[..|bs|] == bs && s.order[..|bs|] == s.order;
  }
}
