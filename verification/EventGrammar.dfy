/** The grammar of a well-formed event stream, as a monitor that knows nothing of the translator,
    and the proof that every stream the translator writes is accepted. */
module EventGrammar {
  import opened Common
  import opened StreamTypes
  import opened Translator

  /** n blocks were started so far; `open` maps the index of each open block to "is a text block". */
  datatype Monitor = Rejected | Fresh | Body(n: nat, open: map<int, bool>) | Closed(n: nat) | Ended(n: nat)

  ghost predicate HasOpenText(open: map<int, bool>) {
    exists j :: j in open && open[j]
  }

  ghost function Observe(m: Monitor, e: Event): Monitor {
    match m
    case Fresh => if e.MessageStart? then Body(0, map[]) else Rejected
    case Body(n, open) => (
      match e
      case BlockStart(j, Some(h)) =>
        if j == n && (h.kind == Text ==> !HasOpenText(open)) then Body(n + 1, open[j := h.kind == Text]) else Rejected
      case BlockDelta(j, Some(TextDelta(_))) => if j in open && open[j] then m else Rejected
      case BlockDelta(j, Some(InputJsonDelta(_))) => if j in open && !open[j] then m else Rejected
      case BlockStop(j) => if j in open then Body(n, open - {j}) else Rejected
      case MessageDelta(_, _, _) => if open == map[] then Closed(n) else Rejected
      case _ => Rejected)
    case Closed(n) => if e == MessageStop then Ended(n) else Rejected
    case _ => Rejected
  }

  ghost function Watch(es: seq<Event>): Monitor {
    if es == [] then Fresh else Observe(Watch(es[..|es| - 1]), es[|es| - 1])
  }

  lemma WatchSnoc(es: seq<Event>, e: Event)
    ensures Watch(es + [e]) == Observe(Watch(es), e)
  {
    assert (es + [e])[..|es|] == es;
  }

  // ----- what acceptance means -----

  function Starts(es: seq<Event>, j: int): nat {
    if es == [] then 0
    else Starts(es[..|es| - 1], j) + (if es[|es| - 1].BlockStart? && es[|es| - 1].index == j then 1 else 0)
  }

  function Stops(es: seq<Event>, j: int): nat {
    if es == [] then 0
    else Stops(es[..|es| - 1], j) + (if es[|es| - 1] == BlockStop(j) then 1 else 0)
  }

  /** In an accepted stream exactly the indices 0..n-1 are used, each started once and, unless still
      open, stopped once. */
  lemma {:induction false} AcceptedCounts(es: seq<Event>, j: int)
    requires Watch(es) != Rejected
    ensures match Watch(es)
            case Fresh => Starts(es, j) == Stops(es, j) == 0
            case Body(n, open) =>
              && Starts(es, j) == (if 0 <= j < n then 1 else 0)
              && Stops(es, j) == Starts(es, j) - (if j in open then 1 else 0)
              && (j in open ==> 0 <= j < n)
            case Closed(n) => Starts(es, j) == Stops(es, j) == if 0 <= j < n then 1 else 0
            case Ended(n) => Starts(es, j) == Stops(es, j) == if 0 <= j < n then 1 else 0
            case Rejected => true
  {
    if es == [] {
    } else {
      AcceptedCounts(es[..|es| - 1], j);
    }
  }

  // ----- the translator's invariant -----

  ghost predicate InOrder(t: State) {
    var m := Watch(t.out);
    && t.started && m.Body? && m.n == t.nextIdx
    && (t.openText ==> t.textIdx in m.open && m.open[t.textIdx] && t.textIdx == t.nextIdx - 1)
    && (forall i :: i in t.tools ==> t.tools[i].aIdx in m.open && !m.open[t.tools[i].aIdx])
    && (forall i, k :: i in t.tools && k in t.tools && t.tools[i].aIdx == t.tools[k].aIdx ==> i == k)
    && (forall j :: j in m.open ==>
          0 <= j < t.nextIdx && if m.open[j] then t.openText && t.textIdx == j else HasTool(t.tools, j))
  }

  lemma StartedInOrder(msgID: string, model: string)
    ensures InOrder(Started(Initial(), msgID, model))
  {
    var t := Started(Initial(), msgID, model);
    assert t.out == [] + [t.out[0]];
    WatchSnoc([], t.out[0]);
  }

  lemma CloseTextInOrder(t: State)
    requires InOrder(t)
    ensures InOrder(CloseText(t))
  {
    WatchSnoc(t.out, BlockStop(t.textIdx));
  }

  lemma TextInOrder(t: State, s: string)
    requires InOrder(t)
    ensures InOrder(OnText(t, s))
  {
    EnsureTextInOrder(t);
    hide Watch, HasTool, EnsureText;
    var u := EnsureText(t);
    WatchSnoc(u.out, BlockDelta(u.textIdx, Some(TextDelta(s))));
  }

  lemma EnsureTextInOrder(t: State)
    requires InOrder(t)
    ensures InOrder(EnsureText(t)) && EnsureText(t).openText
  {
    hide Watch, HasTool;
    WatchSnoc(t.out, BlockStart(t.nextIdx, Some(BlockHeader(Text, "", ""))));
  }

  lemma KnownToolInOrder(t: State, tc: ToolDelta, rand: int -> string)
    requires InOrder(t) && tc.index in t.tools
    ensures InOrder(OpenTool(t, tc, rand))
  {
    hide Watch;
    var v := OpenTool(t, tc, rand);
    forall j | HasTool(t.tools, j) ensures HasTool(v.tools, j) {
      var i :| i in t.tools && t.tools[i].aIdx == j;
      assert v.tools[i].aIdx == j;
    }
  }

  lemma NewToolInOrder(t: State, tc: ToolDelta, rand: int -> string)
    requires InOrder(t) && tc.index !in t.tools
    ensures InOrder(OpenTool(t, tc, rand))
  {
    CloseTextInOrder(t);
    BesideClosedText(CloseText(t), tc, rand);
    hide InOrder;
    assert OpenTool(t, tc, rand) == OpenTool(CloseText(t), tc, rand);
  }

  lemma BesideClosedText(u: State, tc: ToolDelta, rand: int -> string)
    requires InOrder(u) && tc.index !in u.tools && !u.openText
    ensures InOrder(OpenTool(u, tc, rand))
  {
    hide FirstNonEmpty, HasOpenText, Watch;
    var v := OpenTool(u, tc, rand);
    WatchSnoc(u.out, BlockStart(u.nextIdx, Some(BlockHeader(ToolUse, v.tools[tc.index].id, tc.name))));
    forall j | HasTool(u.tools, j) ensures HasTool(v.tools, j) {
      var i :| i in u.tools && u.tools[i].aIdx == j;
      assert v.tools[i].aIdx == j;
    }
    assert v.tools[tc.index].aIdx == u.nextIdx;
    assert HasTool(v.tools, u.nextIdx);
  }

  lemma OpenToolInOrder(t: State, tc: ToolDelta, rand: int -> string)
    requires InOrder(t)
    ensures InOrder(OpenTool(t, tc, rand)) && tc.index in OpenTool(t, tc, rand).tools
  {
    if tc.index in t.tools { KnownToolInOrder(t, tc, rand); } else { NewToolInOrder(t, tc, rand); }
  }

  lemma ToolInOrder(t: State, tc: ToolDelta, rand: int -> string)
    requires InOrder(t)
    ensures InOrder(OnTool(t, tc, rand))
  {
    hide Watch, OpenTool;
    OpenToolInOrder(t, tc, rand);
    var u := OpenTool(t, tc, rand);
    WatchSnoc(u.out, BlockDelta(u.tools[tc.index].aIdx, Some(InputJsonDelta(tc.args))));
  }

  lemma {:induction false} ToolsInOrder(t: State, tcs: seq<ToolDelta>, rand: int -> string)
    requires InOrder(t)
    ensures InOrder(OnTools(t, tcs, rand))
  {
    if tcs == [] {
    } else {
      ToolsInOrder(t, tcs[..|tcs| - 1], rand);
      ToolInOrder(OnTools(t, tcs[..|tcs| - 1], rand), tcs[|tcs| - 1], rand);
    }
  }

  lemma ChunkInOrder(t: State, p: Payload<Chunk>, rand: int -> string)
    requires InOrder(t)
    ensures InOrder(OnChunk(t, p, rand))
  {
    hide InOrder, OnText, OnTools, OnUsage, OnFinish;
    if p.Decoded? {
      var u := OnUsage(t, p.value.usage);
      UsageInOrder(t, p.value.usage);
      if p.value.choices != [] {
        var c, v := p.value.choices[0], u;
        if c.delta.Some? {
          TextInOrder(u, c.delta.value.content);
          ToolsInOrder(OnText(u, c.delta.value.content), c.delta.value.toolCalls, rand);
          v := OnTools(OnText(u, c.delta.value.content), c.delta.value.toolCalls, rand);
        }
        FinishInOrder(v, c.finish);
      }
    }
  }

  lemma UsageInOrder(t: State, u: Option<OaiUsage>)
    requires InOrder(t)
    ensures InOrder(OnUsage(t, u))
  {
  }

  lemma FinishInOrder(t: State, f: Option<string>)
    requires InOrder(t)
    ensures InOrder(OnFinish(t, f))
  {
  }

  /** Every payload keeps the stream well-formed so far: the tool blocks and at most one text block are open. */
  lemma {:induction false} PayloadsInOrder(t: State, ps: seq<Payload<Chunk>>, rand: int -> string)
    requires InOrder(t)
    ensures InOrder(OnPayloads(t, ps, rand))
  {
    if ps == [] {
    } else {
      PayloadsInOrder(t, ps[..|ps| - 1], rand);
      ChunkInOrder(OnPayloads(t, ps[..|ps| - 1], rand), ps[|ps| - 1], rand);
    }
  }

  ghost function StoppedBy(t: State, idxs: seq<int>, k: nat): set<int>
    requires k <= |idxs| && IsIndexList(idxs, t.tools)
  {
    set i | 0 <= i < k :: t.tools[idxs[i]].aIdx
  }

  lemma StoppedBySnoc(t: State, idxs: seq<int>, k: nat)
    requires InOrder(t) && k < |idxs| && IsIndexList(idxs, t.tools)
    ensures StoppedBy(t, idxs, k + 1) == StoppedBy(t, idxs, k) + {t.tools[idxs[k]].aIdx}
    ensures t.tools[idxs[k]].aIdx in Watch(t.out).open && t.tools[idxs[k]].aIdx !in StoppedBy(t, idxs, k)
  {
  }

  lemma {:induction false} StopsClose(t: State, idxs: seq<int>, k: nat)
    requires InOrder(t) && k <= |idxs| && IsIndexList(idxs, t.tools)
    ensures Watch(t.out + ToolStops(t, idxs[..k])) == Body(t.nextIdx, Watch(t.out).open - StoppedBy(t, idxs, k))
  {
    hide Watch, HasTool;
    var open := Watch(t.out).open;
    if k == 0 {
      assert t.out + ToolStops(t, idxs[..0]) == t.out;
    } else {
      hide StoppedBy;
      StopsClose(t, idxs, k - 1);
      StoppedBySnoc(t, idxs, k - 1);
      var e := BlockStop(t.tools[idxs[k - 1]].aIdx);
      assert t.out + ToolStops(t, idxs[..k]) == t.out + ToolStops(t, idxs[..k - 1]) + [e];
      WatchSnoc(t.out + ToolStops(t, idxs[..k - 1]), e);
      assert open - StoppedBy(t, idxs, k - 1) - {e.index} == open - StoppedBy(t, idxs, k);
    }
  }

  lemma AllStopped(t: State, idxs: seq<int>)
    requires InOrder(t) && !t.openText && IsIndexList(idxs, t.tools)
    ensures Watch(t.out + ToolStops(t, idxs)) == Body(t.nextIdx, map[])
  {
    StopsClose(t, idxs, |idxs|);
    assert idxs[..|idxs|] == idxs;
    var open, all := Watch(t.out).open, StoppedBy(t, idxs, |idxs|);
    forall j | j in open ensures j in all {
      var i :| i in t.tools && t.tools[i].aIdx == j;
      var k :| 0 <= k < |idxs| && idxs[k] == i;
    }
    assert open - all == map[];
  }

  lemma FinalEventsEnd(pre: seq<Event>, t: State, n: nat)
    requires Watch(pre) == Body(n, map[])
    ensures Watch(pre + FinalEvents(t)) == Ended(n)
  {
    var e := FinalEvents(t)[0];
    WatchSnoc(pre, e);
    WatchSnoc(pre + [e], MessageStop);
    assert pre + FinalEvents(t) == pre + [e] + [MessageStop];
  }

  /** `Finalize` completes the stream. */
  lemma FinalizeEnds(t: State, out: seq<Event>)
    requires InOrder(t) && IsOutput(out, t)
    ensures Watch(out).Ended? && Watch(out).n == t.nextIdx
  {
    CloseTextInOrder(t);
    var u := CloseText(t);
    var idxs :| IsIndexList(idxs, t.tools) && out == u.out + ToolStops(t, idxs) + FinalEvents(t);
    assert ToolStops(t, idxs) == ToolStops(u, idxs);
    AllStopped(u, idxs);
    var pre := u.out + ToolStops(t, idxs);
    FinalEventsEnd(pre, t, t.nextIdx);
  }

  lemma IndexListOfNone(idxs: seq<int>, tools: map<int, StreamTool>)
    requires IsIndexList(idxs, tools)
    ensures idxs != [] ==> tools != map[]
  {
    if idxs != [] { assert idxs[0] in tools; }
  }

  /** The payload list is empty and the scanner shows an error: nothing but the two closing events is written. */
  ghost predicate FailedBeforePayload(src: Source<Chunk>) {
    Payloads(src.lines) == [] && ErrorSeen(src)
  }

  lemma FedPayloads(src: Source<Chunk>, msgID: string, model: string, rand: int -> string)
    requires !FailedBeforePayload(src)
    ensures BeforeFinalize(src, msgID, model, rand) ==
            OnPayloads(Started(Initial(), msgID, model), Payloads(src.lines), rand)
  {
    if Payloads(src.lines) != [] {
      KeepsStarted(Started(Initial(), msgID, model), Payloads(src.lines), rand);
    }
  }

  /** Main result: whatever the chunks are, the output is a complete, well-formed stream, unless the scanner
      shows an error and there was no payload, and then it is not. */
  lemma OutputGrammar(src: Source<Chunk>, msgID: string, model: string, rand: int -> string, out: seq<Event>)
    requires IsOutput(out, BeforeFinalize(src, msgID, model, rand))
    ensures Watch(out).Ended? <==> !FailedBeforePayload(src)
    ensures !FailedBeforePayload(src) ==> Watch(out).n == BeforeFinalize(src, msgID, model, rand).nextIdx
  {
    var t := BeforeFinalize(src, msgID, model, rand);
    if FailedBeforePayload(src) {
      var idxs :| IsIndexList(idxs, t.tools) && out == CloseText(t).out + ToolStops(t, idxs) + FinalEvents(t);
      IndexListOfNone(idxs, t.tools);
      assert out == [] + [FinalEvents(t)[0]] + [MessageStop];
      WatchSnoc([], FinalEvents(t)[0]);
      WatchSnoc([FinalEvents(t)[0]], MessageStop);
    } else {
      FedPayloads(src, msgID, model, rand);
      StartedInOrder(msgID, model);
      PayloadsInOrder(Started(Initial(), msgID, model), Payloads(src.lines), rand);
      FinalizeEnds(t, out);
    }
  }
}
