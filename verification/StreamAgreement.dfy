/** Translating a chunk stream and collecting the events, against collecting the chunks directly. */
module StreamAgreement {
  import opened Common
  import opened StreamTypes
  import opened Sorting
  import opened Collectors

  // ----- what a chunk sequence says, independently of both machines -----

  function DeltaOf(p: Payload<Chunk>): Delta {
    if p.Decoded? && p.value.choices != [] && p.value.choices[0].delta.Some? then p.value.choices[0].delta.value
    else Delta("", [])
  }

  function TextOf(ps: seq<Payload<Chunk>>): string {
    if ps == [] then "" else TextOf(ps[..|ps| - 1]) + DeltaOf(ps[|ps| - 1]).content
  }

  function Fragments(ps: seq<Payload<Chunk>>): seq<ToolDelta> {
    if ps == [] then [] else Fragments(ps[..|ps| - 1]) + DeltaOf(ps[|ps| - 1]).toolCalls
  }

  /** The tool indices in the order of their first fragments. */
  function FirstSeen(fs: seq<ToolDelta>): seq<int> {
    if fs == [] then []
    else
      var r, i := FirstSeen(fs[..|fs| - 1]), fs[|fs| - 1].index;
      if i in r then r else r + [i]
  }

  function FirstFragment(fs: seq<ToolDelta>, i: int): ToolDelta {
    if fs == [] then ToolDelta(i, "", "", "")
    else if fs[0].index == i then fs[0] else FirstFragment(fs[1..], i)
  }

  function LastId(fs: seq<ToolDelta>, i: int): string {
    if fs == [] then ""
    else if fs[|fs| - 1].index == i && fs[|fs| - 1].id != "" then fs[|fs| - 1].id else LastId(fs[..|fs| - 1], i)
  }

  function LastName(fs: seq<ToolDelta>, i: int): string {
    if fs == [] then ""
    else if fs[|fs| - 1].index == i && fs[|fs| - 1].name != "" then fs[|fs| - 1].name else LastName(fs[..|fs| - 1], i)
  }

  function ArgsOf(fs: seq<ToolDelta>, i: int): string {
    if fs == [] then ""
    else ArgsOf(fs[..|fs| - 1], i) + if fs[|fs| - 1].index == i then fs[|fs| - 1].args else ""
  }

  /** The stop reason of one payload, empty if it has none. */
  function StopOf(p: Payload<Chunk>): string {
    if p.Decoded? && p.value.choices != [] && p.value.choices[0].finish.Some? && p.value.choices[0].finish.value != ""
    then StopFromFinish(p.value.choices[0].finish.value)
    else ""
  }

  function FinishOf(ps: seq<Payload<Chunk>>): string {
    if ps == [] then ""
    else if StopOf(ps[|ps| - 1]) != "" then StopOf(ps[|ps| - 1])
    else FinishOf(ps[..|ps| - 1])
  }

  function UsageOf(ps: seq<Payload<Chunk>>): OaiUsage {
    if ps == [] then OaiUsage(0, 0)
    else
      var p := ps[|ps| - 1];
      if p.Decoded? && p.value.usage.Some? then p.value.usage.value else UsageOf(ps[..|ps| - 1])
  }

  // ----- text and tools of a block list -----

  function TextIn(bs: seq<Block>): string {
    if bs == [] then "" else TextIn(bs[..|bs| - 1]) + bs[|bs| - 1].text
  }

  function ToolsIn(bs: seq<Block>): seq<Block> {
    if bs == [] then []
    else ToolsIn(bs[..|bs| - 1]) + if bs[|bs| - 1].kind == ToolUse then [bs[|bs| - 1]] else []
  }

  lemma {:induction false} TextInConcat(a: seq<Block>, b: seq<Block>)
    ensures TextIn(a + b) == TextIn(a) + TextIn(b)
  {
    if b == [] {
      assert a + b == a;
    } else {
      var c, t := b[..|b| - 1], b[|b| - 1].text;
      TextInConcat(a, c);
      assert (a + b)[..|a + b| - 1] == a + c;
      assert (TextIn(a) + TextIn(c)) + t == TextIn(a) + (TextIn(c) + t);
    }
  }

  lemma {:induction false} ToolsInConcat(a: seq<Block>, b: seq<Block>)
    ensures ToolsIn(a + b) == ToolsIn(a) + ToolsIn(b)
  {
    if b == [] {
      assert a + b == a;
    } else {
      var c := b[..|b| - 1];
      ToolsInConcat(a, c);
      assert (a + b)[..|a + b| - 1] == a + c;
      var last := if b[|b| - 1].kind == ToolUse then [b[|b| - 1]] else [];
      assert (ToolsIn(a) + ToolsIn(c)) + last == ToolsIn(a) + (ToolsIn(c) + last);
    }
  }

  /** Changing other fields leaves the text alone. */
  lemma {:induction false} SameTexts(a: seq<Block>, b: seq<Block>)
    requires |a| == |b| && forall j :: 0 <= j < |a| ==> a[j].text == b[j].text
    ensures TextIn(a) == TextIn(b)
  {
    if a == [] {
    } else {
      SameTexts(a[..|a| - 1], b[..|b| - 1]);
    }
  }

  lemma PositionsNeedRoom(pos: seq<int>, n: int)
    requires forall k :: 0 <= k < |pos| ==> 0 <= pos[k] < n
    ensures pos != [] ==> n > 0
  {
    if pos != [] { assert pos[0] < n; }
  }

  /** pos lists exactly the positions of the tool blocks. */
  ghost predicate ToolPositions(bs: seq<Block>, pos: seq<int>) {
    && Strict(pos)
    && (forall k :: 0 <= k < |pos| ==> 0 <= pos[k] < |bs| && bs[pos[k]].kind == ToolUse)
    && (forall j :: 0 <= j < |bs| && bs[j].kind == ToolUse ==> j in pos)
  }

  lemma LastPosition(bs: seq<Block>, pos: seq<int>)
    requires ToolPositions(bs, pos) && bs != [] && bs[|bs| - 1].kind == ToolUse
    ensures pos != [] && pos[|pos| - 1] == |bs| - 1
    ensures ToolPositions(bs[..|bs| - 1], pos[..|pos| - 1])
  {
    var n := |bs| - 1;
    forall i | 0 <= i < |pos| - 1 ensures pos[i] != n {
      assert pos[i] < pos[|pos| - 1] < |bs|;
    }
    assert n in pos;
    var k :| 0 <= k < |pos| && pos[k] == n;
    assert k == |pos| - 1;
    forall j | 0 <= j < n && bs[..n][j].kind == ToolUse ensures j in pos[..k] {
      assert j in pos;
    }
  }

  /** The blocks at the positions listed. */
  function BlocksAt(bs: seq<Block>, pos: seq<int>): seq<Block>
    requires forall k :: 0 <= k < |pos| ==> 0 <= pos[k] < |bs|
  {
    seq(|pos|, k requires 0 <= k < |pos| => bs[pos[k]])
  }

  lemma EndsWithTool(bs: seq<Block>, pos: seq<int>)
    requires ToolPositions(bs, pos) && bs != [] && bs[|bs| - 1].kind == ToolUse
    ensures pos != [] && ToolPositions(bs[..|bs| - 1], pos[..|pos| - 1])
    ensures BlocksAt(bs, pos) == BlocksAt(bs[..|bs| - 1], pos[..|pos| - 1]) + [bs[|bs| - 1]]
  {
    LastPosition(bs, pos);
    var n, k := |bs| - 1, |pos| - 1;
    hide ToolPositions;
    assert forall i :: 0 <= i < k ==> pos[..k][i] == pos[i];
    assert forall i :: 0 <= i < n ==> bs[..n][i] == bs[i];
  }

  lemma EndsWithOther(bs: seq<Block>, pos: seq<int>)
    requires ToolPositions(bs, pos) && bs != [] && bs[|bs| - 1].kind != ToolUse
    ensures ToolPositions(bs[..|bs| - 1], pos) && BlocksAt(bs, pos) == BlocksAt(bs[..|bs| - 1], pos)
  {
    var n := |bs| - 1;
    forall k | 0 <= k < |pos| ensures pos[k] < n { assert bs[pos[k]].kind == ToolUse; }
    assert forall i :: 0 <= i < n ==> bs[..n][i] == bs[i];
  }

  /** The tool blocks of a list are those at the positions listed. */
  lemma {:induction false} ToolsAtPositions(bs: seq<Block>, pos: seq<int>)
    requires ToolPositions(bs, pos)
    ensures ToolsIn(bs) == BlocksAt(bs, pos)
  {
    if bs == [] {
      PositionsNeedRoom(pos, |bs|);
    } else {
      hide ToolPositions, BlocksAt;
      var n := |bs| - 1;
      if bs[n].kind == ToolUse {
        EndsWithTool(bs, pos);
        ToolsAtPositions(bs[..n], pos[..|pos| - 1]);
      } else {
        EndsWithOther(bs, pos);
        ToolsAtPositions(bs[..n], pos);
      }
    }
  }

  // ----- first appearances -----

  lemma {:induction false} FirstSeenFacts(fs: seq<ToolDelta>)
    ensures Distinct(FirstSeen(fs))
    ensures forall k :: 0 <= k < |fs| ==> fs[k].index in FirstSeen(fs)
  {
    if fs == [] {
    } else {
      var n, r := |fs| - 1, FirstSeen(fs[..|fs| - 1]);
      FirstSeenFacts(fs[..n]);
      assert forall k :: 0 <= k < n ==> fs[..n][k].index in r;
      if fs[n].index in r {
        assert FirstSeen(fs) == r;
      } else {
        DistinctSnoc(r, fs[n].index);
      }
    }
  }

  lemma DistinctSnoc(s: seq<int>, x: int)
    requires Distinct(s) && x !in s
    ensures Distinct(s + [x])
  {
  }

  lemma {:induction false} FirstFragmentSnoc(fs: seq<ToolDelta>, tc: ToolDelta, i: int)
    ensures FirstFragment(fs + [tc], i) ==
            (if i in FirstSeen(fs) then FirstFragment(fs, i)
             else if tc.index == i then tc else ToolDelta(i, "", "", ""))
  {
    if fs == [] {
      assert fs + [tc] == [tc] && [tc][1..] == [];
    } else {
      assert (fs + [tc])[1..] == fs[1..] + [tc];
      FirstFragmentSnoc(fs[1..], tc, i);
      SeenHead(fs, i);
    }
  }

  lemma {:induction false} SeenHead(fs: seq<ToolDelta>, i: int)
    requires fs != []
    ensures i in FirstSeen(fs) <==> fs[0].index == i || i in FirstSeen(fs[1..])
  {
    if |fs| == 1 {
      assert fs[..0] == [] && fs[1..] == [];
    } else {
      SeenHead(fs[..|fs| - 1], i);
      assert fs[..|fs| - 1][1..] == fs[1..][..|fs| - 2];
    }
  }

  // ----- CollectOpenAIStream against the summary -----

  ghost predicate Summarizes(s: OaiState, fs: seq<ToolDelta>) {
    && s.order == FirstSeen(fs)
    && (forall i :: i in s.tools <==> i in FirstSeen(fs))
    && (forall i :: i in s.tools ==> s.tools[i] == ToolAcc(LastId(fs, i), LastName(fs, i), ArgsOf(fs, i)))
  }

  lemma {:induction false} UnseenEmpty(fs: seq<ToolDelta>, i: int)
    requires i !in FirstSeen(fs)
    ensures LastId(fs, i) == LastName(fs, i) == ArgsOf(fs, i) == ""
  {
    if fs == [] {
    } else {
      UnseenEmpty(fs[..|fs| - 1], i);
    }
  }

  lemma FragmentRecorded(s: OaiState, fs: seq<ToolDelta>, tc: ToolDelta, i: int)
    requires Summarizes(s, fs) && i in AddFragment(s, tc).tools
    ensures AddFragment(s, tc).tools[i] == ToolAcc(LastId(fs + [tc], i), LastName(fs + [tc], i), ArgsOf(fs + [tc], i))
  {
    assert (fs + [tc])[..|fs|] == fs;
    if i !in s.tools { UnseenEmpty(fs, i); }
  }

  lemma SummarizesStep(s: OaiState, fs: seq<ToolDelta>, tc: ToolDelta)
    requires Summarizes(s, fs)
    ensures Summarizes(AddFragment(s, tc), fs + [tc])
  {
    var gs, t := fs + [tc], AddFragment(s, tc);
    assert gs[..|fs|] == fs;
    assert forall i :: i in FirstSeen(gs) <==> i in FirstSeen(fs) || i == tc.index;
    forall i | i in t.tools ensures t.tools[i] == ToolAcc(LastId(gs, i), LastName(gs, i), ArgsOf(gs, i)) {
      FragmentRecorded(s, fs, tc, i);
    }
  }

  lemma {:induction false} SummarizesAll(s: OaiState, fs: seq<ToolDelta>, tcs: seq<ToolDelta>)
    requires Summarizes(s, fs)
    ensures Summarizes(AddFragments(s, tcs), fs + tcs)
    ensures AddFragments(s, tcs).(tools := s.tools, order := s.order) == s
  {
    if tcs == [] {
      assert fs + tcs == fs;
    } else {
      SummarizesAll(s, fs, tcs[..|tcs| - 1]);
      SummarizesStep(AddFragments(s, tcs[..|tcs| - 1]), fs + tcs[..|tcs| - 1], tcs[|tcs| - 1]);
      assert fs + tcs[..|tcs| - 1] + [tcs[|tcs| - 1]] == fs + tcs;
    }
  }

  lemma SameToolsSummarize(s: OaiState, u: OaiState, fs: seq<ToolDelta>)
    requires Summarizes(s, fs) && u.tools == s.tools && u.order == s.order
    ensures Summarizes(u, fs)
  {
  }

  lemma DeltaSummarized(s: OaiState, fs: seq<ToolDelta>, d: Delta)
    requires Summarizes(s, fs)
    ensures var u := AddFragments(s.(text := s.text + d.content), d.toolCalls);
            && Summarizes(u, fs + d.toolCalls)
            && u.(tools := s.tools, order := s.order) == s.(text := s.text + d.content)
  {
    var t := s.(text := s.text + d.content);
    SameToolsSummarize(s, t, fs);
    hide Summarizes, AddFragments;
    SummarizesAll(t, fs, d.toolCalls);
  }

  lemma ChunkSummarized(s: OaiState, fs: seq<ToolDelta>, p: Payload<Chunk>)
    requires Summarizes(s, fs)
    ensures var u := AddChunk(s, p);
            && Summarizes(u, fs + DeltaOf(p).toolCalls) && u.text == s.text + DeltaOf(p).content
            && u.stop == (if StopOf(p) != "" then StopOf(p) else s.stop)
            && OaiUsage(u.usageIn, u.usageOut) ==
               if p.Decoded? && p.value.usage.Some? then p.value.usage.value else OaiUsage(s.usageIn, s.usageOut)
  {
    hide Summarizes, AddFragments;
    assert fs + [] == fs && s.text + "" == s.text;
    if p.Decoded? {
      var h := AddHeader(s, p.value);
      SameToolsSummarize(s, h, fs);
      if p.value.choices != [] {
        var c := p.value.choices[0];
        var v := h;
        if c.delta.Some? {
          DeltaSummarized(h, fs, c.delta.value);
          v := AddFragments(h.(text := h.text + c.delta.value.content), c.delta.value.toolCalls);
        }
        SameToolsSummarize(v, AddChunk(s, p), fs + DeltaOf(p).toolCalls);
      }
    }
  }

  lemma {:induction false} CollectorSummarizes(ps: seq<Payload<Chunk>>)
    ensures var s := AddChunks(OAI_START, ps);
            && Summarizes(s, Fragments(ps)) && s.text == TextOf(ps) && s.stop == FinishOf(ps)
            && OaiUsage(s.usageIn, s.usageOut) == UsageOf(ps)
  {
    if ps == [] {
    } else {
      var n := |ps| - 1;
      CollectorSummarizes(ps[..n]);
      ChunkSummarized(AddChunks(OAI_START, ps[..n]), Fragments(ps[..n]), ps[n]);
      hide Summarizes, AddChunk;
    }
  }
}
