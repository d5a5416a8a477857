/** The blocks a translated stream consists of, laid out from the chunks alone: text runs cut where a new tool
    begins, tools at their first appearance. */
module StreamLayout {
  import opened Common
  import opened StreamTypes
  import opened Translator
  import opened StreamAgreement
  import opened TranslatedBlocks
  import opened DenseStream

  /** What a delta says, in order: some text, a fragment of a tool call. */
  datatype Piece = Said(s: string) | Fragment(tc: ToolDelta)

  function FragmentPieces(tcs: seq<ToolDelta>): seq<Piece> {
    seq(|tcs|, k requires 0 <= k < |tcs| => Fragment(tcs[k]))
  }

  function Pieces(ps: seq<Payload<Chunk>>): seq<Piece> {
    if ps == [] then []
    else
      var d := DeltaOf(ps[|ps| - 1]);
      Pieces(ps[..|ps| - 1]) + (if d.content == "" then [] else [Said(d.content)]) + FragmentPieces(d.toolCalls)
  }

  /** A block and, for a tool, its index in the chunks. */
  datatype Placed = Placed(index: Option<int>, block: Block)

  /** Where the block of tool i is; -1 if there is none. */
  function PlaceOf(ls: seq<Placed>, i: int): (k: int)
    ensures -1 <= k < |ls|
    ensures k >= 0 ==> ls[k].index == Some(i)
  {
    if ls == [] then -1
    else if ls[|ls| - 1].index == Some(i) then |ls| - 1
    else PlaceOf(ls[..|ls| - 1], i)
  }

  predicate EndsInText(ls: seq<Placed>) {
    ls != [] && ls[|ls| - 1].index.None?
  }

  function Place(ls: seq<Placed>, p: Piece, rand: int -> string): seq<Placed> {
    match p
    case Said(s) =>
      var n := |ls| - 1;
      if EndsInText(ls) then ls[n := Placed(None, ls[n].block.(text := ls[n].block.text + s))]
      else ls + [Placed(None, Block(Text, s, "", "", ""))]
    case Fragment(tc) =>
      var k := PlaceOf(ls, tc.index);
      if k >= 0 then ls[k := Placed(ls[k].index, ls[k].block.(input := ls[k].block.input + tc.args))]
      else ls + [Placed(Some(tc.index), Block(ToolUse, "", FirstNonEmpty(tc.id, rand(tc.index)), tc.name, tc.args))]
  }

  function Layout(pieces: seq<Piece>, rand: int -> string): seq<Placed> {
    if pieces == [] then [] else Place(Layout(pieces[..|pieces| - 1], rand), pieces[|pieces| - 1], rand)
  }

  function BlocksOf(ls: seq<Placed>): seq<Block> {
    seq(|ls|, k requires 0 <= k < |ls| => ls[k].block)
  }

  // ----- places -----

  lemma PlaceOfSnoc(ls: seq<Placed>, l: Placed, i: int)
    ensures PlaceOf(ls + [l], i) == if l.index == Some(i) then |ls| else PlaceOf(ls, i)
  {
    assert (ls + [l])[..|ls|] == ls;
  }

  /** Places depend on the indices only. */
  lemma {:induction false} SamePlaces(ls: seq<Placed>, ms: seq<Placed>, i: int)
    requires |ls| == |ms| && forall k :: 0 <= k < |ls| ==> ls[k].index == ms[k].index
    ensures PlaceOf(ls, i) == PlaceOf(ms, i)
  {
    if ls == [] {
    } else {
      SamePlaces(ls[..|ls| - 1], ms[..|ms| - 1], i);
    }
  }

  lemma ChangedPlaces(ls: seq<Placed>, k: nat, b: Block)
    requires k < |ls|
    ensures var ms := ls[k := Placed(ls[k].index, b)];
            && BlocksOf(ms) == BlocksOf(ls)[k := b] && (EndsInText(ms) <==> EndsInText(ls))
            && forall i :: PlaceOf(ms, i) == PlaceOf(ls, i)
  {
    var ms := ls[k := Placed(ls[k].index, b)];
    forall i ensures PlaceOf(ms, i) == PlaceOf(ls, i) { SamePlaces(ms, ls, i); }
  }

  lemma AddedPlace(ls: seq<Placed>, l: Placed)
    ensures BlocksOf(ls + [l]) == BlocksOf(ls) + [l.block] && (EndsInText(ls + [l]) <==> l.index.None?)
    ensures forall i :: PlaceOf(ls + [l], i) == if l.index == Some(i) then |ls| else PlaceOf(ls, i)
  {
    forall i ensures PlaceOf(ls + [l], i) == if l.index == Some(i) then |ls| else PlaceOf(ls, i) {
      PlaceOfSnoc(ls, l, i);
    }
  }

  // ----- the translator lays out the same blocks -----

  ghost predicate PlacesKnown(tools: map<int, StreamTool>, ls: seq<Placed>) {
    && (forall i :: i in tools <==> PlaceOf(ls, i) >= 0)
    && (forall i :: i in tools ==> tools[i].aIdx == PlaceOf(ls, i))
  }

  ghost predicate Laid(t: State, ls: seq<Placed>) {
    && Blocks(t.out) == BlocksOf(ls) && t.nextIdx == |ls|
    && (t.openText <==> EndsInText(ls)) && (t.openText ==> t.textIdx == |ls| - 1)
    && PlacesKnown(t.tools, ls)
  }

  lemma TextLaid(t: State, ls: seq<Placed>, s: string, rand: int -> string)
    requires Laid(t, ls) && s != ""
    ensures Laid(OnText(t, s), Place(ls, Said(s), rand))
  {
    var n, bs := |ls| - 1, BlocksOf(ls);
    TextBlocks(t, s);
    TextState(t, s);
    if t.openText {
      ChangedPlaces(ls, n, ls[n].block.(text := ls[n].block.text + s));
      assert bs[n] == ls[n].block;
    } else {
      AddedPlace(ls, Placed(None, Block(Text, s, "", "", "")));
    }
    hide OnText, Blocks, BlocksOf, PlaceOf;
  }

  lemma KnownToolState(t: State, tc: ToolDelta, rand: int -> string)
    requires tc.index in t.tools
    ensures var u := OnTool(t, tc, rand);
            && u.nextIdx == t.nextIdx && u.openText == t.openText && u.textIdx == t.textIdx
            && (forall i :: i in u.tools <==> i in t.tools)
            && forall i :: i in t.tools ==> u.tools[i].aIdx == t.tools[i].aIdx
  {
  }

  lemma NewToolState(t: State, tc: ToolDelta, rand: int -> string)
    requires tc.index !in t.tools
    ensures var u := OnTool(t, tc, rand);
            && u.nextIdx == t.nextIdx + 1 && !u.openText
            && (forall i :: i in u.tools <==> i in t.tools || i == tc.index)
            && u.tools[tc.index].aIdx == t.nextIdx && forall i :: i in t.tools ==> u.tools[i] == t.tools[i]
  {
  }

  lemma KnownToolLaid(t: State, ls: seq<Placed>, tc: ToolDelta, rand: int -> string)
    requires Laid(t, ls) && tc.index in t.tools
    ensures Laid(OnTool(t, tc, rand), Place(ls, Fragment(tc), rand))
  {
    var k := PlaceOf(ls, tc.index);
    KnownToolState(t, tc, rand);
    assert k == t.tools[tc.index].aIdx && |BlocksOf(ls)| == |ls|;
    KnownToolWritten(t, tc, rand);
    ChangedPlaces(ls, k, ls[k].block.(input := ls[k].block.input + tc.args));
    assert BlocksOf(ls)[k] == ls[k].block;
    hide OnTool, Blocks, BlocksOf, PlaceOf, EndsInText;
  }

  lemma NewPlacesKnown(tools: map<int, StreamTool>, tools': map<int, StreamTool>, ls: seq<Placed>, l: Placed, i: int)
    requires PlacesKnown(tools, ls) && l.index == Some(i) && i !in tools
    requires (forall j :: j in tools' <==> j in tools || j == i) && tools'[i].aIdx == |ls|
    requires forall j :: j in tools ==> tools'[j] == tools[j]
    ensures PlacesKnown(tools', ls + [l])
  {
    AddedPlace(ls, l);
    hide PlaceOf, BlocksOf;
  }

  lemma NewToolLaid(t: State, ls: seq<Placed>, tc: ToolDelta, rand: int -> string)
    requires Laid(t, ls) && tc.index !in t.tools
    ensures Laid(OnTool(t, tc, rand), Place(ls, Fragment(tc), rand))
  {
    var u := OnTool(t, tc, rand);
    var l := Placed(Some(tc.index), Block(ToolUse, "", FirstNonEmpty(tc.id, rand(tc.index)), tc.name, tc.args));
    NewToolState(t, tc, rand);
    NewToolWritten(t, tc, rand);
    assert Place(ls, Fragment(tc), rand) == ls + [l];
    AddedPlace(ls, l);
    NewPlacesKnown(t.tools, u.tools, ls, l, tc.index);
    hide PlacesKnown, Place, PlaceOf, OnTool, Blocks, BlocksOf, EndsInText, FirstNonEmpty;
  }

  lemma LayoutSnoc(pieces: seq<Piece>, p: Piece, rand: int -> string)
    ensures Layout(pieces + [p], rand) == Place(Layout(pieces, rand), p, rand)
  {
    assert (pieces + [p])[..|pieces|] == pieces;
  }

  lemma {:induction false} ToolsLaid(t: State, pieces: seq<Piece>, tcs: seq<ToolDelta>, rand: int -> string)
    requires Laid(t, Layout(pieces, rand))
    ensures Laid(OnTools(t, tcs, rand), Layout(pieces + FragmentPieces(tcs), rand))
  {
    hide Laid, OnTool, Place, Layout;
    if tcs == [] {
      assert pieces + FragmentPieces(tcs) == pieces;
    } else {
      var n := |tcs| - 1;
      var u, before := OnTools(t, tcs[..n], rand), pieces + FragmentPieces(tcs[..n]);
      ToolsLaid(t, pieces, tcs[..n], rand);
      assert pieces + FragmentPieces(tcs) == before + [Fragment(tcs[n])];
      LayoutSnoc(before, Fragment(tcs[n]), rand);
      if tcs[n].index in u.tools {
        KnownToolLaid(u, Layout(before, rand), tcs[n], rand);
      } else {
        NewToolLaid(u, Layout(before, rand), tcs[n], rand);
      }
    }
  }

  /** The pieces of a delta after those before. */
  function WithDelta(pieces: seq<Piece>, d: Delta): seq<Piece> {
    pieces + (if d.content == "" then [] else [Said(d.content)]) + FragmentPieces(d.toolCalls)
  }

  lemma DeltaLaid(t: State, pieces: seq<Piece>, d: Delta, rand: int -> string)
    requires Laid(t, Layout(pieces, rand))
    ensures Laid(OnTools(OnText(t, d.content), d.toolCalls, rand), Layout(WithDelta(pieces, d), rand))
  {
    hide Laid, OnTools, Layout, Place, FragmentPieces;
    if d.content == "" {
      assert pieces + [] == pieces;
      ToolsLaid(t, pieces, d.toolCalls, rand);
    } else {
      TextLaid(t, Layout(pieces, rand), d.content, rand);
      LayoutSnoc(pieces, Said(d.content), rand);
      ToolsLaid(OnText(t, d.content), pieces + [Said(d.content)], d.toolCalls, rand);
    }
  }

  lemma NoDelta(pieces: seq<Piece>)
    ensures WithDelta(pieces, Delta("", [])) == pieces
  {
  }

  ghost predicate SameFields(t: State, u: State) {
    && u.out == t.out && u.nextIdx == t.nextIdx && u.openText == t.openText
    && u.textIdx == t.textIdx && u.tools == t.tools
  }

  lemma SameFieldsLaid(t: State, u: State, ls: seq<Placed>)
    requires Laid(t, ls) && SameFields(t, u)
    ensures Laid(u, ls)
  {
  }

  lemma UsageKeeps(t: State, usage: Option<OaiUsage>)
    ensures SameFields(t, OnUsage(t, usage))
  {
  }

  lemma FinishKeeps(t: State, f: Option<string>)
    ensures SameFields(t, OnFinish(t, f))
  {
  }

  lemma ChunkLaid(t: State, pieces: seq<Piece>, p: Payload<Chunk>, rand: int -> string)
    requires Laid(t, Layout(pieces, rand))
    ensures Laid(OnChunk(t, p, rand), Layout(WithDelta(pieces, DeltaOf(p)), rand))
  {
    NoDelta(pieces);
    var ls := Layout(WithDelta(pieces, DeltaOf(p)), rand);
    hide Laid, OnTools, OnText, OnUsage, OnFinish, Layout, WithDelta;
    UsageKeeps(t, if p.Decoded? then p.value.usage else None);
    if p.Decoded? {
      var u := OnUsage(t, p.value.usage);
      SameFieldsLaid(t, u, Layout(pieces, rand));
      if p.value.choices != [] {
        var c := p.value.choices[0];
        if c.delta.Some? {
          DeltaLaid(u, pieces, c.delta.value, rand);
          u := OnTools(OnText(u, c.delta.value.content), c.delta.value.toolCalls, rand);
        }
        FinishKeeps(u, c.finish);
        SameFieldsLaid(u, OnFinish(u, c.finish), ls);
      }
    }
  }

  /** Main result on the layout: after any payloads the blocks written are exactly those laid out from the chunks. */
  lemma {:induction false} PayloadsLaid(msgID: string, model: string, ps: seq<Payload<Chunk>>, rand: int -> string)
    ensures Laid(OnPayloads(Started(Initial(), msgID, model), ps, rand), Layout(Pieces(ps), rand))
  {
    var t := Started(Initial(), msgID, model);
    if ps == [] {
      BlocksSnoc([], t.out[0]);
      assert t.out == [] + [t.out[0]];
    } else {
      hide Laid, OnChunk, Layout, Started;
      var n := |ps| - 1;
      PayloadsLaid(msgID, model, ps[..n], rand);
      ChunkLaid(OnPayloads(t, ps[..n], rand), Pieces(ps[..n]), ps[n], rand);
    }
  }

  ghost predicate TextOrTool(l: Placed) {
    if l.index.Some? then l.block.kind == ToolUse else l.block.kind == Text && l.block.input == ""
  }

  lemma {:induction false} LayoutKinds(pieces: seq<Piece>, rand: int -> string)
    ensures forall k :: 0 <= k < |Layout(pieces, rand)| ==> TextOrTool(Layout(pieces, rand)[k])
  {
    if pieces == [] {
    } else {
      LayoutKinds(pieces[..|pieces| - 1], rand);
    }
  }

  ghost predicate Apart(ls: seq<Placed>) {
    forall k :: 0 <= k < |ls| - 1 ==> ls[k].index.Some? || ls[k + 1].index.Some?
  }

  lemma PlaceApart(ls: seq<Placed>, p: Piece, rand: int -> string)
    requires Apart(ls)
    ensures Apart(Place(ls, p, rand))
  {
  }

  /** Text runs are never adjacent: each is cut only by a tool. */
  lemma {:induction false} TextRunsApart(pieces: seq<Piece>, rand: int -> string)
    ensures Apart(Layout(pieces, rand))
  {
    if pieces == [] {
    } else {
      TextRunsApart(pieces[..|pieces| - 1], rand);
      PlaceApart(Layout(pieces[..|pieces| - 1], rand), pieces[|pieces| - 1], rand);
      hide Place, Apart;
    }
  }
}
