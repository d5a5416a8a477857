/** What the two request translations preserve. */
module RequestMeaning {
  import opened Common
  import opened Requests
  import opened PlainTexts

  // ----- the flush loop, for every block list -----

  /** What a user message carries, in order. */
  datatype Atom = PartAtom(part: Part) | ResultAtom(id: string, text: string)

  function BlockAtoms(b: Block): seq<Atom> {
    if b.kind == TextItem && b.text != "" then [PartAtom(TextPart(b.text))]
    else if b.kind == ImageItem && b.source.Some? && Shows(b.source.value) != ""
      then [PartAtom(ImagePart(Shows(b.source.value)))]
    else if b.kind == ToolResultItem then [ResultAtom(b.toolUseId, ResultText(b.content))]
    else []
  }

  /** The image a source shows: its URL, or else its data as a data URL; empty if it has neither. */
  function Shows(src: ImageSource): string {
    if src.url != "" then src.url
    else if src.data != "" then "data:" + src.mediaType + ";" + "base64," + src.data
    else ""
  }

  function Atoms(bs: seq<Block>): seq<Atom> {
    if bs == [] then [] else Atoms(bs[..|bs| - 1]) + BlockAtoms(bs[|bs| - 1])
  }

  function PartAtoms(ps: seq<Part>): seq<Atom> {
    seq(|ps|, i requires 0 <= i < |ps| => PartAtom(ps[i]))
  }

  function MessageAtoms(m: ChatMessage): seq<Atom> {
    match m.content
    case NoContent => []
    case TextContent(t) => if m.role == "tool" then [ResultAtom(m.toolCallId, t)] else [PartAtom(TextPart(t))]
    case PartsContent(ps) => PartAtoms(ps)
  }

  function OutAtoms(ms: seq<ChatMessage>): seq<Atom> {
    if ms == [] then [] else OutAtoms(ms[..|ms| - 1]) + MessageAtoms(ms[|ms| - 1])
  }

  lemma OutAtomsSnoc(ms: seq<ChatMessage>, m: ChatMessage)
    ensures OutAtoms(ms + [m]) == OutAtoms(ms) + MessageAtoms(m)
  {
    assert (ms + [m])[..|ms|] == ms;
  }

  lemma UserMessageAtoms(ps: seq<Part>)
    requires ps != []
    ensures MessageAtoms(UserMessage(ps)) == PartAtoms(ps)
  {
  }

  /** No empty part is waiting and no empty user message was written. */
  ghost predicate NonEmptyParts(ps: seq<Part>) {
    forall i :: 0 <= i < |ps| ==> if ps[i].TextPart? then ps[i].text != "" else ps[i].url != ""
  }

  ghost predicate GoodMessage(m: ChatMessage) {
    m.role == "user" ==>
      match m.content
      case NoContent => false
      case TextContent(t) => t != ""
      case PartsContent(ps) => ps != [] && NonEmptyParts(ps) && !(|ps| == 1 && ps[0].TextPart?)
  }

  /** Two user messages are never adjacent, and none ends the list while parts wait. */
  ghost predicate GoodMessages(ms: seq<ChatMessage>) {
    && (forall i :: 0 <= i < |ms| ==> GoodMessage(ms[i]))
    && (forall i :: 0 <= i < |ms| - 1 ==> !(ms[i].role == "user" && ms[i + 1].role == "user"))
  }

  lemma NoPartAtoms()
    ensures PartAtoms([]) == []
  {
  }

  lemma FlushGood(st: UserState)
    requires GoodMessages(st.msgs) && NonEmptyParts(st.parts)
    requires st.msgs != [] ==> st.msgs[|st.msgs| - 1].role == "tool"
    ensures GoodMessages(Flush(st).msgs)
    ensures OutAtoms(Flush(st).msgs) == OutAtoms(st.msgs) + PartAtoms(st.parts)
  {
    hide OutAtoms, PartAtoms;
    if st.parts != [] {
      OutAtomsSnoc(st.msgs, UserMessage(st.parts));
      UserMessageAtoms(st.parts);
      assert GoodMessage(UserMessage(st.parts));
    } else {
      NoPartAtoms();
      assert OutAtoms(st.msgs) + [] == OutAtoms(st.msgs);
    }
  }

  lemma ToolResultKeeps(st: UserState, b: Block)
    requires GoodMessages(st.msgs) && NonEmptyParts(st.parts) && b.kind == ToolResultItem
    requires st.msgs != [] ==> st.msgs[|st.msgs| - 1].role == "tool"
    ensures var u := OnUserBlock(st, b);
            && GoodMessages(u.msgs) && u.parts == [] && u.msgs != [] && u.msgs[|u.msgs| - 1].role == "tool"
            && OutAtoms(u.msgs) == OutAtoms(st.msgs) + PartAtoms(st.parts) + BlockAtoms(b)
  {
    hide OutAtoms, PartAtoms, FlattenContent, ResultText;
    FlushGood(st);
    FlattenIs(b.content);
    var f := Flush(st);
    OutAtomsSnoc(f.msgs, ToolMessage(b));
    assert ToolMessage(b).role == "tool";
  }

  /** Messages and waiting parts together carry the atoms. */
  ghost predicate Carries(st: UserState, atoms: seq<Atom>) {
    && GoodMessages(st.msgs) && NonEmptyParts(st.parts)
    && (st.msgs != [] ==> st.msgs[|st.msgs| - 1].role == "tool")
    && OutAtoms(st.msgs) + PartAtoms(st.parts) == atoms
  }

  lemma BlockCarries(st: UserState, atoms: seq<Atom>, b: Block)
    requires Carries(st, atoms)
    ensures Carries(OnUserBlock(st, b), atoms + BlockAtoms(b))
  {
    if b.kind == ToolResultItem {
      ToolResultKeeps(st, b);
      assert PartAtoms([]) == [];
    } else {
      OtherBlockKeeps(st, b);
    }
    hide OnUserBlock, GoodMessages, NonEmptyParts, OutAtoms, PartAtoms, BlockAtoms;
  }

  lemma {:induction false} UserBlocksCarry(bs: seq<Block>)
    ensures Carries(OnUserBlocks(UserState([], []), bs), Atoms(bs))
  {
    if bs == [] {
    } else {
      UserBlocksCarry(bs[..|bs| - 1]);
      BlockCarries(OnUserBlocks(UserState([], []), bs[..|bs| - 1]), Atoms(bs[..|bs| - 1]), bs[|bs| - 1]);
      hide Carries, OnUserBlock, BlockAtoms;
    }
  }

  lemma OtherBlockKeeps(st: UserState, b: Block)
    requires b.kind != ToolResultItem && NonEmptyParts(st.parts)
    ensures var u := OnUserBlock(st, b);
            u.msgs == st.msgs && NonEmptyParts(u.parts) && PartAtoms(u.parts) == PartAtoms(st.parts) + BlockAtoms(b)
  {
  }

  /** For every block list the messages written carry exactly its atoms in order; no user message is empty
      and no two are adjacent. */
  lemma FlushKeepsOrder(bs: seq<Block>)
    ensures OutAtoms(UserMessages(bs)) == Atoms(bs)
    ensures GoodMessages(UserMessages(bs))
  {
    UserBlocksCarry(bs);
    FlushGood(OnUserBlocks(UserState([], []), bs));
  }

  // ----- the round trip -----

  /** A content part that survives: non-empty text, or an image URL that is not empty and, when it is a base64
      data URL, carries data. */
  predicate RegularPart(i: Item) {
    if i.kind == TextItem then i.text != ""
    else i.kind == ImageUrlItem && i.imageUrl.Some? && i.imageUrl.value != ""
         && (ParseDataUrl(i.imageUrl.value).Some? ==> ParseDataUrl(i.imageUrl.value).value.1 != "")
  }

  predicate RegularCall(tc: ToolCall, canon: string -> Option<string>) {
    && tc.id != ""
    && (tc.args == "" || (canon(tc.args).Some? && canon(tc.args).value != "" && canon(tc.args).value != "null"))
  }

  predicate PlainText(i: Item, canon: string -> Option<string>) {
    i.kind == TextItem && i.text != "" && (i.input == "" || canon(i.input).Some?)
  }

  predicate RegularAssistant(m: InMessage, canon: string -> Option<string>) {
    && (forall i :: 0 <= i < |m.toolCalls| ==> RegularCall(m.toolCalls[i], canon))
    && match m.content
       case Str(s) => s != "" || m.toolCalls != []
       case Arr(items) =>
         (items != [] || m.toolCalls != []) && forall i :: 0 <= i < |items| ==> PlainText(items[i], canon)
       case Other(_) => false
       case _ => m.toolCalls != []
  }

  predicate RegularUser(content: Json) {
    match content
    case Str(s) => s != ""
    case Arr(items) => items != [] && forall i :: 0 <= i < |items| ==> RegularPart(items[i])
    case _ => false
  }

  predicate OneText(content: Json) {
    content.Arr? && |content.items| == 1 && content.items[0].kind == TextItem
  }

  predicate RegularResult(content: Json) {
    content.Str? || OneText(content)
  }

  /** Messages the two translations carry through; for a system message see WholeRequests. */
  predicate Regular(m: InMessage, canon: string -> Option<string>) {
    if m.role == "assistant" then RegularAssistant(m, canon)
    else if m.role == "tool" then RegularResult(m.content)
    else m.role == "user" && RegularUser(m.content)
  }

  function ItemPart(i: Item): Part {
    if i.kind == TextItem then TextPart(i.text) else ImagePart(if i.imageUrl.Some? then i.imageUrl.value else "")
  }

  function ItemParts(items: seq<Item>): seq<Part> {
    seq(|items|, i requires 0 <= i < |items| => ItemPart(items[i]))
  }

  function ItemTexts(items: seq<Item>): seq<string> {
    seq(|items|, i requires 0 <= i < |items| => items[i].text)
  }

  function SameCall(tc: ToolCall, canon: string -> Option<string>): ToolCall {
    tc.(args := if tc.args != "" && canon(tc.args).Some? then canon(tc.args).value else "{}")
  }

  function SameCalls(tcs: seq<ToolCall>, canon: string -> Option<string>): seq<ToolCall> {
    seq(|tcs|, i requires 0 <= i < |tcs| => SameCall(tcs[i], canon))
  }

  /** The message itself, in the outbound format: lists of one text become that text, an assistant's texts are
      joined, and arguments are compacted. */
  function Same(m: InMessage, canon: string -> Option<string>): ChatMessage {
    if m.role == "assistant" then
      ChatMessage("assistant",
        match m.content
        case Str(s) => if s == "" then NoContent else TextContent(s)
        case Arr(items) => if items == [] then NoContent else TextContent(Joined(ItemTexts(items), "\n\n"))
        case Other(raw) => TextContent(raw)
        case _ => NoContent,
        SameCalls(m.toolCalls, canon), "")
    else
      ChatMessage(m.role, SameContent(m.content), [], if m.role == "tool" then m.toolCallId else "")
  }

  function SameContent(content: Json): OutContent {
    match content
    case Str(s) => TextContent(s)
    case Arr(items) =>
      if |items| == 1 && items[0].kind == TextItem then TextContent(items[0].text) else PartsContent(ItemParts(items))
    case _ => NoContent
  }

  // ----- user and tool messages -----

  /** A block that is no tool result adds its parts to those waiting. */
  lemma PartAppended(st: UserState, b: Block, ps: seq<Part>)
    requires OnUserBlock(UserState([], []), b) == UserState(ps, []) && b.kind != ToolResultItem
    ensures OnUserBlock(st, b) == st.(parts := st.parts + ps)
  {
    assert st.parts + [] == st.parts;
  }

  lemma {:induction false} PlainBlocksOut(bs: seq<Block>, ps: seq<Part>)
    requires |bs| == |ps|
    requires forall i :: 0 <= i < |bs| ==>
               OnUserBlock(UserState([], []), bs[i]) == UserState([ps[i]], []) && bs[i].kind != ToolResultItem
    ensures OnUserBlocks(UserState([], []), bs) == UserState(ps, [])
  {
    hide OnUserBlock;
    if bs == [] {
    } else {
      var n := |bs| - 1;
      PlainBlocksOut(bs[..n], ps[..n]);
      PartAppended(UserState(ps[..n], []), bs[n], [ps[n]]);
      assert ps[..n] + [ps[n]] == ps;
    }
  }

  lemma ImageBlockOut(url: string)
    requires url != "" && (ParseDataUrl(url).Some? ==> ParseDataUrl(url).value.1 != "")
    ensures OnUserBlock(UserState([], []), ImageBlock(url)) == UserState([ImagePart(url)], [])
  {
    DataUrlRebuilt(url);
  }

  /** The block of a regular part. */
  function PartBlock(i: Item): Block {
    if i.kind == TextItem then TextBlock(i.text) else ImageBlock(if i.imageUrl.Some? then i.imageUrl.value else "")
  }

  lemma RegularPartBlock(i: Item)
    requires RegularPart(i)
    ensures PartBlocks(i) == [PartBlock(i)]
  {
  }

  lemma {:induction false} RegularPartsBlocks(items: seq<Item>)
    requires forall i :: 0 <= i < |items| ==> RegularPart(items[i])
    ensures PartsBlocks(items) == seq(|items|, i requires 0 <= i < |items| => PartBlock(items[i]))
  {
    hide RegularPart, PartBlock, PartBlocks;
    if items == [] {
    } else {
      RegularPartsBlocks(items[..|items| - 1]);
      RegularPartBlock(items[|items| - 1]);
    }
  }

  lemma MarshalPlain(bs: seq<Block>, canon: string -> Option<string>)
    requires forall i :: 0 <= i < |bs| ==> bs[i].input == ""
    ensures BlocksFromRaw(MarshalBlocks(bs, canon)) == Some(bs)
  {
    var j := MarshalBlocks(bs, canon);
    assert j.Arr?;
    forall i | 0 <= i < |bs| ensures AsBlock(j.items[i]) == bs[i] {
    }
    assert AsBlocks(j).value == bs;
  }

  lemma {:induction false} PartsBlocksPlain(items: seq<Item>)
    ensures forall i :: 0 <= i < |PartsBlocks(items)| ==> PartsBlocks(items)[i].input == ""
  {
    if items == [] {
    } else {
      PartsBlocksPlain(items[..|items| - 1]);
    }
  }

  lemma PartBlockOut(i: Item)
    requires RegularPart(i)
    ensures OnUserBlock(UserState([], []), PartBlock(i)) == UserState([ItemPart(i)], [])
    ensures PartBlock(i).kind != ToolResultItem
  {
    if i.kind != TextItem { ImageBlockOut(i.imageUrl.value); }
  }

  lemma PartsSurvive(items: seq<Item>)
    requires forall i :: 0 <= i < |items| ==> RegularPart(items[i])
    ensures OnUserBlocks(UserState([], []), PartsBlocks(items)) == UserState(ItemParts(items), [])
  {
    RegularPartsBlocks(items);
    hide RegularPart, OnUserBlock, OnUserBlocks, PartBlock, ItemPart, PartsBlocks;
    forall i | 0 <= i < |items|
      ensures OnUserBlock(UserState([], []), PartsBlocks(items)[i]) == UserState([ItemParts(items)[i]], [])
      ensures PartsBlocks(items)[i].kind != ToolResultItem
    {
      PartBlockOut(items[i]);
    }
    PlainBlocksOut(PartsBlocks(items), ItemParts(items));
  }

  lemma UserSurvives(m: InMessage, canon: string -> Option<string>)
    requires m.role == "user" && Regular(m, canon)
    ensures BlocksFromRaw(MarshalBlocks(UserBlocks(m.content), canon)) == Some(UserBlocks(m.content))
    ensures UserMessages(UserBlocks(m.content)) == [Same(m, canon)]
  {
    hide MarshalBlocks, BlocksFromRaw, OnUserBlock, PartsBlocks;
    if m.content.Str? {
      var bs := [TextBlock(m.content.s)];
      PlainBlocksOut(bs, [TextPart(m.content.s)]) by { TextBlockOut(m.content.s); }
    } else {
      PartsSurvive(m.content.items);
      PartsBlocksPlain(m.content.items);
    }
    MarshalPlain(UserBlocks(m.content), canon);
  }

  lemma TextBlockOut(s: string)
    requires s != ""
    ensures OnUserBlock(UserState([], []), TextBlock(s)) == UserState([TextPart(s)], [])
  {
  }

  lemma PartAdds(st: UserState, bs: seq<Block>, i: Item)
    requires OnUserBlocks(UserState([], []), bs) == st
    ensures var u := OnUserBlocks(UserState([], []), bs + PartBlocks(i));
            u.msgs == st.msgs && |u.parts| == |st.parts| + if RegularPart(i) then 1 else 0
  {
    hide OnUserBlock, RegularPart, PartBlock;
    if PartBlocks(i) == [] {
      assert bs + PartBlocks(i) == bs;
      PartAlone(i);
    } else {
      assert (bs + PartBlocks(i))[..|bs|] == bs;
      PartAlone(i);
      var b := PartBlocks(i)[0];
      PartAppended(st, b, OnUserBlock(UserState([], []), b).parts);
    }
  }

  /** What one part alone leaves behind. */
  lemma PartAlone(i: Item)
    ensures |PartBlocks(i)| <= 1 && (PartBlocks(i) == [] ==> !RegularPart(i))
    ensures PartBlocks(i) != [] ==>
              var b := PartBlocks(i)[0];
              var u := OnUserBlock(UserState([], []), b);
              b.kind != ToolResultItem && u.msgs == [] && |u.parts| == if RegularPart(i) then 1 else 0
  {
  }

  function RegularCount(items: seq<Item>): (n: nat)
    ensures n <= |items|
  {
    if items == [] then 0
    else RegularCount(items[..|items| - 1]) + if RegularPart(items[|items| - 1]) then 1 else 0
  }

  lemma {:induction false} CountOfAll(items: seq<Item>)
    requires RegularCount(items) == |items|
    ensures forall i :: 0 <= i < |items| ==> RegularPart(items[i])
  {
    if items == [] {
    } else {
      var n := |items| - 1;
      CountOfAll(items[..n]);
      forall i | 0 <= i < |items| ensures RegularPart(items[i]) {
        if i < n { assert items[..n][i] == items[i]; }
      }
    }
  }

  /** Irregular parts leave nothing behind. */
  lemma {:induction false} PartsCounted(items: seq<Item>)
    ensures var u := OnUserBlocks(UserState([], []), PartsBlocks(items));
            u.msgs == [] && |u.parts| == RegularCount(items)
  {
    if items == [] {
    } else {
      var n := |items| - 1;
      PartsCounted(items[..n]);
      PartAdds(OnUserBlocks(UserState([], []), PartsBlocks(items[..n])), PartsBlocks(items[..n]), items[n]);
      hide OnUserBlocks, RegularPart, PartBlocks;
    }
  }

  lemma OneTextOut(s: string)
    ensures UserMessages([TextBlock(s)]) ==
            if s == "" then [] else [ChatMessage("user", TextContent(s), [], "")]
  {
    var bs := [TextBlock(s)];
    assert bs[..|bs| - 1] == [];
    assert OnUserBlocks(UserState([], []), bs) == OnUserBlock(UserState([], []), bs[0]);
    if s != "" { TextBlockOut(s); }
  }

  lemma FewerPartsDiffer(ps: seq<Part>, qs: seq<Part>)
    requires |ps| < |qs|
    ensures UserMessage(ps).content != UserMessage(qs).content
  {
  }

  lemma IrregularPartsLost(m: InMessage, canon: string -> Option<string>)
    requires m.role == "user" && m.content.Arr? && !RegularUser(m.content)
    ensures UserMessages(PartsBlocks(m.content.items)) != [Same(m, canon)]
  {
    var items := m.content.items;
    PartsCounted(items);
    if RegularCount(items) == |items| { CountOfAll(items); }
    assert items == [] || RegularCount(items) < |items|;
    hide OnUserBlocks, RegularPart, PartsBlocks, RegularCount, RegularUser, UserMessage;
    var u := OnUserBlocks(UserState([], []), PartsBlocks(items));
    if items != [] { FewerPartsDiffer(u.parts, ItemParts(items)); }
    assert u.parts != [] ==> UserMessages(PartsBlocks(items)) == [UserMessage(u.parts)];
  }

  /** A user message comes back as one equal message exactly when it is regular: a non-empty text, or a non-empty
      list of non-empty texts and usable images. */
  lemma UserSurvivesIff(m: InMessage, canon: string -> Option<string>, rand: nat -> string)
    requires m.role == "user"
    ensures OutMessages(ApiMessage("user", MarshalBlocks(UserBlocks(m.content), canon)), rand) == Some([Same(m, canon)])
            <==> RegularUser(m.content)
  {
    var bs := UserBlocks(m.content);
    if m.content.Arr? { PartsBlocksPlain(m.content.items); }
    MarshalPlain(bs, canon);
    hide MarshalBlocks, BlocksFromRaw, UserMessages, PartsBlocks;
    if RegularUser(m.content) {
      UserSurvives(m, canon);
    } else if m.content.Arr? {
      IrregularPartsLost(m, canon);
    } else {
      OneTextOut(if m.content.Other? then m.content.raw else "");
    }
  }

  /** The Anthropic block of a tool result. */
  function ResultBlock(m: InMessage): Block {
    NO_BLOCK.(kind := ToolResultItem, toolUseId := m.toolCallId, content := m.content)
  }

  lemma ResultOut(m: InMessage, canon: string -> Option<string>, rand: nat -> string)
    ensures OutMessages(ApiMessage("user", MarshalBlocks([ResultBlock(m)], canon)), rand)
            == Some([ChatMessage("tool", TextContent(FlattenContent(m.content)), [], m.toolCallId)])
  {
    var bs := [ResultBlock(m)];
    MarshalPlain(bs, canon);
    hide MarshalBlocks, BlocksFromRaw, FlattenContent;
    assert bs[..0] == [];
    assert OnUserBlocks(UserState([], []), bs) == OnUserBlock(UserState([], []), bs[0]);
    assert UserMessages(bs) == [ToolMessage(bs[0])];
  }

  lemma OneTextFlat(b: Block)
    requires b.kind == TextItem
    ensures Join(FlattenedBlocks([b]), "\n") == b.text
  {
    assert [b][..0] == [];
    assert FlattenedBlocks([b]) == if b.text != "" then [b.text] else [];
  }

  /** A tool result comes back as one equal message exactly when its content is a string or a list of one text. */
  lemma ToolSurvivesIff(m: InMessage, canon: string -> Option<string>, rand: nat -> string)
    requires m.role == "tool"
    ensures OutMessages(ApiMessage("user", MarshalBlocks([ResultBlock(m)], canon)), rand) == Some([Same(m, canon)])
            <==> RegularResult(m.content)
  {
    ResultOut(m, canon, rand);
    if OneText(m.content) {
      assert AsBlocks(m.content).value == [AsBlock(m.content.items[0])];
      OneTextFlat(AsBlock(m.content.items[0]));
    }
    hide OutMessages, MarshalBlocks, Join, FlattenedBlocks;
  }

  // ----- assistant messages -----

  /** The blocks of an assistant message after the round through JSON. */
  function Marshalled(bs: seq<Block>, canon: string -> Option<string>): seq<Block> {
    seq(|bs|, i requires 0 <= i < |bs| => AsBlock(AsItem(bs[i], canon)))
  }

  lemma MarshalAny(bs: seq<Block>, canon: string -> Option<string>)
    requires Marshallable(bs, canon)
    ensures BlocksFromRaw(MarshalBlocks(bs, canon)) == Some(Marshalled(bs, canon))
  {
    var j := MarshalBlocks(bs, canon);
    assert AsBlocks(j).value == Marshalled(bs, canon);
  }

  lemma {:induction false} SplitTexts(a: seq<Block>, b: seq<Block>)
    requires forall i :: 0 <= i < |b| ==> b[i].kind == ToolUseItem
    ensures Texts(a + b) == Texts(a)
  {
    if b == [] {
      assert a + b == a;
    } else {
      SplitTexts(a, b[..|b| - 1]);
      assert (a + b)[..|a + b| - 1] == a + b[..|b| - 1];
    }
  }

  lemma {:induction false} SameTextsMarshalled(bs: seq<Block>, canon: string -> Option<string>)
    ensures Texts(Marshalled(bs, canon)) == Texts(bs)
  {
    if bs == [] {
    } else {
      var n := |bs| - 1;
      SameTextsMarshalled(bs[..n], canon);
      assert Marshalled(bs, canon)[..n] == Marshalled(bs[..n], canon);
    }
  }

  lemma {:induction false} CallsIffToolUse(bs: seq<Block>, rand: nat -> string)
    ensures ToolCallsOf(bs, rand) == [] <==> forall i :: 0 <= i < |bs| ==> bs[i].kind != ToolUseItem
  {
    if bs == [] {
    } else {
      var n := |bs| - 1;
      CallsIffToolUse(bs[..n], rand);
      assert forall i :: 0 <= i < n ==> bs[..n][i] == bs[i];
    }
  }

  /** The tool call of a block, r being drawn for its identifier. */
  function CallOf(b: Block, r: string): ToolCall {
    ToolCall(FirstNonEmpty(b.id, r), b.name, if b.input == "" || b.input == "null" then "{}" else b.input)
  }

  function CallsFrom(b: seq<Block>, k: nat, rand: nat -> string): seq<ToolCall> {
    seq(|b|, i requires 0 <= i < |b| => CallOf(b[i], rand(k + i)))
  }

  lemma CallSnoc(bs: seq<Block>, b: Block, rand: nat -> string)
    requires b.kind == ToolUseItem
    ensures ToolCallsOf(bs + [b], rand) == ToolCallsOf(bs, rand) + [CallOf(b, rand(|bs|))]
  {
    assert (bs + [b])[..|bs|] == bs;
  }

  lemma {:induction false} SplitCalls(a: seq<Block>, b: seq<Block>, rand: nat -> string)
    requires forall i :: 0 <= i < |b| ==> b[i].kind == ToolUseItem
    ensures ToolCallsOf(a + b, rand) == ToolCallsOf(a, rand) + CallsFrom(b, |a|, rand)
  {
    hide ToolCallsOf, CallOf;
    if b == [] {
      assert a + b == a;
      assert ToolCallsOf(a, rand) + CallsFrom([], |a|, rand) == ToolCallsOf(a, rand);
    } else {
      var n := |b| - 1;
      SplitCalls(a, b[..n], rand);
      CallSnoc(a + b[..n], b[n], rand);
      assert a + b[..n] + [b[n]] == a + b;
      assert CallsFrom(b, |a|, rand) == CallsFrom(b[..n], |a|, rand) + [CallOf(b[n], rand(|a| + n))];
    }
  }

  /** The text blocks in front of the tool calls. */
  function Said(content: Json): seq<Block> {
    match AsString(content)
    case Some(s) => if s != "" then [TextBlock(s)] else []
    case None => if AsBlocks(content).Some? then AsBlocks(content).value else []
  }

  /** The calls come back equal exactly when each has an identifier and its arguments are absent or neither empty nor
      null as JSON. */
  lemma CallSameIff(tc: ToolCall, canon: string -> Option<string>, r: string)
    requires tc.args == "" || canon(tc.args).Some?
    ensures var same := CallOf(AsBlock(AsItem(ToolUse(tc), canon)), r) == SameCall(tc, canon);
            (RegularCall(tc, canon) ==> same) && (r != "" ==> (same <==> RegularCall(tc, canon)))
  {
  }

  ghost predicate AllRegular(tcs: seq<ToolCall>, canon: string -> Option<string>) {
    forall i :: 0 <= i < |tcs| ==> RegularCall(tcs[i], canon)
  }

  /** The identifiers drawn are not empty, as the source's never are. */
  ghost predicate Draws(rand: nat -> string) {
    forall i: nat :: rand(i) != ""
  }

  lemma CallsSameIff(tcs: seq<ToolCall>, k: nat, canon: string -> Option<string>, rand: nat -> string)
    requires forall i :: 0 <= i < |tcs| ==> tcs[i].args == "" || canon(tcs[i].args).Some?
    ensures var same := CallsFrom(Marshalled(ToolUses(tcs), canon), k, rand) == SameCalls(tcs, canon);
            (AllRegular(tcs, canon) ==> same) && (Draws(rand) ==> (same <==> AllRegular(tcs, canon)))
  {
    var out, same := CallsFrom(Marshalled(ToolUses(tcs), canon), k, rand), SameCalls(tcs, canon);
    forall i | 0 <= i < |tcs|
      ensures RegularCall(tcs[i], canon) ==> out[i] == same[i]
      ensures rand(k + i) != "" ==> (out[i] == same[i] <==> RegularCall(tcs[i], canon))
    {
      CallSameIff(tcs[i], canon, rand(k + i));
    }
    assert |out| == |same| == |tcs|;
    hide CallsFrom, SameCalls, RegularCall, Marshalled, ToolUses;
    if Draws(rand) && out == same {
      forall i | 0 <= i < |tcs| ensures RegularCall(tcs[i], canon) {
        assert out[i] == same[i] && rand(k + i) != "";
      }
    }
  }

  // ----- the texts of an assistant message -----

  const SEPARATOR := "\n\n"

  predicate SaysText(b: Block) {
    b.kind == TextItem && b.text != ""
  }

  ghost predicate AllSayText(bs: seq<Block>) {
    forall i :: 0 <= i < |bs| ==> SaysText(bs[i])
  }

  function BlockTexts(bs: seq<Block>): seq<string> {
    seq(|bs|, i requires 0 <= i < |bs| => bs[i].text)
  }

  lemma JoinSnoc(ss: seq<string>, s: string)
    ensures Join(ss + [s], SEPARATOR) == if ss == [] then s else Join(ss, SEPARATOR) + SEPARATOR + s
  {
    assert (ss + [s])[..|ss|] == ss;
  }

  lemma TextsSnoc(bs: seq<Block>, b: Block)
    ensures Texts(bs + [b]) == if SaysText(b) then Texts(bs) + [b.text] else Texts(bs)
    ensures AllSayText(bs + [b]) <==> AllSayText(bs) && SaysText(b)
    ensures BlockTexts(bs + [b]) == BlockTexts(bs) + [b.text]
  {
    SaidSnoc(bs, b);
    hide AllSayText, BlockTexts;
    assert (bs + [b])[..|bs|] == bs;
    assert Texts(bs) + [] == Texts(bs);
  }

  lemma SaidSnoc(bs: seq<Block>, b: Block)
    ensures AllSayText(bs + [b]) <==> AllSayText(bs) && SaysText(b)
    ensures BlockTexts(bs + [b]) == BlockTexts(bs) + [b.text]
  {
    hide SaysText;
    var all := bs + [b];
    assert all[|bs|] == b;
    assert forall i :: 0 <= i < |bs| ==> all[i] == bs[i];
  }

  /** Leaving a block out makes the joined text shorter by a separator at least. */
  lemma {:induction false} JoinShrinks(bs: seq<Block>)
    ensures AllSayText(bs) ==> Texts(bs) == BlockTexts(bs)
    ensures !AllSayText(bs) && Texts(bs) != [] ==>
              |Join(Texts(bs), SEPARATOR)| + |SEPARATOR| <= |Join(BlockTexts(bs), SEPARATOR)|
    ensures BlockTexts(bs) == [] <==> bs == []
    ensures Texts(bs) == [] && bs != [] ==> !AllSayText(bs)
  {
    if bs == [] {
    } else {
      var init, b := bs[..|bs| - 1], bs[|bs| - 1];
      assert init + [b] == bs;
      JoinShrinks(init);
      TextsSnoc(init, b);
      JoinSnoc(BlockTexts(init), b.text);
      JoinSnoc(Texts(init), b.text);
      hide Join, Texts, AllSayText, BlockTexts, SaysText;
      if AllSayText(init) { assert Texts(init) == BlockTexts(init); }
    }
  }

  function ContentOf(texts: seq<string>): OutContent {
    if texts != [] then TextContent(Join(texts, SEPARATOR)) else NoContent
  }

  lemma ContentSameIff(bs: seq<Block>)
    ensures ContentOf(Texts(bs)) == ContentOf(BlockTexts(bs)) <==> AllSayText(bs)
  {
    JoinShrinks(bs);
    assert bs == [] ==> Texts(bs) == [] && AllSayText(bs);
    hide Join, Texts, BlockTexts, AllSayText;
  }

  // ----- when an assistant message survives -----

  lemma MarshalledConcat(a: seq<Block>, b: seq<Block>, canon: string -> Option<string>)
    ensures Marshalled(a + b, canon) == Marshalled(a, canon) + Marshalled(b, canon)
  {
    hide AsItem, AsBlock;
  }

  lemma MarshallableConcat(a: seq<Block>, b: seq<Block>, canon: string -> Option<string>)
    ensures Marshallable(a + b, canon) <==> Marshallable(a, canon) && Marshallable(b, canon)
  {
    forall i | 0 <= i < |a| ensures (a + b)[i] == a[i] { }
    forall i | 0 <= i < |b| ensures (a + b)[|a| + i] == b[i] { }
  }

  lemma AssistantSplit(m: InMessage, canon: string -> Option<string>)
    ensures AssistantBlocks(m) == Said(m.content) + ToolUses(m.toolCalls)
    ensures Marshalled(AssistantBlocks(m), canon) ==
            Marshalled(Said(m.content), canon) + Marshalled(ToolUses(m.toolCalls), canon)
    ensures Marshallable(AssistantBlocks(m), canon) <==>
            Marshallable(Said(m.content), canon) && Marshallable(ToolUses(m.toolCalls), canon)
  {
    assert AssistantBlocks(m) == Said(m.content) + ToolUses(m.toolCalls);
    hide AssistantBlocks, Said, ToolUses, Marshalled, Marshallable;
    MarshalledConcat(Said(m.content), ToolUses(m.toolCalls), canon);
    MarshallableConcat(Said(m.content), ToolUses(m.toolCalls), canon);
  }

  lemma CallsMarshallable(tcs: seq<ToolCall>, canon: string -> Option<string>)
    ensures Marshallable(ToolUses(tcs), canon) <==>
            forall i :: 0 <= i < |tcs| ==> tcs[i].args == "" || canon(tcs[i].args).Some?
  {
    assert forall i :: 0 <= i < |tcs| ==> ToolUses(tcs)[i].input == tcs[i].args;
  }

  /** What is written for an assistant message whose blocks are JSON. */
  lemma AssistantOut(m: InMessage, canon: string -> Option<string>, rand: nat -> string)
    requires m.role == "assistant" && Marshallable(AssistantBlocks(m), canon)
    ensures var tcs := ToolCallsOf(Marshalled(Said(m.content), canon), rand)
                       + CallsFrom(Marshalled(ToolUses(m.toolCalls), canon), |Said(m.content)|, rand);
            var content := ContentOf(Texts(Said(m.content)));
            OutMessages(ApiMessage("assistant", MarshalBlocks(AssistantBlocks(m), canon)), rand) ==
            Some(if content != NoContent || tcs != [] then [ChatMessage("assistant", content, tcs, "")] else [])
  {
    AssistantSplit(m, canon);
    MarshalAny(AssistantBlocks(m), canon);
    var a, b := Marshalled(Said(m.content), canon), Marshalled(ToolUses(m.toolCalls), canon);
    assert |a| == |Said(m.content)|;
    forall i | 0 <= i < |b| ensures b[i].kind == ToolUseItem { }
    SplitTexts(a, b);
    SameTextsMarshalled(Said(m.content), canon);
    SplitCalls(a, b, rand);
    hide AssistantBlocks, Said, ToolUses, Marshalled, MarshalBlocks, BlocksFromRaw, Texts, ToolCallsOf, CallsFrom, Join;
  }

  /** What was said keeps its content, and holds no tool call, exactly when it is absent, a string, or a list of
      non-empty texts. */
  ghost predicate PlainlySaid(content: Json) {
    match content
    case Arr(items) => forall i :: 0 <= i < |items| ==> items[i].kind == TextItem && items[i].text != ""
    case Other(_) => false
    case _ => true
  }

  lemma SaidItems(items: seq<Item>)
    ensures var a := Said(Arr(items));
            && BlockTexts(a) == ItemTexts(items) && |BlockTexts(a)| == |items|
            && (AllSayText(a) <==> PlainlySaid(Arr(items)))
            && (AllSayText(a) ==> forall i :: 0 <= i < |a| ==> a[i].kind != ToolUseItem)
  {
    var a := Said(Arr(items));
    forall i | 0 <= i < |items| ensures a[i].text == items[i].text && a[i].kind == items[i].kind { }
  }

  lemma SaidSameIff(m: InMessage, canon: string -> Option<string>, rand: nat -> string)
    requires m.role == "assistant"
    ensures PlainlySaid(m.content) <==>
            ContentOf(Texts(Said(m.content))) == Same(m, canon).content
            && ToolCallsOf(Marshalled(Said(m.content), canon), rand) == []
  {
    var a := Said(m.content);
    CallsIffToolUse(Marshalled(a, canon), rand);
    assert forall i :: 0 <= i < |a| ==> Marshalled(a, canon)[i].kind == a[i].kind;
    match m.content
    case Arr(items) =>
      ContentSameIff(a);
      SaidItems(items);
      JoinIs(ItemTexts(items), SEPARATOR);
      hide Texts, ToolCallsOf, Join, Joined, AllSayText, BlockTexts, ItemTexts, Said;
    case Str(s) =>
      assert s != "" ==> a[..0] == [] && Texts(a) == [s];
    case _ =>
  }

  lemma RegularByParts(m: InMessage, canon: string -> Option<string>)
    ensures RegularAssistant(m, canon) <==>
            && Marshallable(Said(m.content), canon) && PlainlySaid(m.content)
            && AllRegular(m.toolCalls, canon)
            && (Same(m.(role := "assistant"), canon).content != NoContent || m.toolCalls != [])
  {
    match m.content
    case Arr(items) =>
      var a := Said(m.content);
      assert forall i :: 0 <= i < |items| ==> a[i].input == items[i].input;
      hide RegularCall;
    case _ => hide RegularCall;
  }

  /** An assistant message comes back as one equal message exactly when it is regular: it says something or calls a
      tool, all it says is non-empty text, and its calls have identifiers and usable arguments. */
  lemma AssistantSurvivesIff(m: InMessage, canon: string -> Option<string>, rand: nat -> string)
    requires m.role == "assistant"
    ensures var out := OutMessages(ApiMessage("assistant", MarshalBlocks(AssistantBlocks(m), canon)), rand);
            && (RegularAssistant(m, canon) ==> out == Some([Same(m, canon)]))
            && (Draws(rand) ==> (out == Some([Same(m, canon)]) <==> RegularAssistant(m, canon)))
  {
    AssistantSplit(m, canon);
    CallsMarshallable(m.toolCalls, canon);
    RegularByParts(m, canon);
    if Marshallable(AssistantBlocks(m), canon) {
      MarshallableSurvives(m, canon, rand);
    } else {
      NotMarshalled(AssistantBlocks(m), canon, rand);
      if AllRegular(m.toolCalls, canon) {
        forall i | 0 <= i < |m.toolCalls| ensures m.toolCalls[i].args == "" || canon(m.toolCalls[i].args).Some? {
          assert RegularCall(m.toolCalls[i], canon);
        }
      }
    }
    hide AssistantBlocks, Said, ToolUses, MarshalBlocks, RegularCall, PlainlySaid, Same, Marshallable, Draws;
    hide RegularAssistant, OutMessages;
  }

  lemma NotMarshalled(bs: seq<Block>, canon: string -> Option<string>, rand: nat -> string)
    requires !Marshallable(bs, canon)
    ensures OutMessages(ApiMessage("assistant", MarshalBlocks(bs, canon)), rand) == Some([])
  {
    assert Texts([]) == [] && ToolCallsOf([], rand) == [];
  }

  lemma MarshallableSurvives(m: InMessage, canon: string -> Option<string>, rand: nat -> string)
    requires m.role == "assistant" && Marshallable(AssistantBlocks(m), canon)
    ensures var out := OutMessages(ApiMessage("assistant", MarshalBlocks(AssistantBlocks(m), canon)), rand);
            var nonEmpty := Same(m, canon).content != NoContent || m.toolCalls != [];
            && (PlainlySaid(m.content) && AllRegular(m.toolCalls, canon) && nonEmpty ==> out == Some([Same(m, canon)]))
            && (Draws(rand) && out == Some([Same(m, canon)]) ==>
                  PlainlySaid(m.content) && AllRegular(m.toolCalls, canon) && nonEmpty)
  {
    AssistantSplit(m, canon);
    CallsMarshallable(m.toolCalls, canon);
    AssistantOut(m, canon, rand);
    SaidSameIff(m, canon, rand);
    CallsSameIff(m.toolCalls, |Said(m.content)|, canon, rand);
    SameParts(m, canon, rand);
    hide AssistantBlocks, Said, ToolUses, Marshalled, MarshalBlocks, Texts, ToolCallsOf, CallsFrom, SameCalls;
    hide OutMessages, AllRegular, PlainlySaid, Same, Marshallable, Draws, ContentOf;
    var calls := CallsFrom(Marshalled(ToolUses(m.toolCalls), canon), |Said(m.content)|, rand);
    var before := ToolCallsOf(Marshalled(Said(m.content), canon), rand);
    assert |before + calls| == |before| + |calls|;
    assert before == [] ==> before + calls == calls;
  }

  lemma SameParts(m: InMessage, canon: string -> Option<string>, rand: nat -> string)
    requires m.role == "assistant"
    ensures Same(m, canon) == ChatMessage("assistant", Same(m, canon).content, SameCalls(m.toolCalls, canon), "")
    ensures |CallsFrom(Marshalled(ToolUses(m.toolCalls), canon), |Said(m.content)|, rand)|
            == |SameCalls(m.toolCalls, canon)| == |m.toolCalls|
  {
  }

  // ----- where an assistant message is lost -----

  /** An assistant message is dropped exactly when some block's input is not JSON, or it has neither a text nor a
      tool call. */
  lemma AssistantDroppedIff(m: InMessage, canon: string -> Option<string>, rand: nat -> string)
    requires m.role == "assistant"
    ensures var bs := AssistantBlocks(m);
            OutMessages(ApiMessage("assistant", MarshalBlocks(bs, canon)), rand) == Some([]) <==>
            !Marshallable(bs, canon) || (Texts(bs) == [] && forall i :: 0 <= i < |bs| ==> bs[i].kind != ToolUseItem)
  {
    var bs := AssistantBlocks(m);
    hide AssistantBlocks;
    if Marshallable(bs, canon) {
      var cs := Marshalled(bs, canon);
      MarshalAny(bs, canon);
      SameTextsMarshalled(bs, canon);
      CallsIffToolUse(cs, rand);
      assert forall i :: 0 <= i < |bs| ==> cs[i].kind == bs[i].kind;
      hide BlocksFromRaw, MarshalBlocks, Texts, ToolCallsOf, Marshalled;
    } else {
      assert Texts([]) == [] && ToolCallsOf([], rand) == [];
    }
  }

  /** Arguments that are not JSON take the whole assistant message with them. */
  lemma InvalidArgumentsDropMessage(m: InMessage, i: nat, canon: string -> Option<string>, rand: nat -> string)
    requires m.role == "assistant" && i < |m.toolCalls| && m.toolCalls[i].args != "" && canon(m.toolCalls[i].args).None?
    ensures OutMessages(ApiMessage("assistant", MarshalBlocks(AssistantBlocks(m), canon)), rand) == Some([])
  {
    var bs := AssistantBlocks(m);
    var k := |bs| - |m.toolCalls| + i;
    assert bs[k] == ToolUse(m.toolCalls[i]);
    assert !Marshallable(bs, canon);
    assert Texts([]) == [] && ToolCallsOf([], rand) == [];
  }
}
