/** Texts of content lists, told from the front: which ones count and how they are joined. */
module PlainTexts {
  import opened Common
  import opened Requests

  /** The texts with the separator between any two. */
  function Joined(ts: seq<string>, sep: string): string {
    if ts == [] then "" else if |ts| == 1 then ts[0] else ts[0] + sep + Joined(ts[1..], sep)
  }

  lemma {:induction false} JoinedSnoc(ts: seq<string>, t: string, sep: string)
    ensures Joined(ts + [t], sep) == if ts == [] then t else Joined(ts, sep) + sep + t
  {
    if |ts| <= 1 {
      if ts != [] { assert (ts + [t])[1..] == [t]; }
    } else {
      var rest := ts[1..];
      assert (ts + [t])[1..] == rest + [t];
      JoinedSnoc(rest, t, sep);
      Reassociate(ts[0], sep, Joined(rest, sep), sep, t);
      hide Joined;
      JoinedCons(ts, sep);
      JoinedCons(ts + [t], sep);
    }
  }

  lemma JoinedCons(ts: seq<string>, sep: string)
    requires |ts| > 1
    ensures Joined(ts, sep) == ts[0] + sep + Joined(ts[1..], sep)
  {
  }

  lemma {:induction false} JoinIs(ts: seq<string>, sep: string)
    ensures Join(ts, sep) == Joined(ts, sep)
  {
    if |ts| > 1 {
      var init, t := ts[..|ts| - 1], ts[|ts| - 1];
      JoinIs(init, sep);
      JoinedSnoc(init, t, sep);
      assert init + [t] == ts;
      hide Joined;
    }
  }

  /** A first text that is not empty shows. */
  lemma JoinedNonEmpty(ts: seq<string>, sep: string)
    requires ts != [] && ts[0] != ""
    ensures Joined(ts, sep) != ""
  {
  }

  // ----- the texts that count -----

  /** The texts of a list that are not empty, in order. */
  function TextsOf(items: seq<Item>): seq<string> {
    if items == [] then []
    else if items[0].kind == TextItem && items[0].text != "" then [items[0].text] + TextsOf(items[1..])
    else TextsOf(items[1..])
  }

  lemma {:induction false} TextsOfSnoc(items: seq<Item>, i: Item)
    ensures TextsOf(items + [i]) == TextsOf(items) + if i.kind == TextItem && i.text != "" then [i.text] else []
  {
    if items == [] {
      assert [] + [i] == [i] && [i][1..] == [];
    } else {
      assert (items + [i])[1..] == items[1..] + [i];
      TextsOfSnoc(items[1..], i);
    }
  }

  lemma {:induction false} TextsOfNonEmpty(items: seq<Item>)
    ensures forall k :: 0 <= k < |TextsOf(items)| ==> TextsOf(items)[k] != ""
  {
    if items == [] {
    } else {
      TextsOfNonEmpty(items[1..]);
    }
  }

  /** The blocks decoded from a list. */
  ghost predicate DecodedFrom(bs: seq<Block>, items: seq<Item>) {
    |bs| == |items| && forall i :: 0 <= i < |bs| ==> bs[i] == AsBlock(items[i])
  }

  lemma DecodedInit(bs: seq<Block>, items: seq<Item>)
    requires DecodedFrom(bs, items) && bs != []
    ensures DecodedFrom(bs[..|bs| - 1], items[..|items| - 1])
    ensures bs[|bs| - 1] == AsBlock(items[|items| - 1]) && items[..|items| - 1] + [items[|items| - 1]] == items
  {
  }

  lemma {:induction false} TextsAre(bs: seq<Block>, items: seq<Item>)
    requires DecodedFrom(bs, items)
    ensures Texts(bs) == TextsOf(items)
  {
    if bs == [] {
    } else {
      DecodedInit(bs, items);
      hide DecodedFrom, TextsOf;
      TextsAre(bs[..|bs| - 1], items[..|items| - 1]);
      TextsOfSnoc(items[..|items| - 1], items[|items| - 1]);
    }
  }

  /** The texts of a system value. */
  function SystemTexts(j: Json): seq<string> {
    match j
    case Str(s) => if s != "" then [s] else []
    case Arr(items) => TextsOf(items)
    case _ => []
  }

  lemma SystemIs(j: Json)
    ensures SystemText(j) == Joined(SystemTexts(j), "\n\n")
    ensures SystemText(j) == "" <==> SystemTexts(j) == []
  {
    match j
    case Arr(items) =>
      var bs := AsBlocks(j).value;
      assert DecodedFrom(bs, items);
      hide Join, Joined, Texts, TextsOf;
      TextsAre(bs, items);
      JoinIs(TextsOf(items), "\n\n");
      TextsOfNonEmpty(items);
      if TextsOf(items) != [] { JoinedNonEmpty(TextsOf(items), "\n\n"); } else { NothingJoined("\n\n"); }
    case _ =>
  }

  lemma NothingJoined(sep: string)
    ensures Joined([], sep) == ""
  {
  }

  // ----- the content of a tool result as one text -----

  /** What an item shows: its text if that is not empty, or its kind in brackets. */
  function Shown(i: Item): seq<string> {
    match i.kind
    case TextItem => if i.text != "" then [i.text] else []
    case ImageItem => ["[image]"]
    case ImageUrlItem => ["[image_url]"]
    case ToolUseItem => ["[tool_use]"]
    case ToolResultItem => ["[tool_result]"]
    case OtherItem(name) => ["[" + name + "]"]
  }

  function ShownAll(items: seq<Item>): seq<string> {
    if items == [] then [] else Shown(items[0]) + ShownAll(items[1..])
  }

  /** What a tool result says: a string as it is, a list line by line. */
  function ResultText(j: Json): string {
    match j
    case Str(s) => s
    case Arr(items) => Joined(ShownAll(items), "\n")
    case _ => ""
  }

  lemma {:induction false} ShownSnoc(items: seq<Item>, i: Item)
    ensures ShownAll(items + [i]) == ShownAll(items) + Shown(i)
  {
    if items == [] {
      assert [] + [i] == [i] && [i][1..] == [];
      assert ShownAll([i][1..]) == [];
    } else {
      assert (items + [i])[1..] == items[1..] + [i];
      ShownSnoc(items[1..], i);
      hide Shown;
      assert Shown(items[0]) + (ShownAll(items[1..]) + Shown(i)) == Shown(items[0]) + ShownAll(items[1..]) + Shown(i);
    }
  }

  lemma OneShown(i: Item)
    ensures var b := AsBlock(i);
            Shown(i) == if b.kind == TextItem then (if b.text != "" then [b.text] else [])
                        else ["[" + KindName(b.kind) + "]"]
  {
    assert "[" + "image" + "]" == "[image]" && "[" + "image_url" + "]" == "[image_url]";
    assert "[" + "tool_use" + "]" == "[tool_use]" && "[" + "tool_result" + "]" == "[tool_result]";
  }

  lemma {:induction false} FlattenedAre(bs: seq<Block>, items: seq<Item>)
    requires DecodedFrom(bs, items)
    ensures FlattenedBlocks(bs) == ShownAll(items)
  {
    if bs == [] {
    } else {
      DecodedInit(bs, items);
      hide DecodedFrom, Shown, ShownAll, KindName;
      FlattenedAre(bs[..|bs| - 1], items[..|items| - 1]);
      ShownSnoc(items[..|items| - 1], items[|items| - 1]);
      OneShown(items[|items| - 1]);
    }
  }

  /** Flattening gives what the result says, for every content. */
  lemma FlattenIs(j: Json)
    ensures FlattenContent(j) == ResultText(j)
  {
    match j
    case Arr(items) =>
      var bs := AsBlocks(j).value;
      assert DecodedFrom(bs, items);
      hide Join, Joined, FlattenedBlocks, ShownAll;
      FlattenedAre(bs, items);
      JoinIs(ShownAll(items), "\n");
    case _ =>
  }

  // ----- tool calls -----

  /** The tool calls of a list whose first item is number k. */
  function CallsOf(items: seq<Item>, k: nat, rand: nat -> string): seq<ToolCall> {
    if items == [] then [] else CallOfItem(items[0], rand(k)) + CallsOf(items[1..], k + 1, rand)
  }

  /** The tool call of an item, r being drawn for its identifier. */
  function CallOfItem(i: Item, r: string): seq<ToolCall> {
    if i.kind != ToolUseItem then []
    else
      var args := if i.input == "" || i.input == "null" then "{}" else i.input;
      [ToolCall(if i.id != "" then i.id else r, i.name, args)]
  }

  lemma CallsOfCons(all: seq<Item>, i: Item, items: seq<Item>, k: nat, rand: nat -> string)
    requires all != [] && all[0] == i && all[1..] == items
    ensures CallsOf(all, k, rand) == CallOfItem(i, rand(k)) + CallsOf(items, k + 1, rand)
  {
    hide CallOfItem;
  }

  lemma Grouped(a: seq<ToolCall>, b: seq<ToolCall>, c: seq<ToolCall>)
    ensures a + (b + c) == a + b + c
  {
  }

  lemma {:induction false} CallsOfSnoc(items: seq<Item>, i: Item, k: nat, rand: nat -> string)
    ensures CallsOf(items + [i], k, rand) == CallsOf(items, k, rand) + CallsOf([i], k + |items|, rand)
  {
    if items == [] {
      assert [] + [i] == [i];
    } else {
      hide CallsOf, CallOfItem;
      var head, rest := items[0], items[1..];
      CallsOfSnoc(rest, i, k + 1, rand);
      CallsOfCons(items, head, rest, k, rand);
      CallsOfCons(items + [i], head, rest + [i], k, rand);
      Grouped(CallOfItem(head, rand(k)), CallsOf(rest, k + 1, rand), CallsOf([i], k + |items|, rand));
    }
  }

  lemma OneCall(i: Item, k: nat, rand: nat -> string)
    ensures CallsOf([i], k, rand) == BlockCall(AsBlock(i), rand(k))
  {
    assert [i][1..] == [] && CallsOf([i][1..], k + 1, rand) == [];
    assert CallOfItem(i, rand(k)) + [] == CallOfItem(i, rand(k));
  }

  /** What the loop adds for a block. */
  function BlockCall(b: Block, r: string): seq<ToolCall> {
    if b.kind == ToolUseItem
    then [ToolCall(FirstNonEmpty(b.id, r), b.name, if b.input == "" || b.input == "null" then "{}" else b.input)]
    else []
  }

  lemma LastCall(bs: seq<Block>, rand: nat -> string)
    requires bs != []
    ensures ToolCallsOf(bs, rand) == ToolCallsOf(bs[..|bs| - 1], rand) + BlockCall(bs[|bs| - 1], rand(|bs| - 1))
  {
  }

  lemma {:induction false} CallsAre(bs: seq<Block>, items: seq<Item>, rand: nat -> string)
    requires DecodedFrom(bs, items)
    ensures ToolCallsOf(bs, rand) == CallsOf(items, 0, rand)
  {
    if bs == [] {
    } else {
      hide CallsOf, ToolCallsOf, BlockCall;
      DecodedInit(bs, items);
      var n := |bs| - 1;
      CallsAre(bs[..n], items[..n], rand);
      CallsOfSnoc(items[..n], items[n], 0, rand);
      OneCall(items[n], n, rand);
      LastCall(bs, rand);
    }
  }

  /** An assistant message holds the non-empty texts with a blank line between any two, and the tool calls in order;
      with neither it is dropped. */
  lemma AssistantWritten(items: seq<Item>, rand: nat -> string)
    ensures var texts, calls := TextsOf(items), CallsOf(items, 0, rand);
            OutMessages(ApiMessage("assistant", Arr(items)), rand) ==
            Some(if texts == [] && calls == [] then []
                 else [ChatMessage("assistant", if texts == [] then NoContent else TextContent(Joined(texts, "\n\n")),
                                   calls, "")])
  {
    var bs := AsBlocks(Arr(items)).value;
    assert DecodedFrom(bs, items);
    hide Join, Joined, Texts, TextsOf, ToolCallsOf, CallsOf;
    TextsAre(bs, items);
    CallsAre(bs, items, rand);
    JoinIs(TextsOf(items), "\n\n");
  }

  // ----- whole requests -----

  ghost predicate NoSystemRole(ms: seq<ChatMessage>) {
    forall i :: 0 <= i < |ms| ==> ms[i].role != "system"
  }

  lemma {:induction false} UserRoles(bs: seq<Block>)
    ensures NoSystemRole(OnUserBlocks(UserState([], []), bs).msgs)
  {
    if bs == [] {
    } else {
      UserRoles(bs[..|bs| - 1]);
      OneUserRole(OnUserBlocks(UserState([], []), bs[..|bs| - 1]), bs[|bs| - 1]);
      hide OnUserBlock, NoSystemRole;
    }
  }

  lemma OneUserRole(st: UserState, b: Block)
    requires NoSystemRole(st.msgs)
    ensures NoSystemRole(OnUserBlock(st, b).msgs) && NoSystemRole(Flush(st).msgs)
  {
    hide FlattenContent;
  }

  lemma MessageRoles(am: ApiMessage, rand: nat -> string)
    ensures OutMessages(am, rand).Some? ==> NoSystemRole(OutMessages(am, rand).value)
  {
    hide BlocksFromRaw, Texts, ToolCallsOf, Join, OnUserBlocks;
    var bs := BlocksFromRaw(am.content);
    if bs.Some? && am.role != "assistant" {
      UserRoles(bs.value);
      var st := OnUserBlocks(UserState([], []), bs.value);
      OneUserRole(st, NO_BLOCK);
      hide NoSystemRole, Flush;
    }
  }

  lemma {:induction false} AllRoles(ams: seq<ApiMessage>, rand: nat -> nat -> string)
    ensures OutAll(ams, rand).Some? ==> NoSystemRole(OutAll(ams, rand).value)
  {
    if ams == [] {
    } else {
      AllRoles(ams[..|ams| - 1], rand);
      MessageRoles(ams[|ams| - 1], rand(|ams| - 1));
      hide OutMessages;
    }
  }

  /** Main result on system texts: the translated request begins with one system message, holding the non-empty texts of
      the system value in order with a blank line between any two, and has none if there are no such texts. */
  lemma SystemWritten(m: MessagesRequest, target: string, rand: nat -> nat -> string)
    requires Translated(m, target, rand).Some?
    ensures var texts, out := SystemTexts(m.system), Translated(m, target, rand).value.messages;
            if texts == [] then NoSystemRole(out)
            else out != [] && out[0] == ChatMessage("system", TextContent(Joined(texts, "\n\n")), [], "")
                 && NoSystemRole(out[1..])
  {
    hide SystemText, OutAll, NoSystemRole, OutTools, Joined, SystemTexts;
    SystemIs(m.system);
    AllRoles(m.messages, rand);
    var rest := OutAll(m.messages, rand).value;
    assert [] + rest == rest;
    assert forall x: ChatMessage :: ([x] + rest)[1..] == rest;
  }

  lemma {:induction false} MessagesFailIff(ams: seq<ApiMessage>, rand: nat -> nat -> string)
    ensures OutAll(ams, rand).None? <==> OtherContent(ams)
  {
    if ams == [] {
    } else {
      hide OutMessages, OtherContent;
      var n := |ams| - 1;
      MessagesFailIff(ams[..n], rand);
      MessageFailsIff(ams[n], rand(n));
      OtherSnoc(ams[..n], ams[n]);
      assert ams[..n] + [ams[n]] == ams;
    }
  }

  lemma OtherSnoc(ams: seq<ApiMessage>, am: ApiMessage)
    ensures OtherContent(ams + [am]) <==> OtherContent(ams) || am.content.Other?
  {
    var all := ams + [am];
    assert all[|ams|] == am;
    if i :| 0 <= i < |ams| && ams[i].content.Other? { assert all[i].content.Other?; }
  }

  /** Some content is neither a text nor a list. */
  ghost predicate OtherContent(ams: seq<ApiMessage>) {
    exists i :: 0 <= i < |ams| && ams[i].content.Other?
  }

  lemma MessageFailsIff(am: ApiMessage, rand: nat -> string)
    ensures OutMessages(am, rand).None? <==> am.content.Other?
  {
    hide UserMessages, AssistantMessages;
  }

  /** A translation fails exactly if some content is neither a text nor a list. */
  lemma TranslationFailsIff(m: MessagesRequest, target: string, rand: nat -> nat -> string)
    ensures Translated(m, target, rand).None? <==> OtherContent(m.messages)
  {
    MessagesFailIff(m.messages, rand);
    hide OutAll, OutTools, SystemMessages;
  }

  /** The tools come through with their names and descriptions; a missing schema is that of an object without
      properties. */
  lemma ToolsWritten(m: MessagesRequest, target: string, rand: nat -> nat -> string, i: nat)
    requires Translated(m, target, rand).Some? && i < |m.tools|
    ensures var tools := Translated(m, target, rand).value.tools;
            && |tools| == |m.tools| && tools[i].name == m.tools[i].name
            && tools[i].description == m.tools[i].description
            && tools[i].schema == if m.tools[i].schema == "" || m.tools[i].schema == "null"
                                  then "{\"type\":\"object\",\"properties\":{}}" else m.tools[i].schema
  {
    hide OutAll, SystemMessages;
  }

  /** A tool choice is written for the three Anthropic types alone: auto stays auto, any becomes required, a tool is
      named. */
  lemma ToolChoiceWritten(m: MessagesRequest, target: string, rand: nat -> nat -> string)
    requires Translated(m, target, rand).Some?
    ensures var c, t := Translated(m, target, rand).value.toolChoice, m.toolChoice;
            && (c == AutoChoice <==> t.ChoiceObject? && t.kind == Auto)
            && (c == RequiredChoice <==> t.ChoiceObject? && t.kind == Any)
            && (c.FunctionChoice? <==> t.ChoiceObject? && t.kind == ToolType)
            && (c.FunctionChoice? ==> c.name == t.name)
  {
    hide OutAll, SystemMessages, OutTools;
  }

  // ----- the system messages of an OpenAI request -----

  /** The contents of the system messages, in order. */
  function SystemContents(ms: seq<InMessage>): seq<string>
    requires forall i :: 0 <= i < |ms| && ms[i].role == "system" ==> ms[i].content.Str?
  {
    if ms == [] then []
    else (if ms[0].role == "system" then [ms[0].content.s] else []) + SystemContents(ms[1..])
  }

  lemma {:induction false} SystemContentsSnoc(ms: seq<InMessage>, m: InMessage)
    requires forall i :: 0 <= i < |ms| && ms[i].role == "system" ==> ms[i].content.Str?
    requires m.role == "system" ==> m.content.Str?
    ensures SystemContents(ms + [m]) == SystemContents(ms) + if m.role == "system" then [m.content.s] else []
  {
    if ms == [] {
      assert [] + [m] == [m] && [m][1..] == [];
    } else {
      assert (ms + [m])[1..] == ms[1..] + [m];
      SystemContentsSnoc(ms[1..], m);
    }
  }

  /** System messages that are texts are joined line by line into the system value. */
  lemma {:induction false} SystemCollected(r: MessagesRequest, ms: seq<InMessage>, canon: string -> Option<string>)
    requires r.system == Absent
    requires forall i :: 0 <= i < |ms| && ms[i].role == "system" ==> ms[i].content.Str?
    ensures var texts := SystemContents(ms);
            InboundAll(r, ms, canon).system == if texts == [] then Absent else Str(Joined(texts, "\n"))
  {
    if ms == [] {
    } else {
      var init, m := ms[..|ms| - 1], ms[|ms| - 1];
      SystemCollected(r, init, canon);
      SystemContentsSnoc(init, m);
      assert init + [m] == ms;
      InboundSystem(InboundAll(r, init, canon), m, canon);
      hide SystemContents, Joined, Inbound, AppendRawText;
      if m.role == "system" {
        JoinedSnoc(SystemContents(init), m.content.s, "\n");
        AppendText(if SystemContents(init) == [] then None else Some(Joined(SystemContents(init), "\n")), m.content.s);
      } else {
        assert SystemContents(init) + [] == SystemContents(init);
      }
    }
  }

  lemma InboundSystem(r: MessagesRequest, m: InMessage, canon: string -> Option<string>)
    ensures Inbound(r, m, canon).system == if m.role == "system" then AppendRawText(r.system, m.content) else r.system
  {
    hide MarshalBlocks, AssistantBlocks, UserBlocks, AppendRawText;
  }

  lemma AppendText(text: Option<string>, s: string)
    ensures AppendRawText(if text.Some? then Str(text.value) else Absent, Str(s)) ==
            Str(if text.Some? then text.value + "\n" + s else s)
  {
  }
}
