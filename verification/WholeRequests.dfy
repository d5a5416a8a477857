/** Whole requests, from OpenAI form to Anthropic form and back. */
module WholeRequests {
  import opened Common
  import opened Requests
  import opened RequestMeaning

  // ----- one message -----

  /** The Anthropic message of a message that is not the system's. */
  function Carried(m: InMessage, canon: string -> Option<string>): ApiMessage {
    if m.role == "assistant" then ApiMessage("assistant", MarshalBlocks(AssistantBlocks(m), canon))
    else if m.role == "tool" then ApiMessage("user", MarshalBlocks([ResultBlock(m)], canon))
    else ApiMessage("user", MarshalBlocks(UserBlocks(m.content), canon))
  }

  lemma InboundAppends(r: MessagesRequest, m: InMessage, canon: string -> Option<string>)
    ensures Inbound(r, m, canon) ==
            if m.role == "system" then r.(system := AppendRawText(r.system, m.content))
            else r.(messages := r.messages + [Carried(m, canon)])
  {
    hide MarshalBlocks, AssistantBlocks, UserBlocks, AppendRawText;
  }

  /** At most one message, and not the system's. */
  ghost predicate AtMostOne(out: Option<seq<ChatMessage>>) {
    out.Some? && |out.value| <= 1 && forall i :: 0 <= i < |out.value| ==> out.value[i].role != "system"
  }

  lemma UserBlocksPlain(content: Json)
    ensures forall i :: 0 <= i < |UserBlocks(content)| ==> UserBlocks(content)[i].input == ""
  {
    if content.Arr? { PartsBlocksPlain(content.items); }
  }

  lemma UserMessageRole(ps: seq<Part>)
    ensures UserMessage(ps).role == "user"
  {
  }

  lemma UserOut(content: Json, canon: string -> Option<string>, rand: nat -> string)
    ensures var out := OutMessages(ApiMessage("user", MarshalBlocks(UserBlocks(content), canon)), rand);
            AtMostOne(out) && forall i :: 0 <= i < |out.value| ==> out.value[i].role == "user"
  {
    hide MarshalBlocks, BlocksFromRaw, PartsBlocks, OnUserBlock, OnUserBlocks, TextBlock, UserMessage;
    var bs := UserBlocks(content);
    UserBlocksPlain(content);
    MarshalPlain(bs, canon);
    if content.Arr? {
      PartsCounted(content.items);
      UserMessageRole(OnUserBlocks(UserState([], []), bs).parts);
    } else {
      var s := if content.Str? then content.s else if content.Other? then content.raw else "";
      assert bs == [TextBlock(s)];
      OneTextOut(s);
    }
  }

  lemma AssistantOutOne(m: InMessage, canon: string -> Option<string>, rand: nat -> string)
    requires m.role == "assistant"
    ensures AtMostOne(OutMessages(Carried(m, canon), rand))
  {
    var bs := AssistantBlocks(m);
    if Marshallable(bs, canon) { MarshalAny(bs, canon); } else { NotMarshalled(bs, canon, rand); }
    hide MarshalBlocks, BlocksFromRaw, AssistantBlocks, Texts, ToolCallsOf, Join;
  }

  lemma RolesDiffer(out: Option<seq<ChatMessage>>, m: ChatMessage)
    requires out.Some? && forall i :: 0 <= i < |out.value| ==> out.value[i].role != m.role
    ensures out != Some([m])
  {
    if out.value != [] { assert out.value[0].role != m.role; }
  }

  /** A message comes back as one equal message exactly when it is regular, and as at most one in any case. */
  lemma MessageSurvivesIff(m: InMessage, canon: string -> Option<string>, rand: nat -> string)
    requires m.role != "system"
    ensures var out := OutMessages(Carried(m, canon), rand);
            && AtMostOne(out)
            && (Regular(m, canon) ==> out == Some([Same(m, canon)]))
            && (Draws(rand) ==> (out == Some([Same(m, canon)]) <==> Regular(m, canon)))
  {
    hide OutMessages, MarshalBlocks, AssistantBlocks, UserBlocks, RegularAssistant, RegularUser, RegularResult;
    hide Draws, SameContent, SameCalls;
    if m.role == "assistant" {
      AssistantOutOne(m, canon, rand);
      AssistantSurvivesIff(m, canon, rand);
    } else if m.role == "tool" {
      ResultOut(m, canon, rand);
      ToolSurvivesIff(m, canon, rand);
    } else {
      UserOut(m.content, canon, rand);
      SameRole(m, canon);
      if m.role == "user" {
        UserSurvivesIff(m, canon, rand);
      } else {
        RolesDiffer(OutMessages(Carried(m, canon), rand), Same(m, canon));
      }
    }
  }

  // ----- message lists -----

  function SameAll(ms: seq<InMessage>, canon: string -> Option<string>): seq<ChatMessage> {
    seq(|ms|, i requires 0 <= i < |ms| => Same(ms[i], canon))
  }

  ghost predicate RegularMessages(ms: seq<InMessage>, canon: string -> Option<string>) {
    forall i :: 0 <= i < |ms| ==> Regular(ms[i], canon)
  }

  ghost predicate AllDraw(rand: nat -> nat -> string) {
    forall k: nat :: Draws(rand(k))
  }

  ghost predicate NoSystem(ms: seq<InMessage>) {
    forall i :: 0 <= i < |ms| ==> ms[i].role != "system"
  }

  lemma OutAllSnoc(ams: seq<ApiMessage>, am: ApiMessage, rand: nat -> nat -> string)
    requires OutAll(ams, rand).Some? && OutMessages(am, rand(|ams|)).Some?
    ensures OutAll(ams + [am], rand) == Some(OutAll(ams, rand).value + OutMessages(am, rand(|ams|)).value)
  {
    assert (ams + [am])[..|ams|] == ams;
    hide OutMessages;
  }

  /** What is written for the messages of any list is no system message. */
  lemma {:induction false} NoSystemWritten(r: MessagesRequest, ms: seq<InMessage>, canon: string -> Option<string>,
                                           rand: nat -> nat -> string)
    requires r.messages == []
    ensures var out := OutAll(InboundAll(r, ms, canon).messages, rand);
            out.Some? && forall i :: 0 <= i < |out.value| ==> out.value[i].role != "system"
  {
    hide OutMessages, Inbound, Carried, AppendRawText;
    if ms == [] {
    } else {
      var init, m := ms[..|ms| - 1], ms[|ms| - 1];
      NoSystemWritten(r, init, canon, rand);
      var before := InboundAll(r, init, canon);
      InboundAppends(before, m, canon);
      if m.role != "system" {
        MessageSurvivesIff(m, canon, rand(|before.messages|));
        OutAllSnoc(before.messages, Carried(m, canon), rand);
      }
    }
  }

  lemma SnocEqual(a: seq<ChatMessage>, b: seq<ChatMessage>, c: seq<ChatMessage>, m: ChatMessage)
    requires |a| <= |c| && |b| <= 1
    ensures a + b == c + [m] <==> a == c && b == [m]
  {
    if a + b == c + [m] {
      assert |a + b| == |c| + 1;
      assert (a + b)[..|c|] == c && (a + b)[|c|] == m;
    }
  }

  lemma SameAllSnoc(ms: seq<InMessage>, m: InMessage, canon: string -> Option<string>)
    ensures SameAll(ms + [m], canon) == SameAll(ms, canon) + [Same(m, canon)]
    ensures RegularMessages(ms + [m], canon) <==> RegularMessages(ms, canon) && Regular(m, canon)
  {
    hide Same, Regular;
    assert forall i :: 0 <= i < |ms| ==> (ms + [m])[i] == ms[i];
    assert (ms + [m])[|ms|] == m;
  }

  /** A list without system messages comes back equal exactly when all its messages are regular. */
  lemma {:induction false} ListSurvivesIff(r: MessagesRequest, ms: seq<InMessage>, canon: string -> Option<string>,
                                           rand: nat -> nat -> string)
    requires r.messages == [] && NoSystem(ms)
    ensures InboundAll(r, ms, canon).(messages := []) == r && |InboundAll(r, ms, canon).messages| == |ms|
    ensures var out := OutAll(InboundAll(r, ms, canon).messages, rand);
            && out.Some? && |out.value| <= |ms|
            && (RegularMessages(ms, canon) ==> out == Some(SameAll(ms, canon)))
            && (AllDraw(rand) ==> (out == Some(SameAll(ms, canon)) <==> RegularMessages(ms, canon)))
  {
    hide OutMessages, Inbound, Carried, Same, Regular, Draws;
    if ms == [] {
      assert SameAll(ms, canon) == [];
    } else {
      var init, m := ms[..|ms| - 1], ms[|ms| - 1];
      assert init + [m] == ms;
      ListSurvivesIff(r, init, canon, rand);
      LastSurvivesIff(InboundAll(r, init, canon), init, m, canon, rand);
    }
  }

  lemma LastSurvivesIff(r: MessagesRequest, ms: seq<InMessage>, m: InMessage, canon: string -> Option<string>,
                        rand: nat -> nat -> string)
    requires m.role != "system" && OutAll(r.messages, rand).Some? && |OutAll(r.messages, rand).value| <= |ms|
    ensures var n := Inbound(r, m, canon);
            && n.(messages := r.messages) == r && |n.messages| == |r.messages| + 1
            && var out, before := OutAll(n.messages, rand), OutAll(r.messages, rand);
            && out.Some? && |out.value| <= |ms| + 1
            && (before == Some(SameAll(ms, canon)) && Regular(m, canon) ==> out == Some(SameAll(ms + [m], canon)))
            && (AllDraw(rand) ==> (out == Some(SameAll(ms + [m], canon)) <==>
                                   before == Some(SameAll(ms, canon)) && Regular(m, canon)))
  {
    hide OutAll, OutMessages, Inbound, Carried, Same, Regular, Draws;
    InboundAppends(r, m, canon);
    MessageSurvivesIff(m, canon, rand(|r.messages|));
    OutAllSnoc(r.messages, Carried(m, canon), rand);
    SameAllSnoc(ms, m, canon);
    SnocEqual(OutAll(r.messages, rand).value, OutMessages(Carried(m, canon), rand(|r.messages|)).value,
              SameAll(ms, canon), Same(m, canon));
  }

  // ----- the system message -----

  lemma {:induction false} SystemFirst(r: MessagesRequest, m: InMessage, ms: seq<InMessage>,
                                       canon: string -> Option<string>)
    requires m.role == "system"
    ensures InboundAll(r, [m] + ms, canon) == InboundAll(r.(system := AppendRawText(r.system, m.content)), ms, canon)
  {
    if ms == [] {
      assert [m] + ms == [m] && [m][..0] == [];
    } else {
      SystemFirst(r, m, ms[..|ms| - 1], canon);
      assert ([m] + ms)[..|ms|] == [m] + ms[..|ms| - 1];
      hide Inbound, AppendRawText;
    }
  }

  predicate RegularSystem(content: Json) {
    || (content.Str? && content.s != "")
    || (OneText(content) && content.items[0].text != "")
  }

  lemma OneTextTexts(b: Block)
    requires b.kind == TextItem
    ensures Texts([b]) == if b.text != "" then [b.text] else []
  {
    assert [b][..0] == [];
  }

  /** A system message in front is written as itself exactly when it is a non-empty text. */
  lemma SystemSurvivesIff(m: InMessage, canon: string -> Option<string>)
    requires m.role == "system"
    ensures var out := SystemMessages(AppendRawText(Absent, m.content));
            |out| <= 1 && (out == [Same(m, canon)] <==> RegularSystem(m.content))
  {
    if OneText(m.content) {
      var b := AsBlock(m.content.items[0]);
      assert AsBlocks(m.content).value == [b];
      OneTextTexts(b);
      assert Join(Texts([b]), "\n\n") == b.text;
    }
    hide Join, Texts;
  }

  // ----- requests -----

  /** Regular messages behind at most one system message, which comes first and is a non-empty text. */
  ghost predicate RegularRequest(o: InRequest, canon: string -> Option<string>) {
    var ms := o.messages;
    if ms != [] && ms[0].role == "system" then RegularSystem(ms[0].content) && RegularMessages(ms[1..], canon)
    else RegularMessages(ms, canon)
  }

  /** The request itself in the outbound format. */
  function SameRequest(o: InRequest, target: string, canon: string -> Option<string>): ChatRequest {
    ChatRequest(target, SameAll(o.messages, canon), if o.maxTokens == 0 then 4096 else o.maxTokens, o.sampling,
                OutTools(o.tools), OutToolChoice(o.toolChoice))
  }

  /** Only the messages can be lost: everything else always comes through. */
  lemma {:induction false} InboundKeepsRest(r: MessagesRequest, ms: seq<InMessage>, canon: string -> Option<string>)
    ensures InboundAll(r, ms, canon).(messages := r.messages, system := r.system) == r
    ensures NoSystem(ms) ==> InboundAll(r, ms, canon).system == r.system
  {
    if ms == [] {
    } else {
      InboundKeepsRest(r, ms[..|ms| - 1], canon);
      InboundAppends(InboundAll(r, ms[..|ms| - 1], canon), ms[|ms| - 1], canon);
      hide Inbound, AppendRawText, Carried;
    }
  }

  lemma NothingForAbsent()
    ensures SystemMessages(Absent) == []
  {
  }

  lemma NoSystemSurvivesIff(o: InRequest, target: string, canon: string -> Option<string>, rand: nat -> nat -> string)
    requires NoSystem(o.messages)
    ensures var same := Translated(Anthropic(o, canon), target, rand) == Some(SameRequest(o, target, canon));
            && (RegularMessages(o.messages, canon) ==> same)
            && (AllDraw(rand) ==> (same <==> RegularMessages(o.messages, canon)))
  {
    hide OutAll, InboundAll, OutTools, Regular, Same, SameAll, RegularMessages, AllDraw, OutToolChoice, SystemMessages;
    ListSurvivesIff(Envelope(o), o.messages, canon, rand);
    NothingForAbsent();
    var out := OutAll(Anthropic(o, canon).messages, rand).value;
    assert [] + out == out;
  }

  lemma WithSystemSurvivesIff(o: InRequest, target: string, canon: string -> Option<string>,
                              rand: nat -> nat -> string)
    requires o.messages != [] && o.messages[0].role == "system" && NoSystem(o.messages[1..])
    ensures var same := Translated(Anthropic(o, canon), target, rand) == Some(SameRequest(o, target, canon));
            var regular := RegularSystem(o.messages[0].content) && RegularMessages(o.messages[1..], canon);
            && (regular ==> same)
            && (AllDraw(rand) ==> (same <==> regular))
  {
    var m, rest := o.messages[0], o.messages[1..];
    var start := Envelope(o);
    var r := start.(system := AppendRawText(Absent, m.content));
    assert o.messages == [m] + rest;
    SystemFirst(start, m, rest, canon);
    SystemSurvivesIff(m, canon);
    ListSurvivesIff(r, rest, canon, rand);
    SameAllCons(m, rest, canon);
    var head := SystemMessages(r.system);
    var tail := OutAll(InboundAll(r, rest, canon).messages, rand).value;
    hide OutAll, InboundAll, OutTools, Regular, SameAll, Same, RegularMessages, AllDraw, OutToolChoice, RegularSystem;
    hide SystemMessages, AppendRawText;
    ConsEqual(head, tail, Same(m, canon), SameAll(rest, canon));
  }

  lemma ConsEqual(a: seq<ChatMessage>, b: seq<ChatMessage>, m: ChatMessage, c: seq<ChatMessage>)
    requires |a| <= 1 && |b| <= |c|
    ensures a + b == [m] + c <==> a == [m] && b == c
  {
    if a + b == [m] + c {
      assert |a + b| == 1 + |c|;
      assert (a + b)[0] == m && (a + b)[1..] == c;
    }
  }

  lemma SameAllCons(m: InMessage, ms: seq<InMessage>, canon: string -> Option<string>)
    ensures SameAll([m] + ms, canon) == [Same(m, canon)] + SameAll(ms, canon)
  {
    hide Same;
  }

  /** If a request comes back equal, a system message can only be its first. */
  lemma OnlyFirstIsSystem(o: InRequest, target: string, canon: string -> Option<string>, rand: nat -> nat -> string)
    requires Translated(Anthropic(o, canon), target, rand) == Some(SameRequest(o, target, canon))
    ensures forall i :: 1 <= i < |o.messages| ==> o.messages[i].role != "system"
  {
    hide OutAll, InboundAll, SystemMessages, Same, OutTools;
    var r := Anthropic(o, canon);
    NoSystemWritten(Envelope(o), o.messages, canon, rand);
    AtMostOneSystem(r.system);
    var head, tail := SystemMessages(r.system), OutAll(r.messages, rand).value;
    var same := SameAll(o.messages, canon);
    assert head + tail == same;
    forall i | 1 <= i < |o.messages| ensures o.messages[i].role != "system" {
      SameRole(o.messages[i], canon);
      assert same[i] == tail[i - |head|];
    }
  }

  lemma AtMostOneSystem(j: Json)
    ensures |SystemMessages(j)| <= 1
  {
    hide SystemText;
  }

  lemma SameRole(m: InMessage, canon: string -> Option<string>)
    ensures Same(m, canon).role == m.role
  {
  }

  lemma RegularHasNoSystem(ms: seq<InMessage>, canon: string -> Option<string>)
    requires RegularMessages(ms, canon)
    ensures NoSystem(ms)
  {
    forall i | 0 <= i < |ms| ensures ms[i].role != "system" {
      assert Regular(ms[i], canon);
    }
  }

  /** Main result: a request translated to Anthropic form and back comes back equal, message for message, with its
      tools, its sampling fields and its tool choice, exactly when it is regular. */
  lemma RequestRoundTripIff(o: InRequest, target: string, canon: string -> Option<string>, rand: nat -> nat -> string)
    ensures var same := Translated(Anthropic(o, canon), target, rand) == Some(SameRequest(o, target, canon));
            && (RegularRequest(o, canon) ==> same)
            && (AllDraw(rand) ==> (same <==> RegularRequest(o, canon)))
  {
    var ms := o.messages;
    if Translated(Anthropic(o, canon), target, rand) == Some(SameRequest(o, target, canon)) {
      OnlyFirstIsSystem(o, target, canon, rand);
    }
    hide Translated, Anthropic, SameRequest, Regular, AllDraw, RegularSystem, RegularMessages;
    if ms != [] && ms[0].role == "system" {
      if RegularMessages(ms[1..], canon) { RegularHasNoSystem(ms[1..], canon); }
      if NoSystem(ms[1..]) { WithSystemSurvivesIff(o, target, canon, rand); }
    } else {
      if RegularMessages(ms, canon) { RegularHasNoSystem(ms, canon); }
      if NoSystem(ms) { NoSystemSurvivesIff(o, target, canon, rand); }
    }
  }

  /** A tool choice comes through exactly if it has the Anthropic form; OpenAI's own words and function objects are
      dropped. */
  lemma ToolChoiceKeptIff(o: InRequest, target: string, canon: string -> Option<string>, rand: nat -> nat -> string)
    ensures Translated(Anthropic(o, canon), target, rand).Some?
    ensures Translated(Anthropic(o, canon), target, rand).value.toolChoice != NoOutChoice <==>
            o.toolChoice.ChoiceObject? && o.toolChoice.kind in {Auto, Any, ToolType}
  {
    NoSystemWritten(Envelope(o), o.messages, canon, rand);
    InboundKeepsRest(Envelope(o), o.messages, canon);
    hide OutAll, InboundAll;
  }
}
