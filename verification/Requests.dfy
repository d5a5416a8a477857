/** Request translation: OpenAI chat to Anthropic messages (`ToAnthropic`) and back (`TranslateRequest`).

    A raw JSON value is given by what the decoders see of it. `canon` stands for validating and compacting
    a JSON text: None for text that is not JSON. */
module Requests {
  import opened Common

  // ----- JSON content -----

  datatype ItemKind = TextItem | ImageItem | ImageUrlItem | ToolUseItem | ToolResultItem | OtherItem(name: string)

  datatype ImageSource = ImageSource(kind: string, mediaType: string, data: string, url: string)

  /** A content value: absent, null, a string, an array of objects, or anything else (kept as text). */
  datatype Json = Absent | Null | Str(s: string) | Arr(items: seq<Item>) | Other(raw: string)

  /** An array element, with the fields of both an Anthropic block and an OpenAI content part. */
  datatype Item = Item(kind: ItemKind, text: string, id: string, name: string, input: string,
                       source: Option<ImageSource>, toolUseId: string, content: Json, imageUrl: Option<string>)

  /** A decoded content block. */
  datatype Block = Block(kind: ItemKind, text: string, id: string, name: string, input: string,
                         source: Option<ImageSource>, toolUseId: string, content: Json)

  const NO_BLOCK := Block(TextItem, "", "", "", "", None, "", Absent)

  function TextBlock(s: string): Block { NO_BLOCK.(text := s) }

  /** `json.Unmarshal` into a string; null leaves it empty. */
  function AsString(j: Json): Option<string> {
    match j
    case Str(s) => Some(s)
    case Null => Some("")
    case _ => None
  }

  function AsBlock(i: Item): Block {
    Block(i.kind, i.text, i.id, i.name, i.input, i.source, i.toolUseId, i.content)
  }

  function AsItem(b: Block, canon: string -> Option<string>): Item {
    var input := if b.input != "" && canon(b.input).Some? then canon(b.input).value else b.input;
    Item(b.kind, b.text, b.id, b.name, input, b.source, b.toolUseId, b.content, None)
  }

  /** `json.Unmarshal` into a list of blocks. */
  function AsBlocks(j: Json): Option<seq<Block>> {
    match j
    case Arr(items) => Some(seq(|items|, i requires 0 <= i < |items| => AsBlock(items[i])))
    case Null => Some([])
    case _ => None
  }

  predicate Marshallable(bs: seq<Block>, canon: string -> Option<string>) {
    forall i :: 0 <= i < |bs| ==> bs[i].input == "" || canon(bs[i].input).Some?
  }

  /** `marshalBlocks`: one input that is not JSON makes the whole list vanish. */
  function MarshalBlocks(bs: seq<Block>, canon: string -> Option<string>): Json {
    if Marshallable(bs, canon) then Arr(seq(|bs|, i requires 0 <= i < |bs| => AsItem(bs[i], canon))) else Absent
  }

  // ----- requests -----

  datatype ToolCall = ToolCall(id: string, name: string, args: string)

  datatype InMessage = InMessage(role: string, content: Json, toolCalls: seq<ToolCall>, toolCallId: string)

  datatype Tool = Tool(name: string, description: string, schema: string)

  /** The sampling fields, carried as they are. */
  datatype Sampling = Sampling(temperature: Option<real>, topP: Option<real>, stop: seq<string>, stream: bool)

  /** A `tool_choice` value: absent, null, an object with its decoded type and name, or anything else. */
  datatype ChoiceType = Auto | Any | ToolType | NoType | OtherType(word: string)

  datatype ToolChoice = NoChoice | NullChoice | ChoiceObject(kind: ChoiceType, name: string) | OtherChoice(raw: string)

  datatype OutChoice = NoOutChoice | AutoChoice | RequiredChoice | FunctionChoice(name: string)

  datatype InRequest = InRequest(model: string, messages: seq<InMessage>, maxTokens: int, sampling: Sampling,
                                 tools: seq<Tool>, toolChoice: ToolChoice)

  datatype ApiMessage = ApiMessage(role: string, content: Json)

  datatype MessagesRequest = MessagesRequest(model: string, maxTokens: int, messages: seq<ApiMessage>, system: Json,
                                             sampling: Sampling, tools: seq<Tool>, toolChoice: ToolChoice)

  datatype Part = TextPart(text: string) | ImagePart(url: string)

  datatype OutContent = NoContent | TextContent(text: string) | PartsContent(parts: seq<Part>)

  datatype ChatMessage = ChatMessage(role: string, content: OutContent, toolCalls: seq<ToolCall>, toolCallId: string)

  datatype ChatRequest = ChatRequest(model: string, messages: seq<ChatMessage>, maxTokens: int, sampling: Sampling,
                                     tools: seq<Tool>, toolChoice: OutChoice)

  // ----- ToAnthropic -----

  function IndexOf(s: string, c: char): (k: int)
    ensures -1 <= k < |s|
    ensures k >= 0 ==> s[k] == c
    ensures forall i :: 0 <= i < (if k < 0 then |s| else k) ==> s[i] != c
  {
    if s == "" then -1
    else if s[0] == c then 0
    else
      var k := IndexOf(s[1..], c);
      assert forall i :: 0 < i < |s| ==> s[i] == s[1..][i - 1];
      if k < 0 then -1 else k + 1
  }

  const DATA := "data:"
  const BASE64 := "base64,"

  /** `parseDataURL`: media type and data of a base64 data URL. */
  function ParseDataUrl(url: string): Option<(string, string)> {
    if !(DATA <= url) then None
    else
      var rest := url[|DATA|..];
      var semi := IndexOf(rest, ';');
      if semi < 0 then None
      else if !(BASE64 <= rest[semi + 1..]) then None
      else Some((rest[..semi], rest[semi + 1..][|BASE64|..]))
  }

  function DataUrl(mediaType: string, data: string): string {
    DATA + mediaType + ";" + BASE64 + data
  }

  /** A data URL is rebuilt from what was parsed of it. */
  lemma DataUrlRebuilt(url: string)
    ensures ParseDataUrl(url).Some? ==> DataUrl(ParseDataUrl(url).value.0, ParseDataUrl(url).value.1) == url
  {
    if ParseDataUrl(url).Some? {
      var rest := url[|DATA|..];
      var semi := IndexOf(rest, ';');
      var mt, after := rest[..semi], rest[semi + 1..];
      assert url == DATA + rest;
      assert rest == mt + ";" + after;
      assert after == BASE64 + after[|BASE64|..];
      Reassociate(DATA, mt, ";", BASE64, after[|BASE64|..]);
    }
  }

  lemma IndexOfPrefix(a: string, c: char, rest: string)
    requires c !in a
    ensures IndexOf(a + [c] + rest, c) == |a|
  {
    var s := a + [c] + rest;
    assert s[|a|] == c;
    forall i | 0 <= i < |a| ensures s[i] != c { assert s[i] == a[i] && a[i] in a; }
  }

  /** The URL is a base64 data URL with this media type and data. */
  ghost predicate InlineImage(url: string, mediaType: string, data: string) {
    ';' !in mediaType && url == "data:" + mediaType + ";" + "base64," + data
  }

  /** A URL is taken apart exactly if it is a base64 data URL, at the first semicolon. */
  lemma DataUrlParsesIff(url: string, mediaType: string, data: string)
    ensures ParseDataUrl(url) == Some((mediaType, data)) <==> InlineImage(url, mediaType, data)
  {
    if ParseDataUrl(url) == Some((mediaType, data)) {
      DataUrlRebuilt(url);
      var rest := url[|DATA|..];
      assert forall i :: 0 <= i < |mediaType| ==> mediaType[i] == rest[i];
    }
    if InlineImage(url, mediaType, data) {
      var tail := BASE64 + data;
      var rest := mediaType + [';'] + tail;
      Reassociate(DATA, mediaType, ";", BASE64, data);
      assert url == DATA + rest;
      IndexOfPrefix(mediaType, ';', tail);
      hide IndexOf;
      assert url[|DATA|..] == rest && rest[|mediaType| + 1..] == tail && tail[|BASE64|..] == data;
      assert rest[..|mediaType|] == mediaType;
    }
  }

  lemma Reassociate(a: string, b: string, c: string, d: string, e: string)
    ensures a + (b + c + (d + e)) == a + b + c + d + e
  {
  }

  function ImageBlock(url: string): Block {
    match ParseDataUrl(url)
    case Some(p) => NO_BLOCK.(kind := ImageItem, source := Some(ImageSource("base64", p.0, p.1, "")))
    case None => NO_BLOCK.(kind := ImageItem, source := Some(ImageSource("url", "", "", url)))
  }

  /** An inline image is sent as its data, any other by its URL. */
  lemma ImageSent(url: string, mediaType: string, data: string)
    ensures InlineImage(url, mediaType, data) ==>
              ImageBlock(url).source == Some(ImageSource("base64", mediaType, data, ""))
    ensures (forall m, d :: !InlineImage(url, m, d)) ==> ImageBlock(url).source == Some(ImageSource("url", "", "", url))
  {
    DataUrlParsesIff(url, mediaType, data);
    if ParseDataUrl(url).Some? { DataUrlParsesIff(url, ParseDataUrl(url).value.0, ParseDataUrl(url).value.1); }
    hide ParseDataUrl, InlineImage;
  }

  /** The block of one content part; parts of other kinds give none. */
  function PartBlocks(i: Item): seq<Block> {
    if i.kind == TextItem then [TextBlock(i.text)]
    else if i.kind == ImageUrlItem && i.imageUrl.Some? then [ImageBlock(i.imageUrl.value)]
    else []
  }

  function PartsBlocks(items: seq<Item>): seq<Block> {
    if items == [] then [] else PartsBlocks(items[..|items| - 1]) + PartBlocks(items[|items| - 1])
  }

  function UserBlocks(content: Json): seq<Block> {
    match AsString(content)
    case Some(s) => [TextBlock(s)]
    case None =>
      match content
      case Arr(items) => PartsBlocks(items)
      case Other(raw) => [TextBlock(raw)]
      case _ => [TextBlock("")]
  }

  function ToolUse(tc: ToolCall): Block {
    NO_BLOCK.(kind := ToolUseItem, id := tc.id, name := tc.name, input := tc.args)
  }

  function ToolUses(tcs: seq<ToolCall>): seq<Block> {
    seq(|tcs|, i requires 0 <= i < |tcs| => ToolUse(tcs[i]))
  }

  function AssistantBlocks(m: InMessage): seq<Block> {
    var said := match AsString(m.content)
      case Some(s) => if s != "" then [TextBlock(s)] else []
      case None => if AsBlocks(m.content).Some? then AsBlocks(m.content).value else [];
    said + ToolUses(m.toolCalls)
  }

  /** `appendRawText` */
  function AppendRawText(existing: Json, content: Json): Json {
    match AsString(content)
    case Some(s) =>
      if existing == Absent then Str(s)
      else Str((if AsString(existing).Some? then AsString(existing).value else "") + "\n" + s)
    case None => if existing == Absent then content else existing
  }

  function Inbound(r: MessagesRequest, m: InMessage, canon: string -> Option<string>): MessagesRequest {
    if m.role == "system" then r.(system := AppendRawText(r.system, m.content))
    else if m.role == "assistant" then
      r.(messages := r.messages + [ApiMessage("assistant", MarshalBlocks(AssistantBlocks(m), canon))])
    else if m.role == "tool" then
      var b := NO_BLOCK.(kind := ToolResultItem, toolUseId := m.toolCallId, content := m.content);
      r.(messages := r.messages + [ApiMessage("user", MarshalBlocks([b], canon))])
    else r.(messages := r.messages + [ApiMessage("user", MarshalBlocks(UserBlocks(m.content), canon))])
  }

  function InboundAll(r: MessagesRequest, ms: seq<InMessage>, canon: string -> Option<string>): MessagesRequest {
    if ms == [] then r else Inbound(InboundAll(r, ms[..|ms| - 1], canon), ms[|ms| - 1], canon)
  }

  /** The request before its messages are translated. */
  function Envelope(o: InRequest): MessagesRequest {
    var maxTokens := if o.maxTokens == 0 then 4096 else o.maxTokens;
    MessagesRequest(o.model, maxTokens, [], Absent, o.sampling, o.tools, o.toolChoice)
  }

  function Anthropic(o: InRequest, canon: string -> Option<string>): MessagesRequest {
    InboundAll(Envelope(o), o.messages, canon)
  }

  method ToAnthropic(o: InRequest, canon: string -> Option<string>) returns (r: MessagesRequest)
    ensures r == Anthropic(o, canon)
  {
    var system: Json, messages: seq<ApiMessage> := Absent, [];
    var maxTokens := o.maxTokens;
    if maxTokens == 0 { maxTokens := 4096; }
    var start := MessagesRequest(o.model, maxTokens, [], Absent, o.sampling, o.tools, NoChoice);
    if o.toolChoice != NoChoice { start := start.(toolChoice := o.toolChoice); }
    assert start == Envelope(o);
    for k := 0 to |o.messages|
      invariant start.(system := system, messages := messages) == InboundAll(start, o.messages[..k], canon)
    {
      var m := o.messages[k];
      assert o.messages[..k + 1][..k] == o.messages[..k];
      match m.role
      case "system" => system := AppendRawText(system, m.content);
      case "assistant" => messages := messages + [ApiMessage("assistant", MarshalBlocks(AssistantBlocks(m), canon))];
      case "tool" =>
        var b := NO_BLOCK.(kind := ToolResultItem, toolUseId := m.toolCallId, content := m.content);
        messages := messages + [ApiMessage("user", MarshalBlocks([b], canon))];
      case _ => messages := messages + [ApiMessage("user", MarshalBlocks(UserBlocks(m.content), canon))];
    }
    assert o.messages[..|o.messages|] == o.messages;
    r := start.(system := system, messages := messages);
  }

  // ----- TranslateRequest -----

  /** `BlocksFromRaw`; None is the decode error. */
  function BlocksFromRaw(j: Json): Option<seq<Block>> {
    if j == Absent then Some([])
    else match AsString(j)
      case Some(s) => Some(if s == "" then [] else [TextBlock(s)])
      case None => AsBlocks(j)
  }

  function Join(ss: seq<string>, sep: string): string {
    if ss == [] then "" else if |ss| == 1 then ss[0] else Join(ss[..|ss| - 1], sep) + sep + ss[|ss| - 1]
  }

  /** The non-empty texts of a block list. */
  function Texts(bs: seq<Block>): seq<string> {
    if bs == [] then []
    else
      var b := bs[|bs| - 1];
      Texts(bs[..|bs| - 1]) + if b.kind == TextItem && b.text != "" then [b.text] else []
  }

  /** `SystemText` */
  function SystemText(j: Json): string {
    if j == Absent then ""
    else match AsString(j)
      case Some(s) => s
      case None => if AsBlocks(j).Some? then Join(Texts(AsBlocks(j).value), "\n\n") else ""
  }

  function KindName(k: ItemKind): string {
    match k
    case TextItem => "text"
    case ImageItem => "image"
    case ImageUrlItem => "image_url"
    case ToolUseItem => "tool_use"
    case ToolResultItem => "tool_result"
    case OtherItem(n) => n
  }

  function FlattenedBlocks(bs: seq<Block>): seq<string> {
    if bs == [] then []
    else
      var b := bs[|bs| - 1];
      FlattenedBlocks(bs[..|bs| - 1]) +
      if b.kind == TextItem then (if b.text != "" then [b.text] else []) else ["[" + KindName(b.kind) + "]"]
  }

  /** `FlattenContent` */
  function FlattenContent(j: Json): string {
    match AsString(j)
    case Some(s) => s
    case None => if AsBlocks(j).Some? then Join(FlattenedBlocks(AsBlocks(j).value), "\n") else ""
  }

  /** The tool calls of an assistant message; `rand` draws an identifier where a block has none. */
  function ToolCallsOf(bs: seq<Block>, rand: nat -> string): seq<ToolCall> {
    if bs == [] then []
    else
      var b := bs[|bs| - 1];
      ToolCallsOf(bs[..|bs| - 1], rand) +
      if b.kind == ToolUseItem
      then [ToolCall(FirstNonEmpty(b.id, rand(|bs| - 1)), b.name,
          if b.input == "" || b.input == "null" then "{}" else b.input)]
      else []
  }

  function AssistantMessages(bs: seq<Block>, rand: nat -> string): seq<ChatMessage> {
    var content := if Texts(bs) != [] then TextContent(Join(Texts(bs), "\n\n")) else NoContent;
    var tcs := ToolCallsOf(bs, rand);
    if content != NoContent || tcs != [] then [ChatMessage("assistant", content, tcs, "")] else []
  }

  /** The parts collected so far and the messages already flushed. */
  datatype UserState = UserState(parts: seq<Part>, msgs: seq<ChatMessage>)

  function UserMessage(parts: seq<Part>): ChatMessage {
    var content := if |parts| == 1 && parts[0].TextPart? then TextContent(parts[0].text) else PartsContent(parts);
    ChatMessage("user", content, [], "")
  }

  function Flush(st: UserState): UserState {
    if st.parts == [] then st else UserState([], st.msgs + [UserMessage(st.parts)])
  }

  /** The URL an image block stands for; empty if it has none. */
  function ImageUrl(src: ImageSource): string {
    if src.url == "" && src.data != "" then DataUrl(src.mediaType, src.data) else src.url
  }

  function ToolMessage(b: Block): ChatMessage {
    ChatMessage("tool", TextContent(FlattenContent(b.content)), [], b.toolUseId)
  }

  function OnUserBlock(st: UserState, b: Block): UserState {
    match b.kind
    case TextItem => if b.text != "" then st.(parts := st.parts + [TextPart(b.text)]) else st
    case ImageItem =>
      if b.source.None? || ImageUrl(b.source.value) == "" then st
      else st.(parts := st.parts + [ImagePart(ImageUrl(b.source.value))])
    case ToolResultItem => var f := Flush(st); f.(msgs := f.msgs + [ToolMessage(b)])
    case _ => st
  }

  function OnUserBlocks(st: UserState, bs: seq<Block>): UserState {
    if bs == [] then st else OnUserBlock(OnUserBlocks(st, bs[..|bs| - 1]), bs[|bs| - 1])
  }

  function UserMessages(bs: seq<Block>): seq<ChatMessage> {
    Flush(OnUserBlocks(UserState([], []), bs)).msgs
  }

  function OutMessages(am: ApiMessage, rand: nat -> string): Option<seq<ChatMessage>> {
    match BlocksFromRaw(am.content)
    case None => None
    case Some(bs) => Some(if am.role == "assistant" then AssistantMessages(bs, rand) else UserMessages(bs))
  }

  /** `rand(k)` draws the identifiers for message k. */
  function OutAll(ams: seq<ApiMessage>, rand: nat -> nat -> string): Option<seq<ChatMessage>> {
    if ams == [] then Some([])
    else
      var init, last := OutAll(ams[..|ams| - 1], rand), OutMessages(ams[|ams| - 1], rand(|ams| - 1));
      if init.None? || last.None? then None else Some(init.value + last.value)
  }

  const DEFAULT_SCHEMA := "{\"type\":\"object\",\"properties\":{}}"

  function OutTool(t: Tool): Tool {
    if t.schema == "" || t.schema == "null" then t.(schema := DEFAULT_SCHEMA) else t
  }

  function OutTools(ts: seq<Tool>): seq<Tool> {
    seq(|ts|, i requires 0 <= i < |ts| => OutTool(ts[i]))
  }

  /** A tool choice in OpenAI form; only objects of the three Anthropic types give one. */
  function OutToolChoice(c: ToolChoice): OutChoice {
    match c
    case ChoiceObject(Auto, _) => AutoChoice
    case ChoiceObject(Any, _) => RequiredChoice
    case ChoiceObject(ToolType, name) => FunctionChoice(name)
    case _ => NoOutChoice
  }

  function SystemMessages(j: Json): seq<ChatMessage> {
    if SystemText(j) != "" then [ChatMessage("system", TextContent(SystemText(j)), [], "")] else []
  }

  function Translated(m: MessagesRequest, target: string, rand: nat -> nat -> string): Option<ChatRequest> {
    match OutAll(m.messages, rand)
    case None => None
    case Some(ms) => Some(ChatRequest(target, SystemMessages(m.system) + ms, m.maxTokens, m.sampling, OutTools(m.tools),
                                      OutToolChoice(m.toolChoice)))
  }

  /** The flush loop: parts are buffered and flushed before each tool result and at the end. */
  method TranslateUser(bs: seq<Block>) returns (msgs: seq<ChatMessage>)
    ensures msgs == UserMessages(bs)
  {
    var parts: seq<Part> := [];
    msgs := [];
    for k := 0 to |bs|
      invariant UserState(parts, msgs) == OnUserBlocks(UserState([], []), bs[..k])
    {
      var b := bs[k];
      assert bs[..k + 1][..k] == bs[..k];
      match b.kind
      case TextItem => if b.text != "" { parts := parts + [TextPart(b.text)]; }
      case ImageItem =>
        if b.source.Some? {
          var u := b.source.value.url;
          if u == "" && b.source.value.data != "" { u := DataUrl(b.source.value.mediaType, b.source.value.data); }
          if u != "" { parts := parts + [ImagePart(u)]; }
        }
      case ToolResultItem =>
        if parts != [] {
          msgs := msgs + [UserMessage(parts)];
          parts := [];
        }
        msgs := msgs + [ToolMessage(b)];
      case _ =>
    }
    assert bs[..|bs|] == bs;
    if parts != [] { msgs := msgs + [UserMessage(parts)]; }
  }

  method TranslateAssistant(bs: seq<Block>, rand: nat -> string) returns (msgs: seq<ChatMessage>)
    ensures msgs == AssistantMessages(bs, rand)
  {
    var texts: seq<string>, tcs: seq<ToolCall> := [], [];
    for k := 0 to |bs|
      invariant texts == Texts(bs[..k]) && tcs == ToolCallsOf(bs[..k], rand)
    {
      var b := bs[k];
      assert bs[..k + 1][..k] == bs[..k];
      match b.kind
      case TextItem => if b.text != "" { texts := texts + [b.text]; }
      case ToolUseItem =>
        var args := b.input;
        if args == "" || args == "null" { args := "{}"; }
        tcs := tcs + [ToolCall(FirstNonEmpty(b.id, rand(k)), b.name, args)];
      case _ =>
    }
    assert bs[..|bs|] == bs;
    var content := NoContent;
    if |texts| > 0 { content := TextContent(Join(texts, "\n\n")); }
    msgs := [];
    if content != NoContent || |tcs| > 0 { msgs := [ChatMessage("assistant", content, tcs, "")]; }
  }

  method TranslateRequest(m: MessagesRequest, target: string, rand: nat -> nat -> string)
    returns (r: Option<ChatRequest>)
    ensures r == Translated(m, target, rand)
  {
    hide SystemMessages, AssistantMessages, UserMessages, OutTools, BlocksFromRaw;
    var head := SystemMessages(m.system);
    var msgs: seq<ChatMessage> := [];
    for k := 0 to |m.messages|
      invariant OutAll(m.messages[..k], rand) == Some(msgs)
    {
      var am := m.messages[k];
      assert m.messages[..k + 1][..k] == m.messages[..k];
      var bs := BlocksFromRaw(am.content);
      if bs.None? {
        OutAllFails(m.messages, k, rand);
        return None;
      }
      var more: seq<ChatMessage>;
      if am.role == "assistant" {
        more := TranslateAssistant(bs.value, rand(k));
      } else {
        more := TranslateUser(bs.value);
      }
      msgs := msgs + more;
    }
    assert m.messages[..|m.messages|] == m.messages;
    var choice := NoOutChoice;
    if m.toolChoice != NoChoice && m.toolChoice != NullChoice {
      match m.toolChoice {
        case ChoiceObject(kind, name) =>
          match kind {
            case Auto => choice := AutoChoice;
            case Any => choice := RequiredChoice;
            case ToolType => choice := FunctionChoice(name);
            case _ =>
          }
        case _ =>
      }
    }
    r := Some(ChatRequest(target, head + msgs, m.maxTokens, m.sampling, OutTools(m.tools), choice));
  }

  lemma {:induction false} OutAllFails(ams: seq<ApiMessage>, k: nat, rand: nat -> nat -> string)
    requires k < |ams| && BlocksFromRaw(ams[k].content).None?
    ensures OutAll(ams, rand).None?
  {
    if k < |ams| - 1 { OutAllFails(ams[..|ams| - 1], k, rand); }
  }
}
