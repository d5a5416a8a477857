/** Decoded chunks, events and messages, and the line scan both collectors share. */
module StreamTypes {
  import opened Common

  // ----- the OpenAI side -----

  datatype OaiUsage = OaiUsage(prompt: int, completion: int)

  /** One element of a delta's `tool_calls`. */
  datatype ToolDelta = ToolDelta(index: int, id: string, name: string, args: string)

  datatype Delta = Delta(content: string, toolCalls: seq<ToolDelta>)

  datatype Choice = Choice(delta: Option<Delta>, finish: Option<string>)

  datatype Chunk = Chunk(model: string, choices: seq<Choice>, usage: Option<OaiUsage>)

  // ----- the Anthropic side -----

  datatype Usage = Usage(input: int, output: int, cacheRead: int, cacheWrite: int)

  /** A block's `type`. */
  datatype Kind = Text | ToolUse | Thinking | OtherKind(name: string)

  datatype Block = Block(kind: Kind, text: string, id: string, name: string, input: string)

  datatype Message = Message(id: string, model: string, content: seq<Block>, stopReason: string, usage: Usage)

  datatype BlockHeader = BlockHeader(kind: Kind, id: string, name: string)

  datatype BlockChange = TextDelta(text: string) | InputJsonDelta(partial: string) | OtherDelta

  /** An event payload. `MessageDelta` keeps both places a stop reason can be: the writers fill the one
      inside `delta`, the collector reads the one at top level. */
  datatype Event =
    | MessageStart(id: string, model: string, usage: Usage)
    | BlockStart(index: int, block: Option<BlockHeader>)
    | BlockDelta(index: int, change: Option<BlockChange>)
    | BlockStop(index: int)
    | MessageDelta(topStopReason: string, deltaStopReason: string, deltaUsage: Option<Usage>)
    | MessageStop
    | ErrorEvent
    | OtherEvent

  const NO_USAGE := Usage(0, 0, 0, 0)

  // ----- server-sent event sources -----

  /** What follows `data:` on a line: the end marker, text that is not JSON of the expected shape, or a value. */
  datatype Payload<+T> = Done | Undecodable | Decoded(value: T)

  /** A trimmed line: blank, a comment or another field; or a data line. */
  datatype Line<+T> = Skipped | Data(payload: Payload<T>)

  /** The lines a scanner yields and whether it stops with an error behind them. A read error that comes with the last
      bytes is recorded while lines are still left: `early` says that it is, when the scan breaks off before the end. */
  datatype Source<+T> = Source(lines: seq<Line<T>>, failed: bool, early: bool)

  /** A source without errors. */
  function Intact<T>(lines: seq<Line<T>>): Source<T> {
    Source(lines, false, false)
  }

  /** `scanSSEData`: the payloads handed on, in order, up to the end marker. */
  function Payloads<T>(lines: seq<Line<T>>): seq<Payload<T>> {
    if lines == [] then []
    else if lines[0] == Data(Done) then []
    else (if lines[0].Data? then [lines[0].payload] else []) + Payloads(lines[1..])
  }

  /** The end marker is reached, and the scan breaks off there. */
  ghost predicate Finished<T>(lines: seq<Line<T>>) {
    Data(Done) in lines
  }

  /** The scanner shows an error after the scan for the end marker. */
  ghost predicate ErrorSeen<T>(src: Source<T>) {
    src.failed && (!Finished(src.lines) || src.early)
  }

  lemma {:induction false} PayloadsSnoc<T>(lines: seq<Line<T>>, l: Line<T>)
    requires !Finished(lines)
    ensures Payloads(lines + [l]) ==
            Payloads(lines) + (if l.Data? && l.payload != Done then [l.payload] else [])
  {
    if lines == [] {
      assert Payloads([l][1..]) == [];
    } else {
      assert (lines + [l])[1..] == lines[1..] + [l];
      assert lines[0] in lines;
      PayloadsSnoc(lines[1..], l);
    }
  }

  lemma {:induction false} PayloadsCut<T>(lines: seq<Line<T>>, more: seq<Line<T>>)
    requires Finished(lines)
    ensures Payloads(lines + more) == Payloads(lines) && Finished(lines + more)
  {
    assert lines != [];
    assert (lines + more)[1..] == lines[1..] + more;
    if lines[0] != Data(Done) {
      assert lines == [lines[0]] + lines[1..];
      PayloadsCut(lines[1..], more);
    }
  }

  lemma {:induction false} PayloadsNoMarker<T>(lines: seq<Line<T>>)
    ensures Done !in Payloads(lines)
  {
    if lines != [] && lines[0] != Data(Done) {
      PayloadsNoMarker(lines[1..]);
    }
  }

  /** The lines `emit` writes for one event: the `event:` line, the `data:` line and a blank one. */
  function EventLines(es: seq<Event>): seq<Line<Event>> {
    if es == [] then [] else [Skipped, Data(Decoded(es[0])), Skipped] + EventLines(es[1..])
  }

  function AsPayloads(es: seq<Event>): seq<Payload<Event>> {
    seq(|es|, i requires 0 <= i < |es| => Decoded(es[i]))
  }

  lemma EmittedOne(e: Event, rest: seq<Line<Event>>)
    ensures Payloads([Skipped, Data(Decoded(e)), Skipped] + rest) == [Decoded(e)] + Payloads(rest)
    ensures Finished([Skipped, Data(Decoded(e)), Skipped] + rest) <==> Finished(rest)
  {
    var tail := [Skipped] + rest;
    var dated := [Data(Decoded(e))] + tail;
    ScanOne(Skipped, rest);
    ScanOne(Data(Decoded(e)), tail);
    ScanOne(Skipped, dated);
    hide Payloads, Finished;
    assert [Skipped, Data(Decoded(e)), Skipped] + rest == [Skipped] + dated;
  }

  lemma ScanOne(l: Line<Event>, rest: seq<Line<Event>>)
    requires l != Data(Done)
    ensures Payloads([l] + rest) == (if l.Data? then [l.payload] else []) + Payloads(rest)
    ensures Finished([l] + rest) <==> Finished(rest)
  {
    assert ([l] + rest)[1..] == rest;
  }

  /** Scanning what `emit` wrote gives back the events. */
  lemma {:induction false} EmittedLinesScan(es: seq<Event>)
    ensures Payloads(EventLines(es)) == AsPayloads(es) && !Finished(EventLines(es))
  {
    if es == [] {
    } else {
      EmittedLinesScan(es[1..]);
      EmittedOne(es[0], EventLines(es[1..]));
      hide Payloads, Finished;
      assert AsPayloads(es) == [Decoded(es[0])] + AsPayloads(es[1..]);
    }
  }

  // ----- shared arithmetic -----

  /** `EstimateTextTokens` on a text of n bytes: a quarter, rounded up. */
  function EstimateTokens(n: nat): (t: nat)
    ensures t == (n + 3) / 4
  {
    n / 4 + (if n % 4 > 0 then 1 else 0)
  }

  /** `StopFromFinish` on a present finish reason. */
  function StopFromFinish(f: string): string {
    if f == "length" then "max_tokens"
    else if f == "tool_calls" || f == "function_call" then "tool_use"
    else "end_turn"
  }
}
