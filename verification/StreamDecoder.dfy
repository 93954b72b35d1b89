/**
  The streaming reply of a chat provider: text arrives in reads of any size, is cut into lines, and
  each `data:` line may yield events (section 9.2 of the HTML Living Standard).

  `parse` stands for JSON.parse: `None` for text it rejects.
 */
module StreamDecoder {
  import opened Wrappers
  import Collections
  import Text

  /** `tool_calls`: left out, a list, or a value a loop cannot walk. */
  datatype ToolCalls = NoCalls | Calls(calls: seq<string>) | NotIterable

  /** Texts are empty when the field is missing or falsy. */
  datatype Delta = Delta(content: string, toolCalls: ToolCalls, thought: string)

  datatype Choice = Choice(delta: Delta, finishReason: string, thought: string)

  datatype Chunk = Chunk(choice: Option<Choice>, usage: Option<string>, thought: string)

  datatype Event =
    | Content(content: string)
    | ToolCallDelta(toolCall: string)
    | ToolCallExtra(thoughtSignature: string)
    | Finish(finishReason: string, usage: Option<string>)

  type Parser = string -> Option<Chunk>

  // ---------------------------------------------------------------- one line

  const PREFIX := "data:"

  /** The JSON text a line carries, if it carries any. */
  function Payload(line: string): Option<string>
  {
    var trimmed := Text.Trim(line);
    if !(PREFIX <= trimmed) then None
    else
      var payload := Text.Trim(trimmed[|PREFIX|..]);
      if payload == "[DONE]" then None else Some(payload)
  }

  /** The chunk a line carries, if it parses and has a choice. */
  function LineChunk(parse: Parser, line: string): Option<Chunk>
  {
    match Payload(line)
    case None => None
    case Some(payload) =>
      match parse(payload)
      case None => None
      case Some(chunk) => if chunk.choice.None? then None else Some(chunk)
  }

  function FirstTruthy(a: string, b: string, c: string): string
  {
    if a != "" then a else if b != "" then b else c
  }

  /** The usage carried on: a chunk's own, if it has one. */
  function CarryUsage(chunk: Chunk, usage: Option<string>): Option<string>
  {
    if chunk.usage.Some? then chunk.usage else usage
  }

  function CallEvents(calls: seq<string>): seq<Event>
  {
    seq(|calls|, i requires 0 <= i < |calls| => ToolCallDelta(calls[i]))
  }

  /** The events of one chunk; a `tool_calls` value that cannot be walked throws, and ends the line there. */
  function ChunkEvents(chunk: Chunk, usage: Option<string>): seq<Event>
    requires chunk.choice.Some?
  {
    var choice := chunk.choice.value;
    var content := if choice.delta.content != "" then [Content(choice.delta.content)] else [];
    if choice.delta.toolCalls.NotIterable? then content
    else
      var calls := if choice.delta.toolCalls.Calls? then CallEvents(choice.delta.toolCalls.calls) else [];
      var ts := FirstTruthy(choice.delta.thought, chunk.thought, choice.thought);
      var extra := if ts != "" then [ToolCallExtra(ts)] else [];
      var finish := if choice.finishReason != "" then [Finish(choice.finishReason, usage)] else [];
      content + calls + extra + finish
  }

  // ---------------------------------------------------------------- the whole text at once

  /** The usage carried past a line. */
  function NextUsage(parse: Parser, line: string, usage: Option<string>): Option<string>
  {
    match LineChunk(parse, line)
    case None => usage
    case Some(chunk) => CarryUsage(chunk, usage)
  }

  /** The events of one line, when `usage` is what is carried past it. */
  function OneLineEvents(parse: Parser, line: string, usage: Option<string>): seq<Event>
  {
    match LineChunk(parse, line)
    case None => []
    case Some(chunk) => ChunkEvents(chunk, usage)
  }

  /** The last usage reported by these lines. */
  function LastUsage(parse: Parser, lines: seq<string>): Option<string>
  {
    if lines == [] then None
    else NextUsage(parse, lines[|lines| - 1], LastUsage(parse, lines[..|lines| - 1]))
  }

  /** The events of complete lines; each line's finish event reports the last usage up to that line. */
  function LineEvents(parse: Parser, lines: seq<string>): seq<Event>
  {
    if lines == [] then []
    else LineEvents(parse, lines[..|lines| - 1]) + OneLineEvents(parse, lines[|lines| - 1], LastUsage(parse, lines))
  }

  /** The terminated lines of a text: all pieces but the last. */
  function CompleteLines(text: string): seq<string>
  {
    var pieces := Text.Split(text, '\n');
    pieces[..|pieces| - 1]
  }

  function Tail(text: string): string
  {
    var pieces := Text.Split(text, '\n');
    pieces[|pieces| - 1]
  }

  function Flatten(parts: seq<string>): string
  {
    if parts == [] then "" else Flatten(parts[..|parts| - 1]) + parts[|parts| - 1]
  }

  // ---------------------------------------------------------------- read by read

  /** After one more read, the complete lines grow by those the buffer and the read complete. */
  lemma ReadCompletes(text: string, read: string)
    ensures CompleteLines(text + read) == CompleteLines(text) + CompleteLines(Tail(text) + read)
    ensures Tail(text + read) == Tail(Tail(text) + read)
  {
    Text.SplitAppend(text, read, '\n');
  }

  lemma SnocLine(parse: Parser, lines: seq<string>, line: string)
    ensures LastUsage(parse, lines + [line]) == NextUsage(parse, line, LastUsage(parse, lines))
    ensures LineEvents(parse, lines + [line]) ==
            LineEvents(parse, lines) + OneLineEvents(parse, line, LastUsage(parse, lines + [line]))
  {
    assert (lines + [line])[..|lines|] == lines;
  }

  method YieldCalls(calls: seq<string>) returns (yielded: seq<Event>)
    ensures yielded == CallEvents(calls)
  {
    yielded := [];
    for i := 0 to |calls|
      invariant |yielded| == i
      invariant forall k :: 0 <= k < i ==> yielded[k] == ToolCallDelta(calls[k])
    {
      yielded := yielded + [ToolCallDelta(calls[i])];
    }
  }

  /** The yields of a chunk that has a choice. */
  method YieldChunk(chunk: Chunk, usage: Option<string>) returns (yielded: seq<Event>)
    requires chunk.choice.Some?
    ensures yielded == ChunkEvents(chunk, usage)
  {
    var choice := chunk.choice.value;
    yielded := [];
    if choice.delta.content != "" {
      yielded := [Content(choice.delta.content)];
    }
    var calls := [];
    match choice.delta.toolCalls {
      case NotIterable => return;
      case NoCalls =>
      case Calls(list) => calls := YieldCalls(list);
    }
    yielded := yielded + calls;
    var ts := FirstTruthy(choice.delta.thought, chunk.thought, choice.thought);
    yielded := yielded + if ts != "" then [ToolCallExtra(ts)] else [];
    yielded := yielded + if choice.finishReason != "" then [Finish(choice.finishReason, usage)] else [];
  }

  /** One line as the generator handles it: its events, and the usage carried on. */
  method HandleLine(parse: Parser, line: string, usage: Option<string>) returns (yielded: seq<Event>, carried: Option<string>)
    ensures carried == NextUsage(parse, line, usage)
    ensures yielded == OneLineEvents(parse, line, carried)
  {
    yielded, carried := [], usage;
    var trimmed := Text.Trim(line);
    if trimmed == "" || !(PREFIX <= trimmed) {
      return;
    }
    var payload := Text.Trim(trimmed[|PREFIX|..]);
    if payload == "[DONE]" {
      return;
    }
    match parse(payload) {
      case None => return;
      case Some(chunk) =>
        if chunk.choice.None? {
          return;
        }
        if chunk.usage.Some? {
          carried := chunk.usage;
        }
        yielded := YieldChunk(chunk, carried);
    }
  }

  /** The lines of one read, in order. */
  method HandleLines(parse: Parser, ghost earlier: seq<string>, lines: seq<string>, usage: Option<string>)
    returns (yielded: seq<Event>, carried: Option<string>)
    requires usage == LastUsage(parse, earlier)
    ensures carried == LastUsage(parse, earlier + lines)
    ensures LineEvents(parse, earlier) + yielded == LineEvents(parse, earlier + lines)
  {
    yielded, carried := [], usage;
    ghost var seen := earlier;
    for k := 0 to |lines|
      invariant seen == earlier + lines[..k]
      invariant carried == LastUsage(parse, seen)
      invariant LineEvents(parse, earlier) + yielded == LineEvents(parse, seen)
    {
      SnocLine(parse, seen, lines[k]);
      Collections.TakeNext(lines, k);
      Collections.Assoc(earlier, lines[..k], [lines[k]]);
      seen := seen + [lines[k]];
      var events;
      events, carried := HandleLine(parse, lines[k], carried);
      Collections.Assoc(LineEvents(parse, earlier), yielded, events);
      yielded := yielded + events;
    }
    assert lines[..|lines|] == lines;
  }

  /**
    The read loop: buffer the text, handle the lines it completes, keep the unterminated rest.
    Whatever the reads, the events and the final usage are those of the whole text's complete lines.
   */
  method CallChatCompletionStream(parse: Parser, parts: seq<string>) returns (events: seq<Event>, finalUsage: Option<string>)
    ensures events == LineEvents(parse, CompleteLines(Flatten(parts)))
    ensures finalUsage == LastUsage(parse, CompleteLines(Flatten(parts)))
  {
    var buffer := "";
    events, finalUsage := [], None;
    var next := 0;
    ghost var text := "";
    while next < |parts|
      invariant 0 <= next <= |parts|
      invariant text == Flatten(parts[..next])
      invariant buffer == Tail(text)
      invariant events == LineEvents(parse, CompleteLines(text))
      invariant finalUsage == LastUsage(parse, CompleteLines(text))
    {
      var lines := Text.Split(buffer + parts[next], '\n');
      ReadCompletes(text, parts[next]);
      buffer := lines[|lines| - 1];
      var yielded;
      yielded, finalUsage := HandleLines(parse, CompleteLines(text), lines[..|lines| - 1], finalUsage);
      events := events + yielded;
      assert parts[..next + 1][..next] == parts[..next];
      text := text + parts[next];
      next := next + 1;
    }
    assert parts[..|parts|] == parts;
  }

  // ---------------------------------------------------------------- consequences

  /** A tail without its newline yields nothing. */
  lemma UnterminatedTailIsDropped(parse: Parser, text: string, tail: string)
    requires '\n' !in tail && Tail(text) == ""
    ensures LineEvents(parse, CompleteLines(text + tail)) == LineEvents(parse, CompleteLines(text))
  {
    ReadCompletes(text, tail);
    assert "" + tail == tail;
    Text.SplitUnbroken(tail, '\n');
    assert CompleteLines(text) + [] == CompleteLines(text);
  }

  lemma {:induction false} IgnoredLine(parse: Parser, before: seq<string>, line: string, after: seq<string>)
    requires LineChunk(parse, line).None?
    ensures LineEvents(parse, before + [line] + after) == LineEvents(parse, before + after)
    ensures LastUsage(parse, before + [line] + after) == LastUsage(parse, before + after)
    decreases |after|
  {
    if after == [] {
      assert before + [line] + after == before + [line];
      assert before + after == before;
      SnocLine(parse, before, line);
      assert LineEvents(parse, before) + [] == LineEvents(parse, before);
    } else {
      var rest, last := after[..|after| - 1], after[|after| - 1];
      Collections.FrontLast(after);
      IgnoredLine(parse, before, line, rest);
      Collections.Assoc(before + [line], rest, [last]);
      Collections.Assoc(before, rest, [last]);
      SnocLine(parse, before + [line] + rest, last);
      SnocLine(parse, before + rest, last);
    }
  }

  /**
    A chunk without a choice, such as one that carries only the usage, is passed over: it yields no
    event and its usage reaches no later event.
   */
  lemma ChoicelessChunkIsIgnored(parse: Parser, before: seq<string>, line: string, after: seq<string>)
    requires Payload(line).Some? && parse(Payload(line).value).Some? && parse(Payload(line).value).value.choice.None?
    ensures LineEvents(parse, before + [line] + after) == LineEvents(parse, before + after)
    ensures LastUsage(parse, before + [line] + after) == LastUsage(parse, before + after)
  {
    IgnoredLine(parse, before, line, after);
  }
}
