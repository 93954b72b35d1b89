/**
  What the decoder yields, told by what the provider sent: which lines carry a chunk, and how each kind of
  event follows from the chunks of the whole stream.
 */
module StreamMeaning {
  import opened Wrappers
  import opened StreamDecoder
  import Collections
  import Text

  // ---------------------------------------------------------------- which lines carry a chunk

  /** Spaces, tabs and carriage returns only. */
  predicate Blank(s: string)
  {
    forall i :: 0 <= i < |s| ==> s[i] == ' ' || s[i] == '\t' || s[i] == '\r'
  }

  lemma {:induction false} TrimStartSkips(blank: string, s: string)
    requires Blank(blank) && s != "" && !Text.IsSpace(s[0])
    ensures Text.TrimStart(blank + s) == s
  {
    if blank == "" {
      assert blank + s == s;
    } else {
      assert (blank + s)[1..] == blank[1..] + s;
      assert (blank + s)[0] == blank[0];
      TrimStartSkips(blank[1..], s);
    }
  }

  lemma {:induction false} TrimEndSkips(s: string, blank: string)
    requires Blank(blank) && s != "" && !Text.IsSpace(s[|s| - 1])
    ensures Text.TrimEnd(s + blank) == s
  {
    if blank == "" {
      assert s + blank == s;
    } else {
      var front := blank[..|blank| - 1];
      assert (s + blank)[..|s + blank| - 1] == s + front;
      assert (s + blank)[|s + blank| - 1] == blank[|blank| - 1];
      TrimEndSkips(s, front);
    }
  }

  lemma TrimSkips(before: string, s: string, after: string)
    requires Blank(before) && Blank(after) && s != "" && !Text.IsSpace(s[0]) && !Text.IsSpace(s[|s| - 1])
    ensures Text.Trim(before + s + after) == s
  {
    assert (s + after)[0] == s[0];
    assert before + s + after == before + (s + after);
    TrimStartSkips(before, s + after);
    TrimEndSkips(s, after);
  }

  /** The text of a JSON object. */
  predicate IsObject(p: string)
  {
    |p| >= 2 && p[0] == '{' && p[|p| - 1] == '}'
  }

  /** A `data:` line carries its object, whatever the blanks around it: a line ended by a carriage return, too. */
  lemma DataLine(before: string, between: string, p: string, after: string)
    requires Blank(before) && Blank(between) && Blank(after) && IsObject(p)
    ensures Payload(before + ("data:" + between + p) + after) == Some(p)
  {
    var line := "data:" + between + p;
    assert line[0] == 'd' && line[|line| - 1] == '}';
    TrimSkips(before, line, after);
    assert line[..5] == "data:" && line[5..] == between + p;
    assert between + p + "" == between + p;
    TrimSkips(between, p, "");
    assert p != "[DONE]";
  }

  /** The end marker carries none. */
  lemma DoneLine(before: string, between: string, after: string)
    requires Blank(before) && Blank(between) && Blank(after)
    ensures Payload(before + ("data:" + between + "[DONE]") + after) == None
  {
    var line := "data:" + between + "[DONE]";
    assert line[0] == 'd' && line[|line| - 1] == ']';
    TrimSkips(before, line, after);
    assert line[..5] == "data:" && line[5..] == between + "[DONE]";
    assert between + "[DONE]" + "" == between + "[DONE]";
    TrimSkips(between, "[DONE]", "");
  }

  lemma {:induction false} TrimEndKeepsFirst(s: string)
    requires s != "" && !Text.IsSpace(s[0])
    ensures Text.TrimEnd(s) != "" && Text.TrimEnd(s)[0] == s[0]
  {
    if Text.IsSpace(s[|s| - 1]) {
      TrimEndKeepsFirst(s[..|s| - 1]);
    }
  }

  /** A line whose first character is neither blank nor a `d`, a comment say, carries none. */
  lemma OtherLine(line: string)
    requires line != "" && !Text.IsSpace(line[0]) && line[0] != 'd'
    ensures Payload(line) == None
  {
    TrimEndKeepsFirst(line);
    assert Text.TrimStart(line) == line;
  }

  // ---------------------------------------------------------------- projections

  function Contents(events: seq<Event>): seq<string>
  {
    if events == [] then []
    else
      var e := events[|events| - 1];
      Contents(events[..|events| - 1]) + if e.Content? then [e.content] else []
  }

  function ToolCallsIn(events: seq<Event>): seq<string>
  {
    if events == [] then []
    else
      var e := events[|events| - 1];
      ToolCallsIn(events[..|events| - 1]) + if e.ToolCallDelta? then [e.toolCall] else []
  }

  function Signatures(events: seq<Event>): seq<string>
  {
    if events == [] then []
    else
      var e := events[|events| - 1];
      Signatures(events[..|events| - 1]) + if e.ToolCallExtra? then [e.thoughtSignature] else []
  }

  function Finishes(events: seq<Event>): seq<(string, Option<string>)>
  {
    if events == [] then []
    else
      var e := events[|events| - 1];
      Finishes(events[..|events| - 1]) + if e.Finish? then [(e.finishReason, e.usage)] else []
  }

  lemma {:induction false} ContentsAppend(a: seq<Event>, b: seq<Event>)
    ensures Contents(a + b) == Contents(a) + Contents(b)
  {
    if b == [] {
      assert a + b == a;
    } else {
      assert (a + b)[..|a + b| - 1] == a + b[..|b| - 1];
      ContentsAppend(a, b[..|b| - 1]);
    }
  }

  lemma {:induction false} ToolCallsAppend(a: seq<Event>, b: seq<Event>)
    ensures ToolCallsIn(a + b) == ToolCallsIn(a) + ToolCallsIn(b)
  {
    if b == [] {
      assert a + b == a;
    } else {
      assert (a + b)[..|a + b| - 1] == a + b[..|b| - 1];
      ToolCallsAppend(a, b[..|b| - 1]);
    }
  }

  lemma {:induction false} SignaturesAppend(a: seq<Event>, b: seq<Event>)
    ensures Signatures(a + b) == Signatures(a) + Signatures(b)
  {
    if b == [] {
      assert a + b == a;
    } else {
      assert (a + b)[..|a + b| - 1] == a + b[..|b| - 1];
      SignaturesAppend(a, b[..|b| - 1]);
    }
  }

  lemma {:induction false} FinishesAppend(a: seq<Event>, b: seq<Event>)
    ensures Finishes(a + b) == Finishes(a) + Finishes(b)
  {
    if b == [] {
      assert a + b == a;
    } else {
      assert (a + b)[..|a + b| - 1] == a + b[..|b| - 1];
      FinishesAppend(a, b[..|b| - 1]);
    }
  }

  lemma ProjectAppend(a: seq<Event>, b: seq<Event>)
    ensures Contents(a + b) == Contents(a) + Contents(b)
    ensures ToolCallsIn(a + b) == ToolCallsIn(a) + ToolCallsIn(b)
    ensures Signatures(a + b) == Signatures(a) + Signatures(b)
    ensures Finishes(a + b) == Finishes(a) + Finishes(b)
  {
    ContentsAppend(a, b);
    ToolCallsAppend(a, b);
    SignaturesAppend(a, b);
    FinishesAppend(a, b);
  }

  lemma ProjectOne(e: Event)
    ensures Contents([e]) == if e.Content? then [e.content] else []
    ensures ToolCallsIn([e]) == if e.ToolCallDelta? then [e.toolCall] else []
    ensures Signatures([e]) == if e.ToolCallExtra? then [e.thoughtSignature] else []
    ensures Finishes([e]) == if e.Finish? then [(e.finishReason, e.usage)] else []
  {
    assert [e][..0] == [];
  }

  lemma {:induction false} ProjectCalls(calls: seq<string>)
    ensures ToolCallsIn(CallEvents(calls)) == calls
    ensures Contents(CallEvents(calls)) == [] && Signatures(CallEvents(calls)) == [] && Finishes(CallEvents(calls)) == []
  {
    if calls != [] {
      var front := calls[..|calls| - 1];
      assert CallEvents(calls)[..|calls| - 1] == CallEvents(front);
      ProjectCalls(front);
      Collections.FrontLast(calls);
    }
  }

  // ---------------------------------------------------------------- one chunk

  /** A `tool_calls` value that cannot be walked ends the chunk there: its text is out, nothing else follows. */
  predicate Walkable(chunk: Chunk)
    requires chunk.choice.Some?
  {
    !chunk.choice.value.delta.toolCalls.NotIterable?
  }

  function TextOf(chunk: Chunk): seq<string>
    requires chunk.choice.Some?
  {
    var text := chunk.choice.value.delta.content;
    if text == "" then [] else [text]
  }

  function CallsOf(chunk: Chunk): seq<string>
    requires chunk.choice.Some?
  {
    var calls := chunk.choice.value.delta.toolCalls;
    if calls.Calls? then calls.calls else []
  }

  /** The delta's own signature, or else the chunk's, or else the choice's. */
  function SignatureOf(chunk: Chunk): seq<string>
    requires chunk.choice.Some?
  {
    if !Walkable(chunk) then []
    else if chunk.choice.value.delta.thought != "" then [chunk.choice.value.delta.thought]
    else if chunk.thought != "" then [chunk.thought]
    else if chunk.choice.value.thought != "" then [chunk.choice.value.thought]
    else []
  }

  function FinishOf(chunk: Chunk, usage: Option<string>): seq<(string, Option<string>)>
    requires chunk.choice.Some?
  {
    var reason := chunk.choice.value.finishReason;
    if Walkable(chunk) && reason != "" then [(reason, usage)] else []
  }

  function TextEvents(text: string): seq<Event>
  {
    if text != "" then [Content(text)] else []
  }

  function SignatureEvents(ts: string): seq<Event>
  {
    if ts != "" then [ToolCallExtra(ts)] else []
  }

  function FinishEvents(reason: string, usage: Option<string>): seq<Event>
  {
    if reason != "" then [Finish(reason, usage)] else []
  }

  lemma TextPiece(text: string)
    ensures var piece := TextEvents(text);
            && Contents(piece) == (if text == "" then [] else [text])
            && ToolCallsIn(piece) == [] && Signatures(piece) == [] && Finishes(piece) == []
  {
    ProjectOne(Content(text));
  }

  lemma SignaturePiece(ts: string)
    ensures var piece := SignatureEvents(ts);
            && Signatures(piece) == (if ts == "" then [] else [ts])
            && Contents(piece) == [] && ToolCallsIn(piece) == [] && Finishes(piece) == []
  {
    ProjectOne(ToolCallExtra(ts));
  }

  lemma FinishPiece(reason: string, usage: Option<string>)
    ensures var piece := FinishEvents(reason, usage);
            && Finishes(piece) == (if reason == "" then [] else [(reason, usage)])
            && Contents(piece) == [] && ToolCallsIn(piece) == [] && Signatures(piece) == []
  {
    ProjectOne(Finish(reason, usage));
  }

  lemma FourPieces(a: seq<Event>, b: seq<Event>, c: seq<Event>, d: seq<Event>)
    ensures Contents(a + b + c + d) == Contents(a) + Contents(b) + Contents(c) + Contents(d)
    ensures ToolCallsIn(a + b + c + d) == ToolCallsIn(a) + ToolCallsIn(b) + ToolCallsIn(c) + ToolCallsIn(d)
    ensures Signatures(a + b + c + d) == Signatures(a) + Signatures(b) + Signatures(c) + Signatures(d)
    ensures Finishes(a + b + c + d) == Finishes(a) + Finishes(b) + Finishes(c) + Finishes(d)
  {
    ProjectAppend(a, b);
    ProjectAppend(a + b, c);
    ProjectAppend(a + b + c, d);
  }

  lemma OneOfFour<T>(s: seq<T>)
    ensures s + [] + [] + [] == s && [] + s + [] + [] == s && [] + [] + s + [] == s && [] + [] + [] + s == s
  {
  }

  /** Each kind of event comes from one of the four pieces. */
  lemma PiecesProject(text: string, calls: seq<string>, ts: string, reason: string, usage: Option<string>, events: seq<Event>)
    requires events == TextEvents(text) + CallEvents(calls) + SignatureEvents(ts) + FinishEvents(reason, usage)
    ensures Contents(events) == if text == "" then [] else [text]
    ensures ToolCallsIn(events) == calls
    ensures Signatures(events) == if ts == "" then [] else [ts]
    ensures Finishes(events) == if reason == "" then [] else [(reason, usage)]
  {
    TextPiece(text);
    ProjectCalls(calls);
    SignaturePiece(ts);
    FinishPiece(reason, usage);
    FourPieces(TextEvents(text), CallEvents(calls), SignatureEvents(ts), FinishEvents(reason, usage));
    OneOfFour(if text == "" then [] else [text]);
    OneOfFour(calls);
    OneOfFour(if ts == "" then [] else [ts]);
    OneOfFour(if reason == "" then [] else [(reason, usage)]);
  }

  lemma ChunkPieces(chunk: Chunk, usage: Option<string>)
    requires chunk.choice.Some?
    ensures var choice := chunk.choice.value;
            ChunkEvents(chunk, usage) ==
              if Walkable(chunk)
              then TextEvents(choice.delta.content) + CallEvents(CallsOf(chunk)) +
                   SignatureEvents(FirstTruthy(choice.delta.thought, chunk.thought, choice.thought)) +
                   FinishEvents(choice.finishReason, usage)
              else TextEvents(choice.delta.content)
  {
    assert CallEvents([]) == [];
  }

  /** These events are, kind by kind, what the chunk holds. */
  ghost predicate Projects(events: seq<Event>, chunk: Chunk, usage: Option<string>)
    requires chunk.choice.Some?
  {
    && Contents(events) == TextOf(chunk) && ToolCallsIn(events) == CallsOf(chunk)
    && Signatures(events) == SignatureOf(chunk) && Finishes(events) == FinishOf(chunk, usage)
  }

  lemma SignatureIsFirst(chunk: Chunk)
    requires chunk.choice.Some? && Walkable(chunk)
    ensures var choice := chunk.choice.value;
            var ts := FirstTruthy(choice.delta.thought, chunk.thought, choice.thought);
            SignatureOf(chunk) == if ts == "" then [] else [ts]
  {
  }

  lemma PiecesAreProjected(chunk: Chunk, usage: Option<string>, events: seq<Event>)
    requires chunk.choice.Some? && Walkable(chunk)
    requires var choice := chunk.choice.value;
             events == TextEvents(choice.delta.content) + CallEvents(CallsOf(chunk)) +
                       SignatureEvents(FirstTruthy(choice.delta.thought, chunk.thought, choice.thought)) +
                       FinishEvents(choice.finishReason, usage)
    ensures Projects(events, chunk, usage)
  {
    var choice := chunk.choice.value;
    SignatureIsFirst(chunk);
    PiecesProject(choice.delta.content, CallsOf(chunk), FirstTruthy(choice.delta.thought, chunk.thought, choice.thought),
                  choice.finishReason, usage, events);
  }

  lemma TextIsProjected(chunk: Chunk, usage: Option<string>, events: seq<Event>)
    requires chunk.choice.Some? && !Walkable(chunk) && events == TextEvents(chunk.choice.value.delta.content)
    ensures Projects(events, chunk, usage)
  {
    TextPiece(chunk.choice.value.delta.content);
  }

  /** What one chunk yields, kind by kind. */
  lemma ChunkProjections(chunk: Chunk, usage: Option<string>)
    requires chunk.choice.Some?
    ensures Projects(ChunkEvents(chunk, usage), chunk, usage)
  {
    ChunkPieces(chunk, usage);
    if Walkable(chunk) {
      PiecesAreProjected(chunk, usage, ChunkEvents(chunk, usage));
    } else {
      TextIsProjected(chunk, usage, ChunkEvents(chunk, usage));
    }
  }

  /** Text, then tool calls, then the signature, then the finish. */
  function Place(e: Event): nat
  {
    match e
    case Content(_) => 0
    case ToolCallDelta(_) => 1
    case ToolCallExtra(_) => 2
    case Finish(_, _) => 3
  }

  /** Within a chunk the kinds come in that order. */
  lemma ChunkOrder(chunk: Chunk, usage: Option<string>)
    requires chunk.choice.Some?
    ensures forall i, j :: 0 <= i < j < |ChunkEvents(chunk, usage)| ==>
              Place(ChunkEvents(chunk, usage)[i]) <= Place(ChunkEvents(chunk, usage)[j])
  {
  }

  // ---------------------------------------------------------------- the whole stream

  /** Every chunk has a choice. */
  predicate Chosen(chunks: seq<Chunk>)
  {
    forall i :: 0 <= i < |chunks| ==> chunks[i].choice.Some?
  }

  /** The chunks with a choice, in order. */
  function Chunks(parse: Parser, lines: seq<string>): (chunks: seq<Chunk>)
    ensures Chosen(chunks)
  {
    if lines == [] then []
    else
      var chunk := LineChunk(parse, lines[|lines| - 1]);
      Chunks(parse, lines[..|lines| - 1]) + if chunk.Some? then [chunk.value] else []
  }

  function Texts(chunks: seq<Chunk>): seq<string>
    requires Chosen(chunks)
  {
    if chunks == [] then [] else Texts(chunks[..|chunks| - 1]) + TextOf(chunks[|chunks| - 1])
  }

  function AllCalls(chunks: seq<Chunk>): seq<string>
    requires Chosen(chunks)
  {
    if chunks == [] then [] else AllCalls(chunks[..|chunks| - 1]) + CallsOf(chunks[|chunks| - 1])
  }

  function AllSignatures(chunks: seq<Chunk>): seq<string>
    requires Chosen(chunks)
  {
    if chunks == [] then [] else AllSignatures(chunks[..|chunks| - 1]) + SignatureOf(chunks[|chunks| - 1])
  }

  /** The latest usage these chunks report. */
  function LatestUsage(chunks: seq<Chunk>): Option<string>
  {
    if chunks == [] then None
    else if chunks[|chunks| - 1].usage.Some? then chunks[|chunks| - 1].usage
    else LatestUsage(chunks[..|chunks| - 1])
  }

  function AllFinishes(chunks: seq<Chunk>): seq<(string, Option<string>)>
    requires Chosen(chunks)
  {
    if chunks == [] then []
    else AllFinishes(chunks[..|chunks| - 1]) + FinishOf(chunks[|chunks| - 1], LatestUsage(chunks))
  }

  lemma {:induction false} UsageOfStream(parse: Parser, lines: seq<string>)
    ensures LastUsage(parse, lines) == LatestUsage(Chunks(parse, lines))
  {
    if lines != [] {
      var front, chunk := lines[..|lines| - 1], LineChunk(parse, lines[|lines| - 1]);
      UsageOfStream(parse, front);
      if chunk.Some? {
        assert Chunks(parse, lines)[..|Chunks(parse, lines)| - 1] == Chunks(parse, front);
      } else {
        assert Chunks(parse, lines) == Chunks(parse, front);
      }
    }
  }

  lemma TotalsSnoc(chunks: seq<Chunk>, chunk: Chunk)
    requires Chosen(chunks) && chunk.choice.Some?
    ensures Chosen(chunks + [chunk])
    ensures Texts(chunks + [chunk]) == Texts(chunks) + TextOf(chunk)
    ensures AllCalls(chunks + [chunk]) == AllCalls(chunks) + CallsOf(chunk)
    ensures AllSignatures(chunks + [chunk]) == AllSignatures(chunks) + SignatureOf(chunk)
    ensures AllFinishes(chunks + [chunk]) == AllFinishes(chunks) + FinishOf(chunk, LatestUsage(chunks + [chunk]))
  {
    assert (chunks + [chunk])[..|chunks|] == chunks;
  }

  /**
    The events of the whole stream, kind by kind and in order: the non-empty texts of its chunks, their
    tool calls, their signatures, and a finish for each reason, with the latest usage reported by then.
   */
  lemma {:induction false} StreamProjections(parse: Parser, lines: seq<string>)
    ensures Contents(LineEvents(parse, lines)) == Texts(Chunks(parse, lines))
    ensures ToolCallsIn(LineEvents(parse, lines)) == AllCalls(Chunks(parse, lines))
    ensures Signatures(LineEvents(parse, lines)) == AllSignatures(Chunks(parse, lines))
    ensures Finishes(LineEvents(parse, lines)) == AllFinishes(Chunks(parse, lines))
  {
    if lines != [] {
      var front, line := lines[..|lines| - 1], lines[|lines| - 1];
      StreamProjections(parse, front);
      UsageOfStream(parse, lines);
      ProjectAppend(LineEvents(parse, front), OneLineEvents(parse, line, LastUsage(parse, lines)));
      if LineChunk(parse, line).Some? {
        var chunk := LineChunk(parse, line).value;
        ChunkProjections(chunk, LastUsage(parse, lines));
        TotalsSnoc(Chunks(parse, front), chunk);
      } else {
        assert Chunks(parse, lines) == Chunks(parse, front);
      }
    }
  }

  /** The usage reported at some point is that of the last chunk so far that has one. */
  lemma {:induction false} UsageIsLatest(chunks: seq<Chunk>, usage: string)
    ensures LatestUsage(chunks) == Some(usage) <==>
            exists i :: 0 <= i < |chunks| && chunks[i].usage == Some(usage) && forall k :: i < k < |chunks| ==> chunks[k].usage == None
  {
    if chunks != [] {
      var front, last := chunks[..|chunks| - 1], |chunks| - 1;
      UsageIsLatest(front, usage);
      if chunks[last].usage.None? {
        if LatestUsage(front) == Some(usage) {
          var i :| 0 <= i < |front| && front[i].usage == Some(usage) && forall k :: i < k < |front| ==> front[k].usage == None;
          assert chunks[i].usage == Some(usage) && forall k :: i < k < |chunks| ==> chunks[k].usage == None;
        }
        if i :| 0 <= i < |chunks| && chunks[i].usage == Some(usage) && forall k :: i < k < |chunks| ==> chunks[k].usage == None {
          assert front[i].usage == Some(usage) && forall k :: i < k < |front| ==> front[k].usage == None;
        }
      } else if chunks[last].usage == Some(usage) {
        assert chunks[last].usage == Some(usage);
      }
    }
  }

  // ---------------------------------------------------------------- from the wire to the events

  function DataLines(objects: seq<string>): seq<string>
  {
    seq(|objects|, i requires 0 <= i < |objects| => "data: " + objects[i])
  }

  /** A provider's stream: one `data:` line an object, each followed by an empty line. */
  function Wire(objects: seq<string>): string
  {
    if objects == [] then "" else Wire(objects[..|objects| - 1]) + ("data: " + objects[|objects| - 1] + "\n") + "\n"
  }

  lemma OneLine(text: string, line: string)
    requires Tail(text) == "" && '\n' !in line
    ensures CompleteLines(text + (line + "\n")) == CompleteLines(text) + [line] && Tail(text + (line + "\n")) == ""
  {
    ReadCompletes(text, line + "\n");
    assert "" + (line + "\n") == line + ['\n'];
    Text.SplitUnbroken(line, '\n');
    Text.SplitSnoc(line, '\n', '\n');
    assert Text.Split(line + ['\n'], '\n') == [line, ""];
  }

  /** Each object parses to a chunk with a choice. */
  ghost predicate AllParse(parse: Parser, objects: seq<string>, chunks: seq<Chunk>)
  {
    && |objects| == |chunks| && Chosen(chunks)
    && forall i :: 0 <= i < |objects| ==> IsObject(objects[i]) && '\n' !in objects[i] && parse(objects[i]) == Some(chunks[i])
  }

  lemma ObjectLine(parse: Parser, json: string, chunk: Chunk)
    requires IsObject(json) && parse(json) == Some(chunk) && chunk.choice.Some?
    ensures LineChunk(parse, "data: " + json) == Some(chunk)
    ensures LineChunk(parse, "") == None
  {
    DataLine("", " ", json, "");
    assert "" + ("data:" + " " + json) + "" == "data: " + json;
  }

  lemma ChunksSnoc(parse: Parser, lines: seq<string>, line: string)
    ensures Chunks(parse, lines + [line]) ==
            Chunks(parse, lines) + if LineChunk(parse, line).Some? then [LineChunk(parse, line).value] else []
  {
    assert (lines + [line])[..|lines|] == lines;
  }

  /** The chunks that are decoded are the ones that were sent, each once and in order. */
  lemma {:induction false} WireDecodes(parse: Parser, objects: seq<string>, chunks: seq<Chunk>)
    requires AllParse(parse, objects, chunks)
    ensures Chunks(parse, CompleteLines(Wire(objects))) == chunks && Tail(Wire(objects)) == ""
  {
    if objects == [] {
      assert Text.Split("", '\n') == [""];
    } else {
      var n := |objects| - 1;
      var text, line := Wire(objects[..n]), "data: " + objects[n];
      WireDecodes(parse, objects[..n], chunks[..n]);
      ObjectLine(parse, objects[n], chunks[n]);
      OneLine(text, line);
      OneLine(text + (line + "\n"), "");
      assert "" + "\n" == "\n";
      ChunksSnoc(parse, CompleteLines(text), line);
      ChunksSnoc(parse, CompleteLines(text) + [line], "");
      Collections.FrontLast(chunks);
    }
  }

  /** However the sent text is cut into reads, the texts that come out are the ones that went in; so for tool calls, signatures and finishes. */
  lemma WireToEvents(parse: Parser, objects: seq<string>, chunks: seq<Chunk>, parts: seq<string>)
    requires AllParse(parse, objects, chunks) && Flatten(parts) == Wire(objects)
    ensures var events := LineEvents(parse, CompleteLines(Flatten(parts)));
            && Contents(events) == Texts(chunks) && ToolCallsIn(events) == AllCalls(chunks)
            && Signatures(events) == AllSignatures(chunks) && Finishes(events) == AllFinishes(chunks)
    ensures LastUsage(parse, CompleteLines(Flatten(parts))) == LatestUsage(chunks)
  {
    WireDecodes(parse, objects, chunks);
    StreamProjections(parse, CompleteLines(Wire(objects)));
    UsageOfStream(parse, CompleteLines(Wire(objects)));
  }
}
