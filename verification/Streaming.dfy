/** The runner's output loop: chunked line parsing under a byte budget. */
module Streaming {
  import opened Wrappers
  import opened Text

  const STDERR_WINDOW := 16_384

  datatype Usage = Usage(inputTokens: Option<int>, cachedInputTokens: Option<int>, outputTokens: Option<int>)

  /** What a line decodes to. `detail` is the text an error event carries, if any. */
  datatype Event =
    | ThreadStarted(threadId: string)
    | AgentMessage(text: string)
    | TurnCompleted(usage: Usage)
    | ErrorEvent(detail: Option<string>)
    | OtherEvent

  /** The JSON decoder: None for a line that is no JSON. */
  type Decoder = string -> Option<Event>

  datatype ParsedEvents = ParsedEvents(messages: seq<string>, threadId: Option<string>, usage: Option<Usage>,
                                       errors: seq<string>)

  function ParseLine(decode: Decoder, line: string, parsed: ParsedEvents): ParsedEvents {
    var event := decode(line);
    if event.None? then parsed
    else
      match event.value
      case ThreadStarted(id) => parsed.(threadId := Some(id))
      case AgentMessage(text) => parsed.(messages := parsed.messages + [text])
      case TurnCompleted(usage) => parsed.(usage := Some(usage))
      case ErrorEvent(detail) =>
        parsed.(errors := parsed.errors + [if detail.Some? then detail.value else "Codex reported an unknown error"])
      case OtherEvent => parsed
  }

  function ParseLines(decode: Decoder, lines: seq<string>, parsed: ParsedEvents): ParsedEvents {
    if lines == [] then parsed else ParseLines(decode, lines[1..], ParseLine(decode, lines[0], parsed))
  }

  // ----- Lines

  function DropReturn(line: string): string {
    if line != "" && line[|line| - 1] == '\r' then line[..|line| - 1] else line
  }

  /** `text.split(/\r?\n/)`: at each line feed, with the carriage return before it if there is one. */
  function Lines(text: string): (lines: seq<string>)
    ensures lines != []
    decreases |text|
  {
    var i := IndexOf(text, '\n');
    if i < 0 then [text] else [DropReturn(text[..i])] + Lines(text[i + 1..])
  }

  function Complete(text: string): seq<string> {
    var lines := Lines(text);
    lines[..|lines| - 1]
  }

  function Rest(text: string): string {
    var lines := Lines(text);
    lines[|lines| - 1]
  }

  /** Lines put together again; `returns` says which of the breaks have a carriage return before the line feed. */
  function Unlines(lines: seq<string>, withReturn: seq<bool>): string
    requires |lines| == |withReturn| + 1
  {
    if withReturn == [] then lines[0]
    else lines[0] + (if withReturn[0] then "\r\n" else "\n") + Unlines(lines[1..], withReturn[1..])
  }

  /** The lines are what lies between the line feeds, less one carriage return before each. */
  lemma {:induction false} LinesAreBetweenBreaks(text: string) returns (withReturn: seq<bool>)
    ensures |Lines(text)| == |withReturn| + 1 && Unlines(Lines(text), withReturn) == text
    ensures forall line | line in Lines(text) :: '\n' !in line
    ensures forall i | 0 <= i < |withReturn| && !withReturn[i] && Lines(text)[i] != "" ::
        Lines(text)[i][|Lines(text)[i]| - 1] != '\r'
    decreases |text|
  {
    hide Lines, DropReturn, Unlines, IndexOf;
    var i := IndexOf(text, '\n');
    LinesUnfold(text);
    if i < 0 {
      withReturn := [];
      OneLine(text);
    } else {
      var tail := text[i + 1..];
      var more := LinesAreBetweenBreaks(tail);
      var returned := i > 0 && text[i - 1] == '\r';
      withReturn := [returned] + more;
      BreakInFront(text, i, Lines(tail), more);
    }
  }

  lemma LinesUnfold(text: string)
    ensures var i := IndexOf(text, '\n');
      Lines(text) == if i < 0 then [text] else [DropReturn(text[..i])] + Lines(text[i + 1..])
  {
  }

  lemma OneLine(text: string)
    ensures Unlines([text], []) == text
  {
  }

  lemma BreakInFront(text: string, i: nat, lines: seq<string>, more: seq<bool>)
    requires i < |text| && text[i] == '\n' && '\n' !in text[..i]
    requires |lines| == |more| + 1 && Unlines(lines, more) == text[i + 1..]
    requires forall line | line in lines :: '\n' !in line
    requires forall k | 0 <= k < |more| && !more[k] && lines[k] != "" :: lines[k][|lines[k]| - 1] != '\r'
    ensures var all, withReturn := [DropReturn(text[..i])] + lines, [i > 0 && text[i - 1] == '\r'] + more;
      && Unlines(all, withReturn) == text
      && (forall line | line in all :: '\n' !in line)
      && (forall k | 0 <= k < |withReturn| && !withReturn[k] && all[k] != "" :: all[k][|all[k]| - 1] != '\r')
  {
    var returned := i > 0 && text[i - 1] == '\r';
    var all, withReturn := [DropReturn(text[..i])] + lines, [returned] + more;
    assert all[1..] == lines && withReturn[1..] == more;
    ReturnIsPutBack(text[..i]);
    CutAt(text, i, '\n');
    assert Unlines(all, withReturn) == DropReturn(text[..i]) + (if returned then "\r\n" else "\n") + text[i + 1..];
    hide Unlines;
    forall k | 0 <= k < |withReturn| && !withReturn[k] && all[k] != ""
      ensures all[k][|all[k]| - 1] != '\r'
    {
      if k > 0 {
        assert all[k] == lines[k - 1] && withReturn[k] == more[k - 1];
      }
    }
  }

  lemma ReturnIsPutBack(line: string)
    ensures var returned := line != "" && line[|line| - 1] == '\r';
      DropReturn(line) + (if returned then "\r\n" else "\n") == line + "\n"
  {
    if line != "" && line[|line| - 1] == '\r' {
      assert line == line[..|line| - 1] + "\r";
    }
  }

  lemma LinesStep(text: string)
    ensures var i := IndexOf(text, '\n');
      if i < 0 then Complete(text) == [] && Rest(text) == text
      else Complete(text) == [DropReturn(text[..i])] + Complete(text[i + 1..]) && Rest(text) == Rest(text[i + 1..])
  {
    hide IndexOf, DropReturn;
    var i := IndexOf(text, '\n');
    if i >= 0 {
      PrependLine(DropReturn(text[..i]), Lines(text[i + 1..]));
    }
  }

  lemma PrependLine(first: string, rest: seq<string>)
    requires rest != []
    ensures var lines := [first] + rest;
      lines[..|lines| - 1] == [first] + rest[..|rest| - 1] && lines[|lines| - 1] == rest[|rest| - 1]
  {
  }

  /** Splitting a text in two changes nothing, wherever the cut falls -- between a carriage return and its line feed
      included -- as long as the unfinished line of the first part is put in front of the second. */
  lemma {:induction false} CutAnywhere(a: string, b: string)
    ensures Complete(a + b) == Complete(a) + Complete(Rest(a) + b)
    ensures Rest(a + b) == Rest(Rest(a) + b)
    decreases |a|
  {
    hide Complete, Rest, IndexOf;
    LinesStep(a);
    var i := IndexOf(a, '\n');
    if i < 0 {
      assert [] + Complete(a + b) == Complete(a + b);
    } else {
      var tail := a[i + 1..];
      CutAnywhere(tail, b);
      CutAt(a, i, '\n');
      FirstSeparator(a[..i], '\n', tail + b);
      assert a + b == a[..i] + "\n" + (tail + b);
      LinesStep(a + b);
      assert (a + b)[..i] == a[..i] && (a + b)[i + 1..] == tail + b;
      var first := [DropReturn(a[..i])];
      assert first + (Complete(tail) + Complete(Rest(a) + b)) == (first + Complete(tail)) + Complete(Rest(a) + b);
    }
  }

  lemma {:induction false} ParseInTwo(decode: Decoder, a: seq<string>, b: seq<string>, parsed: ParsedEvents)
    ensures ParseLines(decode, a + b, parsed) == ParseLines(decode, b, ParseLines(decode, a, parsed))
  {
    hide ParseLine;
    if a == [] {
      assert a + b == b;
    } else {
      assert (a + b)[1..] == a[1..] + b;
      ParseInTwo(decode, a[1..], b, ParseLine(decode, a[0], parsed));
    }
  }

  // ----- What the lines say

  function MessageIn(event: Option<Event>): Option<string> {
    if event.Some? && event.value.AgentMessage? then Some(event.value.text) else None
  }

  function ThreadIn(event: Option<Event>): Option<string> {
    if event.Some? && event.value.ThreadStarted? then Some(event.value.threadId) else None
  }

  function UsageIn(event: Option<Event>): Option<Usage> {
    if event.Some? && event.value.TurnCompleted? then Some(event.value.usage) else None
  }

  function ErrorIn(event: Option<Event>): Option<string> {
    if event.None? || !event.value.ErrorEvent? then None
    else if event.value.detail.Some? then event.value.detail else Some("Codex reported an unknown error")
  }

  /** `found` is what is told by the lines at the places `at`, in order, and no other line tells anything. */
  ghost predicate ToldAt<T>(decode: Decoder, lines: seq<string>, tells: Option<Event> -> Option<T>, found: seq<T>,
                            at: seq<int>) {
    && |at| == |found|
    && (forall i, j | 0 <= i < j < |at| :: at[i] < at[j])
    && (forall i | 0 <= i < |at| :: 0 <= at[i] < |lines| && tells(decode(lines[at[i]])) == Some(found[i]))
    && (forall k | 0 <= k < |lines| && tells(decode(lines[k])).Some? :: k in at)
  }

  ghost predicate AllTold<T>(decode: Decoder, lines: seq<string>, tells: Option<Event> -> Option<T>, found: seq<T>) {
    exists at :: ToldAt(decode, lines, tells, found, at)
  }

  /** `found` is what the last line to tell anything tells, or what there was before if none does. */
  ghost predicate LastTold<T>(decode: Decoder, lines: seq<string>, tells: Option<Event> -> Option<T>, before: Option<T>,
                              found: Option<T>) {
    if exists k | 0 <= k < |lines| :: tells(decode(lines[k])).Some?
    then exists k | 0 <= k < |lines| ::
        && found.Some? && tells(decode(lines[k])) == found
        && forall j | k < j < |lines| :: tells(decode(lines[j])).None?
    else found == before
  }

  function LastOf<T>(found: seq<T>): Option<T> {
    if found == [] then None else Some(found[|found| - 1])
  }

  lemma ToldOneMore<T>(decode: Decoder, lines: seq<string>, line: string, tells: Option<Event> -> Option<T>,
                       found: seq<T>)
    requires AllTold(decode, lines, tells, found)
    ensures AllTold(decode, lines + [line], tells,
                    found + match tells(decode(line)) case None => [] case Some(told) => [told])
  {
    var told := tells(decode(line));
    var at :| ToldAt(decode, lines, tells, found, at);
    if told.Some? {
      ToldThere(decode, lines, line, tells, found, at);
    } else {
      assert found + [] == found;
      NotToldThere(decode, lines, line, tells, found, at);
    }
  }

  lemma ToldThere<T>(decode: Decoder, lines: seq<string>, line: string, tells: Option<Event> -> Option<T>,
                     found: seq<T>, at: seq<int>)
    requires ToldAt(decode, lines, tells, found, at) && tells(decode(line)).Some?
    ensures ToldAt(decode, lines + [line], tells, found + [tells(decode(line)).value], at + [|lines|])
  {
    var all, places, told := lines + [line], at + [|lines|], found + [tells(decode(line)).value];
    forall i | 0 <= i < |places|
      ensures 0 <= places[i] < |all| && tells(decode(all[places[i]])) == Some(told[i])
    {
      if i < |at| {
        assert places[i] == at[i] && all[at[i]] == lines[at[i]];
      }
    }
    forall k | 0 <= k < |all| && tells(decode(all[k])).Some?
      ensures k in places
    {
      if k < |lines| {
        assert all[k] == lines[k];
        assert k in at;
      } else {
        assert places[|at|] == k;
      }
    }
  }

  lemma NotToldThere<T>(decode: Decoder, lines: seq<string>, line: string, tells: Option<Event> -> Option<T>,
                        found: seq<T>, at: seq<int>)
    requires ToldAt(decode, lines, tells, found, at) && tells(decode(line)).None?
    ensures ToldAt(decode, lines + [line], tells, found, at)
  {
    var all := lines + [line];
    assert all[|lines|] == line;
    assert forall k | 0 <= k < |lines| :: all[k] == lines[k];
  }

  lemma LastToldOneMore<T>(decode: Decoder, lines: seq<string>, line: string, tells: Option<Event> -> Option<T>,
                           before: Option<T>, found: Option<T>)
    requires LastTold(decode, lines, tells, before, found)
    ensures LastTold(decode, lines + [line], tells, before,
                     if tells(decode(line)).Some? then tells(decode(line)) else found)
  {
    var all := lines + [line];
    assert all[|lines|] == line && forall k | 0 <= k < |lines| :: all[k] == lines[k];
    if tells(decode(line)).None? && exists k | 0 <= k < |lines| :: tells(decode(lines[k])).Some? {
      var k :| 0 <= k < |lines| && found.Some? && tells(decode(lines[k])) == found
            && forall j | k < j < |lines| :: tells(decode(lines[j])).None?;
      assert tells(decode(all[k])) == found;
    }
  }

  /** The last of what was told is what was told last. */
  lemma LastOfAllTold<T>(decode: Decoder, lines: seq<string>, tells: Option<Event> -> Option<T>, found: seq<T>)
    requires AllTold(decode, lines, tells, found)
    ensures LastTold(decode, lines, tells, None, LastOf(found))
  {
    var at :| ToldAt(decode, lines, tells, found, at);
    if found != [] {
      ToldLast(decode, lines, tells, found, at);
    } else {
      assert at == [];
    }
  }

  lemma ToldLast<T>(decode: Decoder, lines: seq<string>, tells: Option<Event> -> Option<T>, found: seq<T>, at: seq<int>)
    requires ToldAt(decode, lines, tells, found, at) && found != []
    ensures var k := at[|at| - 1];
      && 0 <= k < |lines| && tells(decode(lines[k])) == Some(found[|found| - 1])
      && forall j | k < j < |lines| :: tells(decode(lines[j])).None?
  {
    forall j | at[|at| - 1] < j < |lines|
      ensures tells(decode(lines[j])).None?
    {
      NoneBeyond(at, j);
    }
  }

  lemma NoneBeyond(at: seq<int>, j: int)
    requires at != [] && at[|at| - 1] < j && forall i, k | 0 <= i < k < |at| :: at[i] < at[k]
    ensures j !in at
  {
  }

  /** Messages and errors are those of the lines, in order; the thread and the usage are those told last. */
  ghost predicate SaidBy(decode: Decoder, lines: seq<string>, threadId: Option<string>, parsed: ParsedEvents) {
    && AllTold(decode, lines, MessageIn, parsed.messages)
    && AllTold(decode, lines, ErrorIn, parsed.errors)
    && LastTold(decode, lines, ThreadIn, threadId, parsed.threadId)
    && LastTold(decode, lines, UsageIn, None, parsed.usage)
  }

  lemma {:induction false} ParsedIsSaid(decode: Decoder, lines: seq<string>, threadId: Option<string>)
    ensures SaidBy(decode, lines, threadId, ParseLines(decode, lines, ParsedEvents([], threadId, None, [])))
  {
    var start := ParsedEvents([], threadId, None, []);
    if lines == [] {
      NothingIsSaid(decode, threadId);
    } else {
      var init, last := lines[..|lines| - 1], lines[|lines| - 1];
      assert lines == init + [last] && lines[..|init| + 1] == lines;
      ParsedIsSaid(decode, init, threadId);
      OneMoreLine(decode, lines, |init|, start);
      hide SaidBy, ParseLine, ParseLines;
      SaysOneMore(decode, init, last, threadId, ParseLines(decode, init, start));
    }
  }

  lemma NothingIsSaid(decode: Decoder, threadId: Option<string>)
    ensures SaidBy(decode, [], threadId, ParsedEvents([], threadId, None, []))
  {
    assert ToldAt(decode, [], MessageIn, [], []);
    assert ToldAt(decode, [], ErrorIn, [], []);
  }

  lemma SaysOneMore(decode: Decoder, lines: seq<string>, line: string, threadId: Option<string>, parsed: ParsedEvents)
    requires SaidBy(decode, lines, threadId, parsed)
    ensures SaidBy(decode, lines + [line], threadId, ParseLine(decode, line, parsed))
  {
    hide AllTold, LastTold;
    ToldOneMore(decode, lines, line, MessageIn, parsed.messages);
    ToldOneMore(decode, lines, line, ErrorIn, parsed.errors);
    LastToldOneMore(decode, lines, line, ThreadIn, threadId, parsed.threadId);
    LastToldOneMore(decode, lines, line, UsageIn, None, parsed.usage);
    assert parsed.messages + [] == parsed.messages && parsed.errors + [] == parsed.errors;
  }

  // ----- The consumer

  datatype Chunk = Stdout(text: string) | Stderr(text: string)

  function Last(text: string, window: nat): string {
    if |text| > window then text[|text| - window..] else text
  }

  /** The consumer's variables. */
  datatype State = State(stdout: string, stderr: string, totalBytes: nat, outputExceeded: bool, parsed: ParsedEvents)

  function Start(threadId: Option<string>): State {
    State("", "", 0, false, ParsedEvents([], threadId, None, []))
  }

  function Consume(decode: Decoder, maxBytes: nat, s: State, chunk: Chunk): State {
    var total := s.totalBytes + |chunk.text|;
    if total > maxBytes then s.(totalBytes := total, outputExceeded := true)
    else
      match chunk
      case Stdout(text) =>
        var buffer := s.stdout + text;
        s.(totalBytes := total, stdout := Rest(buffer), parsed := ParseLines(decode, Complete(buffer), s.parsed))
      case Stderr(text) => s.(totalBytes := total, stderr := Last(s.stderr + text, STDERR_WINDOW))
  }

  function ConsumeAll(decode: Decoder, maxBytes: nat, threadId: Option<string>, chunks: seq<Chunk>): State {
    if chunks == [] then Start(threadId)
    else Consume(decode, maxBytes, ConsumeAll(decode, maxBytes, threadId, chunks[..|chunks| - 1]), chunks[|chunks| - 1])
  }

  /** The flush when the process has ended: what is left of stdout, trimmed, is the last line. */
  function Flush(decode: Decoder, s: State): ParsedEvents {
    if Trim(s.stdout) == "" then s.parsed else ParseLine(decode, Trim(s.stdout), s.parsed)
  }

  class StreamConsumer {
    const decode: Decoder
    const maxBytes: nat
    var stdout: string
    var stderr: string
    var totalBytes: nat
    var outputExceeded: bool
    var parsed: ParsedEvents

    function Now(): State
      reads this
    {
      State(stdout, stderr, totalBytes, outputExceeded, parsed)
    }

    constructor (decode: Decoder, maxBytes: nat, threadId: Option<string>)
      ensures this.decode == decode && this.maxBytes == maxBytes && Now() == Start(threadId)
    {
      this.decode, this.maxBytes := decode, maxBytes;
      stdout, stderr, totalBytes, outputExceeded := "", "", 0, false;
      parsed := ParsedEvents([], threadId, None, []);
    }

    method OnData(chunk: Chunk)
      modifies this
      ensures Now() == Consume(decode, maxBytes, old(Now()), chunk)
    {
      hide Lines;
      totalBytes := totalBytes + |chunk.text|;
      if totalBytes > maxBytes {
        outputExceeded := true;
        return;
      }
      match chunk
      case Stdout(text) =>
        var lines := Lines(stdout + text);
        ghost var parsed0 := parsed;
        stdout := lines[|lines| - 1];
        lines := lines[..|lines| - 1];
        for i := 0 to |lines|
          invariant parsed == ParseLines(decode, lines[..i], parsed0)
          invariant stderr == old(stderr) && totalBytes == old(totalBytes) + |chunk.text|
          invariant outputExceeded == old(outputExceeded)
          invariant stdout == Rest(old(stdout) + text)
        {
          OneMoreLine(decode, lines, i, parsed0);
          parsed := ParseLine(decode, lines[i], parsed);
        }
        assert lines[..|lines|] == lines;
      case Stderr(text) =>
        stderr := stderr + text;
        if |stderr| > STDERR_WINDOW {
          stderr := stderr[|stderr| - STDERR_WINDOW..];
        }
    }
  }

  lemma OneMoreLine(decode: Decoder, lines: seq<string>, i: nat, parsed: ParsedEvents)
    requires i < |lines|
    ensures ParseLines(decode, lines[..i + 1], parsed) == ParseLine(decode, lines[i],
                                                                    ParseLines(decode, lines[..i], parsed))
  {
    hide ParseLine;
    assert lines[..i + 1] == lines[..i] + [lines[i]];
    ParseInTwo(decode, lines[..i], [lines[i]], parsed);
    assert ParseLines(decode, [lines[i]], ParseLines(decode, lines[..i], parsed))
        == ParseLines(decode, [lines[i]][1..], ParseLine(decode, lines[i], ParseLines(decode, lines[..i], parsed)));
  }

  // ----- Streaming equals batch

  function StdoutOf(chunks: seq<Chunk>): string {
    if chunks == [] then ""
    else StdoutOf(chunks[..|chunks| - 1]) + (match chunks[|chunks| - 1] case Stdout(text) => text case Stderr(_) => "")
  }

  function StderrOf(chunks: seq<Chunk>): string {
    if chunks == [] then ""
    else StderrOf(chunks[..|chunks| - 1]) + (match chunks[|chunks| - 1] case Stdout(_) => "" case Stderr(text) => text)
  }

  function Bytes(chunks: seq<Chunk>): nat {
    if chunks == [] then 0 else Bytes(chunks[..|chunks| - 1]) + |chunks[|chunks| - 1].text|
  }

  /** The chunks that arrived while the total stayed within the budget. */
  function WithinBudget(chunks: seq<Chunk>, maxBytes: nat): seq<Chunk> {
    if chunks == [] then []
    else if Bytes(chunks) <= maxBytes then chunks
    else WithinBudget(chunks[..|chunks| - 1], maxBytes)
  }

  /** The state as the whole text determines it. */
  predicate MatchesBatch(decode: Decoder, threadId: Option<string>, chunks: seq<Chunk>, s: State) {
    && s.stdout == Rest(StdoutOf(chunks))
    && s.parsed == ParseLines(decode, Complete(StdoutOf(chunks)), Start(threadId).parsed)
    && s.stderr == Last(StderrOf(chunks), STDERR_WINDOW)
  }

  lemma WindowSlides(a: string, b: string, window: nat)
    ensures Last(Last(a, window) + b, window) == Last(a + b, window)
  {
  }

  lemma ConsumeMatches(decode: Decoder, maxBytes: nat, threadId: Option<string>, chunks: seq<Chunk>, chunk: Chunk,
                       s: State)
    requires MatchesBatch(decode, threadId, chunks, s) && s.totalBytes + |chunk.text| <= maxBytes
    ensures MatchesBatch(decode, threadId, chunks + [chunk], Consume(decode, maxBytes, s, chunk))
  {
    hide Complete, Rest, ParseLines, Last;
    var before := StdoutOf(chunks);
    assert (chunks + [chunk])[..|chunks|] == chunks;
    match chunk
    case Stdout(text) =>
      CutAnywhere(before, text);
      ParseInTwo(decode, Complete(before), Complete(Rest(before) + text), Start(threadId).parsed);
      assert StderrOf(chunks + [chunk]) == StderrOf(chunks);
    case Stderr(text) =>
      WindowSlides(StderrOf(chunks), text, STDERR_WINDOW);
      assert StdoutOf(chunks + [chunk]) == before;
  }

  lemma {:induction false} TotalIsBytes(decode: Decoder, maxBytes: nat, threadId: Option<string>, chunks: seq<Chunk>)
    ensures ConsumeAll(decode, maxBytes, threadId, chunks).totalBytes == Bytes(chunks)
    ensures ConsumeAll(decode, maxBytes, threadId, chunks).outputExceeded <==> Bytes(chunks) > maxBytes
  {
    hide Complete, Rest, ParseLines, Last;
    if chunks != [] {
      TotalIsBytes(decode, maxBytes, threadId, chunks[..|chunks| - 1]);
    }
  }

  /** For every chunking of both streams and every interleaving: the consumer's state is what the whole text within the
      budget determines, and the budget flag is up exactly when the total went over. */
  lemma {:induction false} StreamingIsBatch(decode: Decoder, maxBytes: nat, threadId: Option<string>,
                                            chunks: seq<Chunk>)
    ensures MatchesBatch(decode, threadId, WithinBudget(chunks, maxBytes),
                         ConsumeAll(decode, maxBytes, threadId, chunks))
    ensures ConsumeAll(decode, maxBytes, threadId, chunks).outputExceeded <==> Bytes(chunks) > maxBytes
  {
    TotalIsBytes(decode, maxBytes, threadId, chunks);
    if chunks == [] {
      NothingRead(decode, threadId);
    } else {
      var init, last := chunks[..|chunks| - 1], chunks[|chunks| - 1];
      hide MatchesBatch;
      StreamingIsBatch(decode, maxBytes, threadId, init);
      TotalIsBytes(decode, maxBytes, threadId, init);
      if Bytes(chunks) <= maxBytes {
        AllWithin(init, maxBytes);
        ConsumeMatches(decode, maxBytes, threadId, init, last, ConsumeAll(decode, maxBytes, threadId, init));
        assert init + [last] == chunks;
      } else {
        BudgetIgnores(decode, maxBytes, threadId, chunks);
      }
    }
  }

  lemma NothingRead(decode: Decoder, threadId: Option<string>)
    ensures MatchesBatch(decode, threadId, [], Start(threadId))
  {
    LinesStep("");
    hide Lines;
  }

  lemma AllWithin(chunks: seq<Chunk>, maxBytes: nat)
    requires Bytes(chunks) <= maxBytes
    ensures WithinBudget(chunks, maxBytes) == chunks
  {
  }

  lemma BudgetIgnores(decode: Decoder, maxBytes: nat, threadId: Option<string>, chunks: seq<Chunk>)
    requires chunks != [] && Bytes(chunks) > maxBytes
    requires ConsumeAll(decode, maxBytes, threadId, chunks[..|chunks| - 1]).totalBytes == Bytes(chunks[..|chunks| - 1])
    requires MatchesBatch(decode, threadId, WithinBudget(chunks[..|chunks| - 1], maxBytes),
                          ConsumeAll(decode, maxBytes, threadId, chunks[..|chunks| - 1]))
    ensures MatchesBatch(decode, threadId, WithinBudget(chunks, maxBytes),
                         ConsumeAll(decode, maxBytes, threadId, chunks))
  {
    hide Complete, Rest, ParseLines, Last, StdoutOf, StderrOf;
  }

  /** What the whole text of stdout means, read at once: every complete line, then the trimmed tail. */
  function BatchEvents(decode: Decoder, threadId: Option<string>, text: string): ParsedEvents {
    var parsed := ParseLines(decode, Complete(text), Start(threadId).parsed);
    if Trim(Rest(text)) == "" then parsed else ParseLine(decode, Trim(Rest(text)), parsed)
  }

  /** Every line of the text: the complete ones, and the trimmed tail if there is one. */
  function AllLines(text: string): seq<string> {
    Complete(text) + if Trim(Rest(text)) == "" then [] else [Trim(Rest(text))]
  }

  /** The events of a whole text are what its lines say. */
  lemma BatchIsSaid(decode: Decoder, threadId: Option<string>, text: string)
    ensures SaidBy(decode, AllLines(text), threadId, BatchEvents(decode, threadId, text))
  {
    hide SaidBy, Complete, Rest, Trim, ParseLine;
    ParsedIsSaid(decode, AllLines(text), threadId);
    if Trim(Rest(text)) != "" {
      ParseInTwo(decode, Complete(text), [Trim(Rest(text))], Start(threadId).parsed);
      var parsed := ParseLines(decode, Complete(text), Start(threadId).parsed);
      assert ParseLines(decode, [Trim(Rest(text))], parsed)
          == ParseLines(decode, [Trim(Rest(text))][1..], ParseLine(decode, Trim(Rest(text)), parsed));
    } else {
      assert Complete(text) + [] == Complete(text);
    }
  }

  /** `tail` is the end of the text, all of it up to a length. */
  ghost predicate IsTail(tail: string, text: string, length: nat) {
    |tail| == (if |text| < length then |text| else length) && exists front :: text == front + tail
  }

  lemma LastIsTail(text: string, length: nat)
    ensures IsTail(Last(text, length), text, length)
  {
    if |text| > length {
      assert text == text[..|text| - length] + Last(text, length);
    } else {
      assert text == "" + text;
    }
  }

  /** For every chunking of stdout and every interleaving with stderr within the budget, the events after the flush are
      those of the whole text, and stderr is its last characters. */
  lemma FlushIsBatch(decode: Decoder, maxBytes: nat, threadId: Option<string>, chunks: seq<Chunk>)
    requires Bytes(chunks) <= maxBytes
    ensures Flush(decode, ConsumeAll(decode, maxBytes, threadId, chunks))
         == BatchEvents(decode, threadId, StdoutOf(chunks))
    ensures IsTail(ConsumeAll(decode, maxBytes, threadId, chunks).stderr, StderrOf(chunks), 16_384)
  {
    StreamingIsBatch(decode, maxBytes, threadId, chunks);
    AllWithin(chunks, maxBytes);
    LastIsTail(StderrOf(chunks), STDERR_WINDOW);
    hide ConsumeAll, Complete, Rest, ParseLines, ParseLine, Last, WithinBudget, Trim;
  }

  // ----- How the run ends

  datatype RunResult =
    | Output(text: string, threadId: Option<string>, usage: Option<Usage>)
    | RunCancelled | TimedOut | OutputExceeded | ExitFailure(code: int, detail: string) | NoMessage

  /** The checks after the process has closed, in order. */
  function Conclude(cancelled: bool, timedOut: bool, s: State, parsed: ParsedEvents, exitCode: int): RunResult {
    if cancelled then RunCancelled
    else if timedOut then TimedOut
    else if s.outputExceeded then OutputExceeded
    else if exitCode != 0 then
      ExitFailure(exitCode, if parsed.errors != [] then parsed.errors[|parsed.errors| - 1] else Trim(s.stderr))
    else if parsed.messages == [] || Trim(parsed.messages[|parsed.messages| - 1]) == "" then NoMessage
    else Output(Trim(parsed.messages[|parsed.messages| - 1]), parsed.threadId, parsed.usage)
  }

  /** An answer is given exactly by an undisturbed, successful process within the budget whose whole output, however
      it was chunked, has a line with an agent message, the last of which is not blank; that message is the answer. A
      process that failed gives its last error, or the end of its stderr if it reported none. */
  lemma AnswersAreWholeOutput(decode: Decoder, maxBytes: nat, threadId: Option<string>, chunks: seq<Chunk>,
                              cancelled: bool, timedOut: bool, exitCode: int)
    returns (message: Option<string>, error: Option<string>, thread: Option<string>, usage: Option<Usage>,
             stderr: string)
    ensures var lines := AllLines(StdoutOf(chunks));
      && LastTold(decode, lines, MessageIn, None, message) && LastTold(decode, lines, ErrorIn, None, error)
      && LastTold(decode, lines, ThreadIn, threadId, thread) && LastTold(decode, lines, UsageIn, None, usage)
    ensures IsTail(stderr, StderrOf(chunks), 16_384)
    ensures var s := ConsumeAll(decode, maxBytes, threadId, chunks);
      var result := Conclude(cancelled, timedOut, s, Flush(decode, s), exitCode);
      && (result == RunCancelled <==> cancelled)
      && (result == TimedOut <==> !cancelled && timedOut)
      && (result == OutputExceeded <==> !cancelled && !timedOut && Bytes(chunks) > maxBytes)
      && (!cancelled && !timedOut && Bytes(chunks) <= maxBytes ==>
            && (exitCode != 0 ==> result == ExitFailure(exitCode, if error.Some? then error.value else Trim(stderr)))
            && (exitCode == 0 ==>
                  if message.None? || Trim(message.value) == "" then result == NoMessage
                  else result == Output(Trim(message.value), thread, usage)))
  {
    var batch := BatchEvents(decode, threadId, StdoutOf(chunks));
    BatchIsSaid(decode, threadId, StdoutOf(chunks));
    LastOfAllTold(decode, AllLines(StdoutOf(chunks)), MessageIn, batch.messages);
    LastOfAllTold(decode, AllLines(StdoutOf(chunks)), ErrorIn, batch.errors);
    message, error := LastOf(batch.messages), LastOf(batch.errors);
    thread, usage, stderr := batch.threadId, batch.usage, Last(StderrOf(chunks), STDERR_WINDOW);
    LastIsTail(StderrOf(chunks), STDERR_WINDOW);
    TotalIsBytes(decode, maxBytes, threadId, chunks);
    if Bytes(chunks) <= maxBytes {
      FlushIsBatch(decode, maxBytes, threadId, chunks);
      StderrIsLast(decode, maxBytes, threadId, chunks);
    }
    var s := ConsumeAll(decode, maxBytes, threadId, chunks);
    hide *;
    Concludes(cancelled, timedOut, s, Flush(decode, s), exitCode);
  }

  /** The checks, in their order. */
  lemma Concludes(cancelled: bool, timedOut: bool, s: State, parsed: ParsedEvents, exitCode: int)
    ensures var result := Conclude(cancelled, timedOut, s, parsed, exitCode);
      && (result == RunCancelled <==> cancelled)
      && (result == TimedOut <==> !cancelled && timedOut)
      && (result == OutputExceeded <==> !cancelled && !timedOut && s.outputExceeded)
      && (!cancelled && !timedOut && !s.outputExceeded ==>
            && var message, error := LastOf(parsed.messages), LastOf(parsed.errors);
            && (exitCode != 0 ==> result == ExitFailure(exitCode, if error.Some? then error.value else Trim(s.stderr)))
            && (exitCode == 0 ==>
                  if message.None? || Trim(message.value) == "" then result == NoMessage
                  else result == Output(Trim(message.value), parsed.threadId, parsed.usage)))
  {
    hide Trim;
  }

  lemma StderrIsLast(decode: Decoder, maxBytes: nat, threadId: Option<string>, chunks: seq<Chunk>)
    requires Bytes(chunks) <= maxBytes
    ensures ConsumeAll(decode, maxBytes, threadId, chunks).stderr == Last(StderrOf(chunks), STDERR_WINDOW)
  {
    StreamingIsBatch(decode, maxBytes, threadId, chunks);
    AllWithin(chunks, maxBytes);
    hide ConsumeAll, WithinBudget, Last;
  }
}
