/**
 * The browser side of a chat turn (lib/chat-client.ts): the history sent to the completion
 * endpoint, the buffered decoder of the event stream it answers with, and the fallback
 * control flow around both.
 *
 * The response body is the list of strings successive `reader.read()` calls deliver (already
 * decoded); `JSON.parse(data)` followed by `choices?.[0]?.delta?.content || ""` is the
 * function `extract` (`None` when parsing throws). `fetch` and its 30 s abort are the
 * outcome `ApiOutcome`; `Math.random()` is the index `pick`; ids and clock readings are
 * parameters.
 */
module ChatClient {
  import opened Wrappers
  import opened Strings
  import opened ChatStorage
  import opened ChatActions

  /** The replies used when the stream fails or yields only white space, one picked at random. */
  const EmergencyFallbackResponses: seq<string> := [
    "I'm here to listen "
      + "and support you. While I'm experiencing some "
      + "technical difficulties, I want you to know "
      + "that your feelings are valid and important.",
    "Thank you for "
      + "reaching out. Even though I'm having some "
      + "connectivity issues, I want to remind you that "
      + "you're not alone and it's okay to take things "
      + "one step at a time.",
    "I appreciate you "
      + "sharing with me. While I work through some "
      + "technical challenges, please remember that "
      + "seeking support is a sign of strength, not "
      + "weakness.",
    "I'm experiencing "
      + "some technical difficulties, but I want you to "
      + "know that I care about your wellbeing. If "
      + "you're in crisis, please reach out to a mental "
      + "health professional or crisis hotline."
  ]

  /** The reply saved when saving the turn itself fails. */
  const LastResortResponse :=
    "I'm here to support you, though I'm "
    + "experiencing some technical difficulties. "
    + "Your wellbeing matters, and if you need "
    + "immediate help, please reach out to a mental "
    + "health professional."

  const FailurePrefix := "Failed to process chat: "

  // ---------------------------------------------------------------------------
  // The history sent with the request
  // ---------------------------------------------------------------------------

  /** An element of `previousMessages`: a message object, or anything else (`null`, a number, ...). */
  datatype HistoryEntry = NotAnObject | Msg(message: ChatMessage)

  /** One entry of the request's `messages` array. */
  datatype ApiMessage = ApiMessage(role: string, content: string)

  function Role(sender: string): string {
    if sender == "user" then "user" else "assistant"
  }

  /** What one previous message becomes: nothing, or its role and trimmed, non-empty content. */
  function FormatEntry(e: HistoryEntry): seq<ApiMessage> {
    match e
    case NotAnObject => []
    case Msg(m) =>
      var c := Trim(m.content);
      if c == "" then [] else [ApiMessage(Role(m.sender), c)]
  }

  /** The filter, map and filter over `previousMessages`. */
  function FormatHistory(previous: seq<HistoryEntry>): seq<ApiMessage> {
    if previous == [] then []
    else FormatHistory(previous[..|previous| - 1]) + FormatEntry(previous[|previous| - 1])
  }

  /** The `messages` the request carries: the formatted history, then the new turn as typed. */
  function Formatted(previous: seq<HistoryEntry>, userMessage: string): (r: seq<ApiMessage>)
    ensures |r| >= 1 && r[|r| - 1] == ApiMessage("user", userMessage)
  {
    FormatHistory(previous) + [ApiMessage("user", userMessage)]
  }

  /** Formatting is done entry by entry, in order: the history of two runs is the two histories. */
  lemma {:induction false} FormatHistoryAppend(a: seq<HistoryEntry>, b: seq<HistoryEntry>)
    ensures FormatHistory(a + b) == FormatHistory(a) + FormatHistory(b)
    decreases |b|
  {
    if b == [] {
      assert a + b == a;
    } else {
      var init := b[..|b| - 1];
      assert (a + b)[..|a + b| - 1] == a + init;
      FormatHistoryAppend(a, init);
      AppendAssoc(FormatHistory(a), FormatHistory(init), FormatEntry(b[|b| - 1]));
    }
  }

  /** A message the history keeps has role "user" or "assistant" and trimmed, non-empty content. */
  predicate WellFormatted(m: ApiMessage) {
    && (m.role == "user" || m.role == "assistant")
    && m.content != "" && Trim(m.content) == m.content
  }

  /** The formatted history is no longer than the input and every message in it is well formatted. */
  lemma {:induction false} FormatHistoryShape(previous: seq<HistoryEntry>)
    ensures |FormatHistory(previous)| <= |previous|
    ensures forall i :: 0 <= i < |FormatHistory(previous)| ==> WellFormatted(FormatHistory(previous)[i])
  {
    if previous != [] {
      var init, e := previous[..|previous| - 1], previous[|previous| - 1];
      FormatHistoryShape(init);
      if e.Msg? {
        TrimIdempotent(e.message.content);
      }
      var h, r := FormatHistory(init), FormatEntry(e);
      forall i | 0 <= i < |h + r|
        ensures WellFormatted((h + r)[i])
      {
        if i < |h| {
          assert (h + r)[i] == h[i];
        }
      }
    }
  }

  /** The request carries at most one message more than the history it was given. */
  lemma FormattedLength(previous: seq<HistoryEntry>, userMessage: string)
    ensures |Formatted(previous, userMessage)| <= |previous| + 1
  {
    FormatHistoryShape(previous);
  }

  // ---------------------------------------------------------------------------
  // The stream decoder
  // ---------------------------------------------------------------------------

  const DataPrefix := "data: "
  const DoneMarker := "[DONE]"

  predicate IsDataLine(line: string) {
    DataPrefix <= line
  }

  /**
   * What one line adds to the response: for a data line whose trimmed payload is not the
   * done marker and parses, the content the payload carries; otherwise nothing.
   */
  function LineContent(line: string, extract: string -> Option<string>): string {
    if !IsDataLine(line) then ""
    else
      var data := Trim(line[|DataPrefix|..]);
      if data == DoneMarker then ""
      else
        match extract(data)
        case None => ""
        case Some(content) => content
  }

  /**
   * The variables of the line loop: the response so far, the arguments `onChunk` has been
   * called with, and the number of data lines seen in this read.
   */
  datatype Scan = Scan(full: string, emitted: seq<string>, processed: nat)

  function ScanLine(s: Scan, line: string, extract: string -> Option<string>): Scan {
    var content := LineContent(line, extract);
    var processed := if IsDataLine(line) then s.processed + 1 else s.processed;
    if content == "" then Scan(s.full, s.emitted, processed)
    else Scan(s.full + content, s.emitted + [s.full + content], processed)
  }

  function ScanLines(s: Scan, lines: seq<string>, extract: string -> Option<string>): Scan {
    if lines == [] then s
    else ScanLine(ScanLines(s, lines[..|lines| - 1], extract), lines[|lines| - 1], extract)
  }

  /**
   * What the buffer keeps after a read: when a data line was seen, the text after the last
   * line break (all of it when there is none); otherwise everything.
   */
  function NextBuffer(buffer: string, processed: nat): (r: string)
    ensures |r| <= |buffer| && r == buffer[|buffer| - |r|..]
  {
    if processed > 0 then
      var last := LastIndexOf(buffer, '\n');
      if last != -1 then buffer[last + 1..] else buffer
    else buffer
  }

  /** The decoder's state between chunks. */
  datatype Decoder = Decoder(buffer: string, full: string, emitted: seq<string>)

  const Start := Decoder("", "", [])

  /** One read: append the chunk to the buffer, scan all its lines, then trim the buffer. */
  function Read(d: Decoder, chunk: string, extract: string -> Option<string>): Decoder {
    var buffer := d.buffer + chunk;
    var s := ScanLines(Scan(d.full, d.emitted, 0), Split(buffer, '\n'), extract);
    Decoder(NextBuffer(buffer, s.processed), s.full, s.emitted)
  }

  /** The decoder after the given chunks. */
  function Decode(chunks: seq<string>, extract: string -> Option<string>): Decoder {
    if chunks == [] then Start
    else Read(Decode(chunks[..|chunks| - 1], extract), chunks[|chunks| - 1], extract)
  }

  /** The decoder after one more read. */
  lemma DecodeSnoc(chunks: seq<string>, chunk: string, extract: string -> Option<string>)
    ensures Decode(chunks + [chunk], extract) == Read(Decode(chunks, extract), chunk, extract)
  {
    assert (chunks + [chunk])[..|chunks|] == chunks;
  }

  /** The number of lines that start with the data prefix. */
  function DataLines(lines: seq<string>): nat {
    if lines == [] then 0
    else DataLines(lines[..|lines| - 1]) + (if IsDataLine(lines[|lines| - 1]) then 1 else 0)
  }

  /**
   * The arguments of `onChunk` so far and the response `full` fit together: none yet and an
   * empty response, or a chain of ever longer texts, each extending the one before, the
   * first non-empty and the last the response itself.
   */
  predicate Emissions(full: string, emitted: seq<string>) {
    if emitted == [] then full == ""
    else
      && emitted[|emitted| - 1] == full
      && emitted[0] != ""
      && forall i :: 0 < i < |emitted| ==> emitted[i - 1] < emitted[i]
  }

  lemma ScanLineEmissions(s: Scan, line: string, extract: string -> Option<string>)
    requires Emissions(s.full, s.emitted)
    ensures var t := ScanLine(s, line, extract); Emissions(t.full, t.emitted)
  {
    var content := LineContent(line, extract);
    if content != "" {
      var e := s.emitted + [s.full + content];
      assert s.full < s.full + content;
      forall i | 0 < i < |e|
        ensures e[i - 1] < e[i]
      {
        if i < |s.emitted| {
          assert e[i - 1] == s.emitted[i - 1] && e[i] == s.emitted[i];
        }
      }
    }
  }

  /**
   * The line loop keeps `Emissions`, counts exactly the data lines, and only ever extends
   * the response and the list of `onChunk` arguments.
   */
  lemma {:induction false} ScanLinesSpec(s: Scan, lines: seq<string>, extract: string -> Option<string>)
    requires Emissions(s.full, s.emitted)
    ensures var t := ScanLines(s, lines, extract);
      && Emissions(t.full, t.emitted)
      && t.processed == s.processed + DataLines(lines)
      && s.full <= t.full && s.emitted <= t.emitted
  {
    if lines != [] {
      var init := lines[..|lines| - 1];
      ScanLinesSpec(s, init, extract);
      ScanLineEmissions(ScanLines(s, init, extract), lines[|lines| - 1], extract);
    }
  }

  /**
   * Whatever the chunks, every `onChunk` argument extends the previous one and the decoder
   * returns the last of them, or "" when it never called `onChunk`.
   */
  lemma {:induction false} DecodeEmissions(chunks: seq<string>, extract: string -> Option<string>)
    ensures var d := Decode(chunks, extract); Emissions(d.full, d.emitted)
  {
    if chunks != [] {
      var d := Decode(chunks[..|chunks| - 1], extract);
      DecodeEmissions(chunks[..|chunks| - 1], extract);
      ScanLinesSpec(Scan(d.full, d.emitted, 0), Split(d.buffer + chunks[|chunks| - 1], '\n'), extract);
    }
  }

  /** After a read that saw a data line, the buffer holds no line break any more. */
  lemma NextBufferNoBreak(buffer: string, processed: nat)
    requires processed > 0
    ensures '\n' !in NextBuffer(buffer, processed)
  {
  }

  /** A read without any data line keeps the whole buffer, even when it holds complete lines. */
  lemma NextBufferKeeps(buffer: string)
    ensures NextBuffer(buffer, 0) == buffer
  {
  }

  /** Lines that are not data lines leave the scan as it was. */
  lemma {:induction false} OtherLinesIgnored(s: Scan, lines: seq<string>, extract: string -> Option<string>)
    requires forall i :: 0 <= i < |lines| ==> !IsDataLine(lines[i])
    ensures ScanLines(s, lines, extract) == s
  {
    if lines != [] {
      OtherLinesIgnored(s, lines[..|lines| - 1], extract);
    }
  }

  /**
   * The decoder loop of `processStreamResponse` over a body that delivers `chunks`; the
   * arguments of `onChunk` are returned as `emitted`.
   */
  method DecodeReads(chunks: seq<string>, extract: string -> Option<string>)
    returns (fullResponse: string, emitted: seq<string>)
    ensures Decoder(Decode(chunks, extract).buffer, fullResponse, emitted) == Decode(chunks, extract)
  {
    fullResponse := "";
    emitted := [];
    var buffer := "";
    var r := 0;
    while true
      invariant 0 <= r <= |chunks|
      invariant Decoder(buffer, fullResponse, emitted) == Decode(chunks[..r], extract)
      decreases |chunks| - r
    {
      if r == |chunks| {
        break;
      }
      assert chunks[..r + 1][..r] == chunks[..r];
      buffer, fullResponse, emitted := ReadChunk(buffer, fullResponse, emitted, chunks[r], extract);
      r := r + 1;
    }
    assert chunks[..r] == chunks;
  }

  /** One pass of the decoder loop: append the chunk, scan every line, cut the buffer. */
  method ReadChunk(buffer: string, fullResponse: string, emitted: seq<string>, chunk: string,
                   extract: string -> Option<string>)
    returns (buffer': string, fullResponse': string, emitted': seq<string>)
    ensures Decoder(buffer', fullResponse', emitted') == Read(Decoder(buffer, fullResponse, emitted), chunk, extract)
  {
    buffer' := buffer + chunk;
    var lines := Split(buffer', '\n');
    var processedLines;
    processedLines, fullResponse', emitted' := ScanAll(lines, fullResponse, emitted, extract);
    if processedLines > 0 {
      var lastProcessedIndex := LastIndexOf(buffer', '\n');
      if lastProcessedIndex != -1 {
        buffer' := buffer'[lastProcessedIndex + 1..];
      }
    }
  }

  /** The line loop: every line that starts with the data prefix is counted and decoded. */
  method ScanAll(lines: seq<string>, fullResponse: string, emitted: seq<string>, extract: string -> Option<string>)
    returns (processedLines: nat, fullResponse': string, emitted': seq<string>)
    ensures Scan(fullResponse', emitted', processedLines) == ScanLines(Scan(fullResponse, emitted, 0), lines, extract)
  {
    processedLines, fullResponse', emitted' := 0, fullResponse, emitted;
    for k := 0 to |lines|
      invariant Scan(fullResponse', emitted', processedLines) == ScanLines(Scan(fullResponse, emitted, 0), lines[..k], extract)
    {
      var line := lines[k];
      assert lines[..k + 1][..k] == lines[..k];
      if DataPrefix <= line {
        processedLines := processedLines + 1;
        var data := Trim(line[|DataPrefix|..]);
        if data == DoneMarker {
          continue;
        }
        var parsed := extract(data);
        if parsed.Some? && parsed.value != "" {
          fullResponse' := fullResponse' + parsed.value;
          emitted' := emitted' + [fullResponse'];
        }
      }
    }
    assert lines[..|lines|] == lines;
  }

  /** `line` is one data line, with no line break in it, whose payload carries the text `c`. */
  predicate Carries(line: string, extract: string -> Option<string>, c: string) {
    '\n' !in line && IsDataLine(line) && LineContent(line, extract) == c && c != ""
  }

  lemma LineBreaks(line: string)
    requires '\n' !in line
    ensures Split(line, '\n') == [line]
    ensures Split(line + "\n", '\n') == [line, ""]
    ensures LastIndexOf(line, '\n') == -1 && LastIndexOf(line + "\n", '\n') == |line|
  {
    SplitNone(line, '\n');
    SplitBreak(line);
  }

  lemma SplitBreak(line: string)
    requires '\n' !in line
    ensures Split(line + "\n", '\n') == [line, ""]
  {
    SplitFirstLine(line, '\n', "");
    assert line + ['\n'] + "" == line + "\n";
    SplitNone("", '\n');
  }

  /** Scanning such a line, alone or followed by an empty line, adds `c` and one `onChunk` call. */
  lemma ScanCarrier(line: string, extract: string -> Option<string>, c: string, full: string, emitted: seq<string>)
    requires Carries(line, extract, c)
    ensures ScanLines(Scan(full, emitted, 0), [line], extract) == Scan(full + c, emitted + [full + c], 1)
    ensures ScanLines(Scan(full, emitted, 0), [line, ""], extract) == Scan(full + c, emitted + [full + c], 1)
  {
    assert [line][..0] == [];
    assert [line, ""][..1] == [line];
  }

  /**
   * The tail-line quirk: a data line that arrives without its line break is counted, stays
   * in the buffer (there is no line break to cut at), and is counted again when the next
   * read brings the break, so its text appears twice in the response.
   */
  lemma TailLineCountedTwice(line: string, extract: string -> Option<string>, c: string)
    requires Carries(line, extract, c)
    ensures Read(Read(Start, line, extract), "\n", extract) == Decoder("", c + c, [c, c + c])
  {
    ReadTail(line, extract, c, "", []);
    assert "" + c == c && [] + [c] == [c];
    ReadBreak(line, extract, c, c, [c]);
    assert [c] + [c + c] == [c, c + c];
  }

  /** One read is one step of the decoder. */
  lemma DecodeOne(a: string, extract: string -> Option<string>)
    ensures Decode([a], extract) == Read(Start, a, extract)
  {
    assert [a][..0] == [];
  }

  /** A read of the line alone into an empty buffer: counted, and kept whole in the buffer. */
  lemma ReadTail(line: string, extract: string -> Option<string>, c: string, full: string, emitted: seq<string>)
    requires Carries(line, extract, c)
    ensures Read(Decoder("", full, emitted), line, extract) == Decoder(line, full + c, emitted + [full + c])
  {
    LineBreaks(line);
    ScanCarrier(line, extract, c, full, emitted);
    assert "" + line == line;
  }

  /** The read of the line break that completes it: counted again, and the buffer emptied. */
  lemma ReadBreak(line: string, extract: string -> Option<string>, c: string, full: string, emitted: seq<string>)
    requires Carries(line, extract, c)
    ensures Read(Decoder(line, full, emitted), "\n", extract) == Decoder("", full + c, emitted + [full + c])
  {
    LineBreaks(line);
    ScanCarrier(line, extract, c, full, emitted);
  }

  /** A read of the whole line with its break into an empty buffer: counted once, and the buffer emptied. */
  lemma ReadWhole(line: string, extract: string -> Option<string>, c: string, full: string, emitted: seq<string>)
    requires Carries(line, extract, c)
    ensures Read(Decoder("", full, emitted), line + "\n", extract) == Decoder("", full + c, emitted + [full + c])
  {
    LineBreaks(line);
    ScanCarrier(line, extract, c, full, emitted);
    assert "" + (line + "\n") == line + "\n";
  }

  // ---------------------------------------------------------------------------
  // One chat turn
  // ---------------------------------------------------------------------------

  /** What the response body gives: no reader, or the chunks read, then either the end or a read error. */
  datatype StreamBody = NoReader | Body(chunks: seq<string>, breaks: bool)

  /** What `fetch("/api/chat", ...)` gives: a thrown error (network, or the 30 s abort), or a response. */
  datatype ApiOutcome = FetchFails | Responded(ok: bool, body: StreamBody)

  /**
   * The inner `try`: the reply it settles on (`None` when it throws) and the arguments it
   * passed to `onChunk` on the way.
   */
  datatype Attempt = Attempt(reply: Option<string>, emitted: seq<string>)

  function TryStream(api: ApiOutcome, extract: string -> Option<string>): Attempt {
    match api
    case FetchFails => Attempt(None, [])
    case Responded(ok, body) =>
      if !ok then Attempt(None, [])
      else
        match body
        case NoReader => Attempt(None, [])
        case Body(chunks, breaks) =>
          var d := Decode(chunks, extract);
          Attempt(if breaks || IsBlank(d.full) then None else Some(d.full), d.emitted)
  }

  /** The reply of a turn: the streamed text, or the picked emergency reply when the attempt threw. */
  function Reply(api: ApiOutcome, extract: string -> Option<string>, pick: nat): string
    requires pick < |EmergencyFallbackResponses|
  {
    match TryStream(api, extract).reply
    case Some(text) => text
    case None => EmergencyFallbackResponses[pick]
  }

  /** Every argument `onChunk` receives during the inner `try`, in order. */
  function Chunks(api: ApiOutcome, extract: string -> Option<string>, pick: nat): seq<string>
    requires pick < |EmergencyFallbackResponses|
  {
    var a := TryStream(api, extract);
    if a.reply.Some? then a.emitted else a.emitted + [EmergencyFallbackResponses[pick]]
  }

  /**
   * The reply is either a streamed text that is not blank or one of the emergency replies,
   * and the last call of `onChunk` always carries it.
   */
  lemma ReplyIsLastChunk(api: ApiOutcome, extract: string -> Option<string>, pick: nat)
    requires pick < |EmergencyFallbackResponses|
    ensures var reply, chunks := Reply(api, extract, pick), Chunks(api, extract, pick);
      && chunks != [] && chunks[|chunks| - 1] == reply
      && (reply in EmergencyFallbackResponses || !IsBlank(reply))
      && (TryStream(api, extract).reply.None? ==> reply == EmergencyFallbackResponses[pick])
  {
    if api.Responded? && api.ok && api.body.Body? {
      DecodeEmissions(api.body.chunks, extract);
    }
  }

  /**
   * The fallback-after-partial-output quirk: when the stream breaks after one piece `c`, the
   * emergency reply follows it in a second `onChunk` call and is what gets saved, though it
   * does not extend `c` (unless `c` happens to start it).
   */
  lemma FallbackAfterPartialOutput(line: string, extract: string -> Option<string>, c: string, pick: nat)
    requires Carries(line, extract, c) && pick < |EmergencyFallbackResponses|
    ensures var api := Responded(true, Body([line + "\n"], true));
      && Chunks(api, extract, pick) == [c, EmergencyFallbackResponses[pick]]
      && Reply(api, extract, pick) == EmergencyFallbackResponses[pick]
    ensures c[0] != 'I' && c[0] != 'T' ==> !(c <= EmergencyFallbackResponses[pick])
  {
    DecodeOne(line + "\n", extract);
    ReadWhole(line, extract, c, "", []);
    assert "" + c == c && [] + [c] == [c];
    FallbackInitials(pick);
  }

  /** Each emergency reply starts with "I" or "T". */
  lemma FallbackInitials(pick: nat)
    requires pick < |EmergencyFallbackResponses|
    ensures EmergencyFallbackResponses[pick][0] == 'I' || EmergencyFallbackResponses[pick][0] == 'T'
  {
    var r := EmergencyFallbackResponses[pick];
    if pick == 1 {
      assert r[0] == 'T';
    } else {
      assert r[0] == 'I';
    }
  }

  /** `processStreamResponse`: the decoded text, or `None` when there is no reader or a read throws. */
  method ProcessStreamResponse(body: StreamBody, extract: string -> Option<string>)
    returns (result: Option<string>, emitted: seq<string>)
    ensures body.NoReader? ==> result.None? && emitted == []
    ensures body.Body? ==>
      && emitted == Decode(body.chunks, extract).emitted
      && result == (if body.breaks then None else Some(Decode(body.chunks, extract).full))
  {
    if body.NoReader? {
      return None, [];
    }
    var fullResponse;
    fullResponse, emitted := DecodeReads(body.chunks, extract);
    result := if body.breaks then None else Some(fullResponse);
  }

  /** The inner `try` of `getStreamingResponse`: the request, the stream, and the emergency reply. */
  method InnerTry(api: ApiOutcome, extract: string -> Option<string>, pick: nat)
    returns (fullResponse: string, chunks: seq<string>)
    requires pick < |EmergencyFallbackResponses|
    ensures fullResponse == Reply(api, extract, pick)
    ensures chunks == Chunks(api, extract, pick)
  {
    ghost var attempt := TryStream(api, extract);
    var settled: Option<string> := None;
    var emitted := [];
    if api.Responded? && api.ok {
      var result;
      result, emitted := ProcessStreamResponse(api.body, extract);
      if result.Some? && !IsBlank(result.value) {
        settled := result;
      }
    }
    assert settled == attempt.reply && emitted == attempt.emitted;
    if settled.Some? {
      fullResponse, chunks := settled.value, emitted;
    } else {
      fullResponse := EmergencyFallbackResponses[pick];
      chunks := emitted + [fullResponse];
    }
  }

  /** The message ids and clock readings one turn draws. */
  datatype Fresh = Fresh(
    userId: string, userTime: int,
    aiId: string, aiTime: int,
    retryUserId: string, retryUserTime: int,
    retryAiId: string, retryAiTime: int)

  /** The two saved messages a turn returns. */
  datatype Exchange = Exchange(userMessage: ChatMessage, aiMessage: ChatMessage)

  function ErrorOf<T>(r: Result<T, string>): Option<string> {
    match r
    case Success(_) => None
    case Failure(e) => Some(e)
  }

  /** The message of the caught error, or "Unknown error" when it is not an `Error`. */
  function ErrorText(error: Option<string>): string {
    match error
    case Some(message) => message
    case None => "Unknown error"
  }

  /**
   * The outer `catch`: save the user message again and the last-resort reply, and show the
   * reply only once both are saved; otherwise fail with the original error's message.
   */
  method Recover(store: Store, chatId: string, userMessage: string, error: Option<string>, draws: Fresh)
    returns (r: Result<Exchange, string>, chunks: seq<string>)
    requires store.Valid()
    modifies store
    ensures store.Valid() && store.available == old(store.available)
    ensures r.Success? <==> old(store.GetChatById(chatId)).Some?
    ensures r.Failure? ==> r.error == FailurePrefix + ErrorText(error) && chunks == [] && unchanged(store)
    ensures r.Success? ==>
      && chunks == [LastResortResponse]
      && r.value == Exchange(
           ChatMessage(draws.retryUserId, userMessage, "user", draws.retryUserTime),
           ChatMessage(draws.retryAiId, LastResortResponse, "assistant", draws.retryAiTime))
      && store.GetChatById(chatId)
         == Some(AppendMessage(AppendMessage(old(store.GetChatById(chatId)).value, r.value.userMessage), r.value.aiMessage))
  {
    var savedUser := SaveUserMessage(store, chatId, userMessage, draws.retryUserId, draws.retryUserTime);
    if savedUser.Failure? {
      return Failure(FailurePrefix + ErrorText(error)), [];
    }
    var savedAI := SaveAIMessage(store, chatId, LastResortResponse, draws.retryAiId, draws.retryAiTime);
    if savedAI.Failure? {
      return Failure(FailurePrefix + ErrorText(error)), [];
    }
    r := Success(Exchange(savedUser.value, savedAI.value));
    chunks := [LastResortResponse];
  }

  /**
   * `getStreamingResponse`: save the user message, post the formatted history, stream the
   * reply (or fall back), save the reply. Returns the exchange, the messages posted (none
   * when the turn fails before posting) and every argument passed to `onChunk`.
   *
   * Nothing else writes the store while a turn runs, so the only error that reaches the
   * outer `catch` is the chat not being found, and then the retry fails for the same reason:
   * the last-resort reply is never shown.
   */
  method GetStreamingResponse(
    store: Store, chatId: string, userMessage: string, previous: seq<HistoryEntry>,
    api: ApiOutcome, extract: string -> Option<string>, pick: nat, draws: Fresh)
    returns (r: Result<Exchange, string>, sent: seq<ApiMessage>, chunks: seq<string>)
    requires store.Valid() && pick < |EmergencyFallbackResponses|
    modifies store
    ensures store.Valid() && store.available == old(store.available)
    ensures r.Success? <==> old(store.GetChatById(chatId)).Some?
    ensures r.Failure? ==>
      && r.error == FailurePrefix + NotFoundMessage(chatId)
      && sent == [] && chunks == [] && unchanged(store)
    ensures r.Success? ==>
      && sent == Formatted(previous, userMessage)
      && chunks == Chunks(api, extract, pick)
      && r.value == Exchange(
           ChatMessage(draws.userId, userMessage, "user", draws.userTime),
           ChatMessage(draws.aiId, Reply(api, extract, pick), "assistant", draws.aiTime))
      && store.GetChatById(chatId)
         == Some(AppendMessage(AppendMessage(old(store.GetChatById(chatId)).value, r.value.userMessage), r.value.aiMessage))
  {
    sent, chunks := [], [];
    var thrown: Option<string>;
    var savedUser := SaveUserMessage(store, chatId, userMessage, draws.userId, draws.userTime);
    if savedUser.Success? {
      sent := Formatted(previous, userMessage);
      var fullResponse;
      fullResponse, chunks := InnerTry(api, extract, pick);
      var savedAI := SaveAIMessage(store, chatId, fullResponse, draws.aiId, draws.aiTime);
      if savedAI.Success? {
        return Success(Exchange(savedUser.value, savedAI.value)), sent, chunks;
      }
      thrown := ErrorOf(savedAI);
    } else {
      thrown := ErrorOf(savedUser);
    }
    var recovered;
    r, recovered := Recover(store, chatId, userMessage, thrown, draws);
    chunks := chunks + recovered;
  }
}
