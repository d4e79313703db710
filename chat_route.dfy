/**
 * The completion endpoint (app/api/chat/route.ts): request validation, the upstream probe,
 * the conversation text handed to the hosted model, and the two server-sent-event streams
 * it answers with: the live relay of the model's text and the word-by-word fallback.
 *
 * The hosted model is an oracle (`Upstream`): whether a client can be built, whether the
 * default model and each named model answer, whether the streaming call can be set up, and
 * the text pieces the live stream yields for the conversation text it is given. `Math.random()` is the index `pick`. Streams are
 * the complete list of frames they enqueue; the 100 ms pacing and headers are not modelled.
 */
module ChatRoute {
  import opened Wrappers
  import opened Strings

  /** The system prompt prefixed to every conversation sent to the hosted model. */
  const SystemPrompt :=
    "You are Serenify, an empathetic and supportive "
    + "AI mental health assistant.\n"
    + "\n"
    + "Your primary goal is to provide emotional "
    + "support, active listening, and helpful guidance "
    + "to users who may be experiencing various mental "
    + "health challenges.\n"
    + "\n"
    + "Guidelines:\n"
    + "- Be warm, compassionate, and non-judgmental in "
    + "all interactions\n"
    + "- Practice active listening by acknowledging "
    + "feelings and experiences\n"
    + "- Ask thoughtful follow-up questions to better "
    + "understand the user's situation\n"
    + "- Provide evidence-based coping strategies and "
    + "techniques when appropriate\n"
    + "- Encourage healthy habits related to sleep, "
    + "exercise, nutrition, and social connection\n"
    + "- Recognize your limitations and never claim to "
    + "replace professional mental health care\n"
    + "- If someone appears to be in crisis, gently "
    + "suggest professional resources\n"
    + "- Maintain a conversational, friendly tone "
    + "while remaining respectful and professional\n"
    + "- Respect privacy and confidentiality\n"
    + "- Focus on empowerment and building resilience\n"
    + "- Keep responses concise but meaningful, "
    + "typically 2-4 sentences\n"
    + "- Use a warm, supportive tone that feels like "
    + "talking to a caring friend\n"
    + "\n"
    + "Remember that your role is to be supportive, "
    + "not to diagnose or treat mental health "
    + "conditions. Always encourage users to seek "
    + "professional help for persistent or severe "
    + "mental health concerns.\n"
    + "\n"
    + "Please respond as Serenify would, with empathy "
    + "and care."

  /** The canned replies of the fallback stream, one picked at random. */
  const FallbackResponses: seq<string> := [
    "I'm here to listen and support you. How are you "
      + "feeling today? I want to understand what's on "
      + "your mind.",
    "Thank you for reaching out to me. Your feelings "
      + "are valid, and I'm here to help you work "
      + "through whatever you're experiencing.",
    "I can sense that you might be going through "
      + "something difficult. Would you like to share "
      + "more about how you're feeling?",
    "It takes courage to reach out for support. I'm "
      + "here to listen without judgment and help you "
      + "explore your thoughts and feelings.",
    "I'm glad you're here. Sometimes talking through "
      + "our experiences can help us gain new "
      + "perspectives. What would you like to discuss?",
    "Your mental health matters, and I'm here to "
      + "support you. What's been weighing on your mind "
      + "lately?",
    "I want to create a safe space for you to "
      + "express yourself. How can I best support you "
      + "today?",
    "Thank you for trusting me with your thoughts. "
      + "I'm here to listen and help you navigate "
      + "whatever you're facing."
  ]

  /** The models tried, in order, after the default model fails the probe. */
  const ModelNames: seq<string> := [
    "gemini-1.5-flash",
    "gemini-1.5-pro",
    "gemini-pro",
    "models/gemini-1.5-flash",
    "models/gemini-1.5-pro"
  ]

  const InvalidRequestError := "Invalid request format. Messages array is required."
  const ConversationHeader := SystemPrompt + "\n\nConversation:\n"
  const ReplyCue := "Serenify:"

  // ---------------------------------------------------------------------------
  // Event-stream framing: `data: ${JSON.stringify(chunk)}\n\n`
  // ---------------------------------------------------------------------------

  const DataPrefix := "data: "
  const DoneMarker := "[DONE]"
  const DoneFrame := DataPrefix + DoneMarker + "\n\n"

  function HexDigit(n: nat): (c: char)
    requires n < 16
    ensures c != '\n'
  {
    if n < 10 then ('0' as int + n) as char else ('a' as int + n - 10) as char
  }

  /** How `JSON.stringify` writes one character inside a string literal. */
  function JsonEscape(c: char): (r: string)
    ensures r != [] && '\n' !in r
  {
    if c == '"' then "\\\""
    else if c == '\\' then "\\\\"
    else if c == '\U{0008}' then "\\b"
    else if c == '\t' then "\\t"
    else if c == '\n' then "\\n"
    else if c == '\U{000C}' then "\\f"
    else if c == '\r' then "\\r"
    else if c < ' ' then "\\u00" + [HexDigit(c as int / 16), HexDigit(c as int % 16)]
    else [c]
  }

  function JsonEscapeAll(s: string): (r: string)
    ensures '\n' !in r
  {
    if s == [] then "" else JsonEscape(s[0]) + JsonEscapeAll(s[1..])
  }

  /** `JSON.stringify(s)` for a string: quoted and escaped, so never holding a raw line break. */
  function JsonQuote(s: string): (r: string)
    ensures '\n' !in r && |r| >= 2 && r[0] == '"'
  {
    "\"" + JsonEscapeAll(s) + "\""
  }

  /** `JSON.stringify({ choices: [{ delta: { content } }] })`. */
  function ChunkJson(content: string): (j: string)
    ensures '\n' !in j
    ensures j != [] && j[0] == '{' && j[|j| - 1] == '}'
    ensures j != DoneMarker
  {
    "{\"choices\":[{\"delta\":{\"content\":" + JsonQuote(content) + "}}]}"
  }

  /** One event carrying `content`: the data prefix, a one-line JSON payload, a blank line. */
  function ContentFrame(content: string): string {
    DataPrefix + ChunkJson(content) + "\n\n"
  }

  function ContentFrames(contents: seq<string>): (frames: seq<string>)
    ensures |frames| == |contents|
    ensures forall i :: 0 <= i < |contents| ==> frames[i] == ContentFrame(contents[i])
  {
    seq(|contents|, i requires 0 <= i < |contents| => ContentFrame(contents[i]))
  }

  /** One more piece of content adds its frame at the end. */
  lemma ContentFramesSnoc(contents: seq<string>, x: string)
    ensures ContentFrames(contents + [x]) == ContentFrames(contents) + [ContentFrame(x)]
  {
  }

  // ---------------------------------------------------------------------------
  // The fallback stream
  // ---------------------------------------------------------------------------

  /** What the fallback stream sends for each word: the word followed by one space. */
  function Spaced(words: seq<string>): (r: seq<string>)
    ensures |r| == |words|
    ensures forall i :: 0 <= i < |words| ==> r[i] == words[i] + " "
  {
    seq(|words|, i requires 0 <= i < |words| => words[i] + " ")
  }

  /** Every frame the fallback stream enqueues for `response`, ending with the done marker. */
  function FallbackFrames(response: string): seq<string> {
    ContentFrames(Spaced(Split(response, ' '))) + [DoneFrame]
  }

  /**
   * `createFallbackStream`: each timer tick sends the next word, and the tick after the
   * last word sends the done marker and closes the stream.
   */
  method CreateFallbackStream(pick: nat) returns (response: string, frames: seq<string>)
    requires pick < |FallbackResponses|
    ensures response == FallbackResponses[pick]
    ensures frames == FallbackFrames(response)
  {
    response := FallbackResponses[pick];
    frames := StreamWords(response);
  }

  /** The timer loop of the fallback stream, for any response text. */
  method StreamWords(response: string) returns (frames: seq<string>)
    ensures frames == FallbackFrames(response)
  {
    var words := Split(response, ' ');
    var wordIndex := 0;
    var closed := false;
    frames := [];
    while !closed
      invariant 0 <= wordIndex <= |words|
      invariant !closed ==> frames == ContentFrames(Spaced(words[..wordIndex]))
      invariant closed ==> frames == FallbackFrames(response)
      decreases |words| - wordIndex, !closed
    {
      if wordIndex < |words| {
        assert Spaced(words[..wordIndex + 1]) == Spaced(words[..wordIndex]) + [words[wordIndex] + " "];
        ContentFramesSnoc(Spaced(words[..wordIndex]), words[wordIndex] + " ");
        frames := frames + [ContentFrame(words[wordIndex] + " ")];
        wordIndex := wordIndex + 1;
      } else {
        assert words[..wordIndex] == words;
        frames := frames + [DoneFrame];
        closed := true;
      }
    }
  }

  /** The texts the fallback frames carry add up to the response followed by one space. */
  lemma {:induction false} SpacedConcat(words: seq<string>)
    requires |words| >= 1
    ensures Concat(Spaced(words)) == Join(words, " ") + " "
  {
    if |words| > 1 {
      SpacedConcat(words[1..]);
      assert Spaced(words)[1..] == Spaced(words[1..]);
    }
  }

  lemma FallbackCarriesResponse(response: string)
    ensures Concat(Spaced(Split(response, ' '))) == response + " "
  {
    SpacedConcat(Split(response, ' '));
    JoinSplit(response, ' ');
  }

  // ---------------------------------------------------------------------------
  // The live relay
  // ---------------------------------------------------------------------------

  /** The text pieces the hosted model's stream yields, and whether it then throws. */
  datatype LiveOutcome = LiveOutcome(texts: seq<string>, fails: bool)

  /** Every frame the live relay enqueues: one per non-empty piece, then the done marker unless the stream threw. */
  function LiveFrames(live: LiveOutcome): seq<string> {
    ContentFrames(NonEmpty(live.texts)) + (if live.fails then [] else [DoneFrame])
  }

  /** `texts` without the empty pieces, in order. */
  function NonEmpty(texts: seq<string>): (r: seq<string>)
    ensures forall i :: 0 <= i < |r| ==> r[i] != ""
    ensures |r| <= |texts|
  {
    if texts == [] then []
    else NonEmpty(texts[..|texts| - 1]) + (if texts[|texts| - 1] == "" then [] else [texts[|texts| - 1]])
  }

  /** Dropping the empty pieces does not change the text they add up to. */
  lemma {:induction false} NonEmptyConcat(texts: seq<string>)
    ensures Concat(NonEmpty(texts)) == Concat(texts)
  {
    if texts != [] {
      var init, last := texts[..|texts| - 1], texts[|texts| - 1];
      assert texts == init + [last];
      NonEmptyConcat(init);
      ConcatAppend(NonEmpty(init), if last == "" then [] else [last]);
      ConcatAppend(init, [last]);
    }
  }

  /**
   * `createGeminiStream`: one frame per non-empty piece, then the done marker; when the
   * model's stream throws, the relay errors the response stream instead of finishing it.
   */
  method CreateGeminiStream(live: LiveOutcome) returns (frames: seq<string>, errored: bool)
    ensures frames == LiveFrames(live)
    ensures errored == live.fails
  {
    frames := [];
    for i := 0 to |live.texts|
      invariant frames == ContentFrames(NonEmpty(live.texts[..i]))
    {
      var chunkText := live.texts[i];
      LiveStep(live.texts, i);
      if chunkText != "" {
        frames := frames + [ContentFrame(chunkText)];
      }
    }
    assert live.texts[..|live.texts|] == live.texts;
    if live.fails {
      errored := true;
    } else {
      frames := frames + [DoneFrame];
      errored := false;
    }
  }

  /** One step of the loop of `CreateGeminiStream`: piece `i` adds its frame unless it is empty. */
  lemma LiveStep(texts: seq<string>, i: nat)
    requires i < |texts|
    ensures ContentFrames(NonEmpty(texts[..i + 1]))
         == ContentFrames(NonEmpty(texts[..i])) + (if texts[i] == "" then [] else [ContentFrame(texts[i])])
  {
    assert texts[..i + 1][..i] == texts[..i];
    if texts[i] != "" {
      ContentFramesSnoc(NonEmpty(texts[..i]), texts[i]);
    } else {
      assert NonEmpty(texts[..i + 1]) == NonEmpty(texts[..i]);
    }
  }

  // ---------------------------------------------------------------------------
  // The probe
  // ---------------------------------------------------------------------------

  datatype Upstream = Upstream(
    clientOk: bool,             // the API key is present, so a client can be built
    defaultOk: bool,            // the default model answers the test prompt
    nameOk: string -> bool,     // the model of that name answers the test prompt
    setupOk: bool,              // the model handle and the streaming call are obtained
    stream: string -> LiveOutcome) // what the streaming call on a given prompt then yields

  predicate ProbeSucceeds(up: Upstream) {
    up.clientOk && (up.defaultOk || exists i :: 0 <= i < |ModelNames| && up.nameOk(ModelNames[i]))
  }

  /**
   * `testGeminiConnection`: the default model first; when it fails, the named models in order,
   * stopping at the first that answers. `tried` lists the named models asked.
   */
  method TestGeminiConnection(up: Upstream) returns (ok: bool, tried: seq<string>)
    ensures ok <==> ProbeSucceeds(up)
    ensures tried <= ModelNames
    ensures !up.clientOk || up.defaultOk ==> tried == []
    ensures forall j :: 0 <= j < |tried| - 1 ==> !up.nameOk(tried[j])
    ensures up.clientOk && !up.defaultOk && ok ==> tried != [] && up.nameOk(tried[|tried| - 1])
    ensures up.clientOk && !up.defaultOk && !ok ==> tried == ModelNames
  {
    if !up.clientOk {
      // building the client throws in the probe and again in its handler
      return false, [];
    }
    if up.defaultOk {
      return true, [];
    }
    tried := [];
    var i := 0;
    while i < |ModelNames|
      invariant 0 <= i <= |ModelNames|
      invariant tried == ModelNames[..i]
      invariant forall j :: 0 <= j < i ==> !up.nameOk(ModelNames[j])
    {
      tried := tried + [ModelNames[i]];
      if up.nameOk(ModelNames[i]) {
        return true, tried;
      }
      i := i + 1;
    }
    return false, tried;
  }

  // ---------------------------------------------------------------------------
  // The conversation text
  // ---------------------------------------------------------------------------

  /** One element of the request's `messages` array. */
  datatype RequestEntry = NotAnObject | Entry(role: string, content: string)

  function Speaker(role: string): string {
    if role == "user" then "Human" else "Serenify"
  }

  /** The line an entry adds: none for a non-object or blank content. */
  function ConversationLine(e: RequestEntry): string {
    match e
    case NotAnObject => ""
    case Entry(role, content) =>
      var c := Trim(content);
      if c == "" then "" else Speaker(role) + ": " + c + "\n"
  }

  function ConversationLines(messages: seq<RequestEntry>): string {
    if messages == [] then ""
    else ConversationLines(messages[..|messages| - 1]) + ConversationLine(messages[|messages| - 1])
  }

  /** The lines of a conversation followed by one more entry. */
  lemma ConversationLinesSnoc(prefix: seq<RequestEntry>, e: RequestEntry)
    ensures ConversationLines(prefix + [e]) == ConversationLines(prefix) + ConversationLine(e)
  {
    assert (prefix + [e])[..|prefix|] == prefix;
  }

  /** The conversation text of two runs of entries is the text of the first, then of the second. */
  lemma {:induction false} ConversationLinesAppend(a: seq<RequestEntry>, b: seq<RequestEntry>)
    ensures ConversationLines(a + b) == ConversationLines(a) + ConversationLines(b)
    decreases |b|
  {
    if b != [] {
      var init, last := b[..|b| - 1], b[|b| - 1];
      assert (a + b)[..|a + b| - 1] == a + init;
      ConversationLinesAppend(a, init);
      AppendAssoc(ConversationLines(a), ConversationLines(init), ConversationLine(last));
    } else {
      assert a + b == a;
    }
  }

  /** Entries that add no line (non-objects, blank contents) leave the text as header and cue. */
  lemma {:induction false} SilentEntries(messages: seq<RequestEntry>)
    requires forall i :: 0 <= i < |messages| ==> messages[i].NotAnObject? || IsBlank(messages[i].content)
    ensures ConversationLines(messages) == ""
  {
    if messages != [] {
      SilentEntries(messages[..|messages| - 1]);
    }
  }

  /** The prompt handed to the streaming call for the request's entries. */
  function Prompt(messages: seq<RequestEntry>): string {
    ConversationHeader + ConversationLines(messages) + ReplyCue
  }

  /** The conversation text: system prompt, header, one line per speaking entry, reply cue. */
  method BuildConversationText(messages: seq<RequestEntry>) returns (text: string)
    ensures text == ConversationHeader + ConversationLines(messages) + ReplyCue
  {
    text := AppendLines(ConversationHeader, messages);
    text := text + ReplyCue;
  }

  /** The loop of `BuildConversationText`, appending each entry's line to the text so far. */
  method AppendLines(start: string, messages: seq<RequestEntry>) returns (text: string)
    ensures text == start + ConversationLines(messages)
  {
    text := start;
    assert start + ConversationLines(messages[..0]) == start;
    for i := 0 to |messages|
      invariant text == start + ConversationLines(messages[..i])
    {
      var msg := messages[i];
      AppendLineStep(start, messages, i);
      if msg.Entry? {
        var role := Speaker(msg.role);
        var content := Trim(msg.content);
        if content != "" {
          text := text + (role + ": " + content + "\n");
        }
      }
    }
    assert messages[..|messages|] == messages;
  }

  /** One step of the loop of `AppendLines`: the text grows by the line of entry `i`. */
  lemma AppendLineStep(start: string, messages: seq<RequestEntry>, i: nat)
    requires i < |messages|
    ensures start + ConversationLines(messages[..i + 1])
         == (start + ConversationLines(messages[..i])) + ConversationLine(messages[i])
  {
    assert messages[..i + 1] == messages[..i] + [messages[i]];
    ConversationLinesSnoc(messages[..i], messages[i]);
  }

  // ---------------------------------------------------------------------------
  // POST and OPTIONS
  // ---------------------------------------------------------------------------

  /** The request's `messages` field, after `request.json()`. */
  datatype MessagesField = Missing | NotAnArray | Items(items: seq<RequestEntry>)

  /**
   * A request whose body cannot be read for its field, or the field it carries. `Unparsable`
   * is a body that is not JSON and also one that is the JSON `null`: destructuring `null`
   * throws, and the outer `catch` answers with the fallback stream.
   */
  datatype Request = Unparsable | Parsed(messages: MessagesField)

  /** Which stream backs a 200 answer: the canned reply `text`, or the hosted model's relay. */
  datatype Origin = Fallback(text: string) | Live

  datatype Response =
    | Json(status: int, error: string)
    | EventStream(status: int, origin: Origin, frames: seq<string>, errored: bool)
    | Preflight(status: int, allowMethods: string)

  predicate ValidMessages(m: MessagesField) {
    m.Items? && |m.items| > 0
  }

  /** The 200 answer streaming the canned reply `pick`. */
  predicate IsFallbackAnswer(resp: Response, pick: nat)
    requires pick < |FallbackResponses|
  {
    resp == EventStream(200, Fallback(FallbackResponses[pick]), FallbackFrames(FallbackResponses[pick]), false)
  }

  /** The 200 answer relaying the hosted model's stream. */
  predicate IsLiveAnswer(resp: Response, live: LiveOutcome) {
    resp == EventStream(200, Live, LiveFrames(live), live.fails)
  }

  /**
   * `POST`: a 400 answer for a parsed, non-null body without a non-empty `messages` array;
   * the live relay of the conversation's prompt when the probe succeeds and the streaming call
   * is set up; otherwise the fallback stream, including for a body that does not parse or is
   * `null`.
   */
  method Post(req: Request, up: Upstream, pick: nat) returns (resp: Response)
    requires pick < |FallbackResponses|
    ensures req.Parsed? && !ValidMessages(req.messages) ==> resp == Json(400, InvalidRequestError)
    ensures req.Parsed? && ValidMessages(req.messages) && ProbeSucceeds(up) && up.setupOk ==>
      IsLiveAnswer(resp, up.stream(Prompt(req.messages.items)))
    ensures req.Unparsable? || (ValidMessages(req.messages) && !(ProbeSucceeds(up) && up.setupOk)) ==>
      IsFallbackAnswer(resp, pick)
  {
    if req.Unparsable? {
      // any error outside the model calls: the fallback stream
      resp := FallbackAnswer(pick);
      return;
    }
    var messages := req.messages;
    if !ValidMessages(messages) {
      return Json(400, InvalidRequestError);
    }
    resp := AnswerConversation(messages.items, up, pick);
  }

  /** The part of `POST` after validation: probe, then the live relay or the fallback stream. */
  method AnswerConversation(items: seq<RequestEntry>, up: Upstream, pick: nat) returns (resp: Response)
    requires pick < |FallbackResponses|
    ensures ProbeSucceeds(up) && up.setupOk ==> IsLiveAnswer(resp, up.stream(Prompt(items)))
    ensures !(ProbeSucceeds(up) && up.setupOk) ==> IsFallbackAnswer(resp, pick)
  {
    var geminiWorking, _ := TestGeminiConnection(up);
    if !geminiWorking {
      resp := FallbackAnswer(pick);
      return;
    }
    var live := RelayConversation(items, up);
    if live.None? {
      // authentication, quota and model-not-found errors are told apart only in the log
      resp := FallbackAnswer(pick);
      return;
    }
    resp := live.value;
  }

  /**
   * The inner `try` of `POST`: obtain the model, build the conversation text, start the
   * streaming call and relay it. `None` stands for the `catch`, taken when setting up fails.
   */
  method RelayConversation(items: seq<RequestEntry>, up: Upstream) returns (r: Option<Response>)
    ensures r.Some? <==> up.setupOk
    ensures r.Some? ==> IsLiveAnswer(r.value, up.stream(Prompt(items)))
  {
    var conversationText := BuildConversationText(items);
    r := StartRelay(up, conversationText);
  }

  /** The streaming call on the conversation text `prompt` and the relay of what it yields. */
  method StartRelay(up: Upstream, prompt: string) returns (r: Option<Response>)
    ensures r.Some? <==> up.setupOk
    ensures r.Some? ==> IsLiveAnswer(r.value, up.stream(prompt))
  {
    if !up.setupOk {
      return None;
    }
    var resp := LiveAnswer(up.stream(prompt));
    r := Some(resp);
  }

  /** The 200 event-stream answer backed by the live relay. */
  method LiveAnswer(live: LiveOutcome) returns (resp: Response)
    ensures IsLiveAnswer(resp, live)
  {
    var frames, errored := CreateGeminiStream(live);
    resp := EventStream(200, Live, frames, errored);
  }

  /** The 200 event-stream answer backed by the fallback stream. */
  method FallbackAnswer(pick: nat) returns (resp: Response)
    requires pick < |FallbackResponses|
    ensures IsFallbackAnswer(resp, pick)
  {
    var text, frames := CreateFallbackStream(pick);
    resp := EventStream(200, Fallback(text), frames, false);
  }

  /** `OPTIONS`: an empty 200 answer to a CORS preflight, allowing POST and OPTIONS. */
  function Options(): (r: Response)
    ensures r.Preflight? && r.status == 200
    ensures r.allowMethods == "POST, OPTIONS"
  {
    Preflight(200, "POST, OPTIONS")
  }
}
