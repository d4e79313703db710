/**
 * The two ends of the event stream together: the frames the completion endpoint
 * (app/api/chat/route.ts) enqueues, read by the decoder of lib/chat-client.ts.
 *
 * When every read delivers exactly one frame, and parsing a frame's JSON payload gives back
 * the content it was built from, the decoder's response is the concatenation of the
 * contents: the fallback reply followed by one space, or the live relay's text.
 */
module StreamRoundTrip {
  import opened Wrappers
  import opened Strings
  import Route = ChatRoute
  import Client = ChatClient

  /** `JSON.parse` followed by `choices?.[0]?.delta?.content` inverts the endpoint's payload. */
  ghost predicate ParsesPayloads(extract: string -> Option<string>) {
    forall c :: extract(Route.ChunkJson(c)) == Some(c)
  }

  /** The first line of a content frame: the data prefix and the payload. */
  lemma FrameLine(c: string, extract: string -> Option<string>)
    requires ParsesPayloads(extract)
    ensures var line := Route.DataPrefix + Route.ChunkJson(c);
      && '\n' !in line
      && Route.ContentFrame(c) == line + "\n\n"
      && Client.IsDataLine(line)
      && Client.LineContent(line, extract) == c
  {
    var j := Route.ChunkJson(c);
    var line := Route.DataPrefix + j;
    assert '\n' !in Route.DataPrefix;
    assert line[|Client.DataPrefix|..] == j;
    TrimKeeps(j);
  }

  /** The first line of the done frame, whose payload is the done marker. */
  lemma DoneLine(extract: string -> Option<string>)
    ensures var line := Route.DataPrefix + Route.DoneMarker;
      && '\n' !in line
      && Route.DoneFrame == line + "\n\n"
      && Client.IsDataLine(line)
      && Client.LineContent(line, extract) == ""
  {
    var line := Route.DataPrefix + Route.DoneMarker;
    assert line[|Client.DataPrefix|..] == Route.DoneMarker;
    TrimKeeps(Route.DoneMarker);
  }

  /** A frame splits into its data line and two empty lines. */
  lemma FrameSplit(line: string)
    requires '\n' !in line
    ensures Split(line + "\n\n", '\n') == [line, "", ""]
  {
    SplitFirstLine(line, '\n', "\n");
    assert line + ['\n'] + "\n" == line + "\n\n";
    SplitBreakOnly();
  }

  /** The last line break of a frame is its last character. */
  lemma FrameLastBreak(line: string)
    ensures LastIndexOf(line + "\n\n", '\n') == |line| + 1
  {
  }

  lemma SplitBreakOnly()
    ensures Split("\n", '\n') == ["", ""]
  {
    SplitFirstLine("", '\n', "");
    assert "" + ['\n'] + "" == "\n";
    SplitNone("", '\n');
  }

  /** Scanning the three lines of a frame whose data line carries `c`. */
  lemma ScanFrame(line: string, c: string, extract: string -> Option<string>, s: Client.Scan)
    requires Client.IsDataLine(line) && Client.LineContent(line, extract) == c
    ensures Client.ScanLines(s, [line, "", ""], extract)
         == Client.Scan(s.full + c, if c == "" then s.emitted else s.emitted + [s.full + c], s.processed + 1)
  {
    var lines := [line, "", ""];
    var s1 := Client.ScanLine(s, line, extract);
    assert [line][..0] == [];
    assert Client.ScanLines(s, [line], extract) == s1;
    assert !Client.IsDataLine("");
    assert Client.ScanLine(s1, "", extract) == s1;
    assert [line, ""][..1] == [line];
    assert Client.ScanLines(s, [line, ""], extract) == s1;
    assert lines[..2] == [line, ""];
  }

  /** A read of one whole frame into an empty buffer adds its content and empties the buffer again. */
  lemma ReadFrame(d: Client.Decoder, line: string, c: string, extract: string -> Option<string>)
    requires d.buffer == ""
    requires '\n' !in line && Client.IsDataLine(line) && Client.LineContent(line, extract) == c
    ensures Client.Read(d, line + "\n\n", extract)
         == Client.Decoder("", d.full + c, if c == "" then d.emitted else d.emitted + [d.full + c])
  {
    var frame := line + "\n\n";
    assert d.buffer + frame == frame;
    FrameSplit(line);
    ScanFrame(line, c, extract, Client.Scan(d.full, d.emitted, 0));
    FrameRest(line);
  }

  /** Once a frame's lines are scanned, nothing of it stays in the buffer. */
  lemma FrameRest(line: string)
    ensures Client.NextBuffer(line + "\n\n", 1) == ""
  {
    FrameLastBreak(line);
  }

  /** A read of one content frame into an empty buffer adds the content it carries. */
  lemma ReadContentFrame(d: Client.Decoder, c: string, extract: string -> Option<string>)
    requires d.buffer == "" && ParsesPayloads(extract)
    ensures Client.Read(d, Route.ContentFrame(c), extract).buffer == ""
    ensures Client.Read(d, Route.ContentFrame(c), extract).full == d.full + c
  {
    FrameLine(c, extract);
    ReadFrame(d, Route.DataPrefix + Route.ChunkJson(c), c, extract);
  }

  /** Reading the content frames of `contents` one per read gives their concatenation. */
  lemma {:induction false} ContentFramesDecode(contents: seq<string>, extract: string -> Option<string>)
    requires ParsesPayloads(extract)
    ensures var d := Client.Decode(Route.ContentFrames(contents), extract);
      d.buffer == "" && d.full == Concat(contents)
  {
    if contents != [] {
      var init, last := contents[..|contents| - 1], contents[|contents| - 1];
      assert contents == init + [last];
      ConcatAppend(init, [last]);
      assert Concat([last]) == last + Concat([]);
      Route.ContentFramesSnoc(init, last);
      ContentFramesDecode(init, extract);
      Client.DecodeSnoc(Route.ContentFrames(init), Route.ContentFrame(last), extract);
      ReadContentFrame(Client.Decode(Route.ContentFrames(init), extract), last, extract);
    }
  }

  /** The content frames followed by the done frame, one per read: the done frame adds nothing. */
  lemma StreamDecode(contents: seq<string>, extract: string -> Option<string>)
    requires ParsesPayloads(extract)
    ensures var d := Client.Decode(Route.ContentFrames(contents) + [Route.DoneFrame], extract);
      d.buffer == "" && d.full == Concat(contents)
  {
    var frames := Route.ContentFrames(contents) + [Route.DoneFrame];
    ContentFramesDecode(contents, extract);
    Client.DecodeSnoc(Route.ContentFrames(contents), Route.DoneFrame, extract);
    DoneLine(extract);
    var d := Client.Decode(Route.ContentFrames(contents), extract);
    ReadFrame(d, Route.DataPrefix + Route.DoneMarker, "", extract);
  }

  /**
   * The fallback stream read one frame at a time: the client's response is the canned
   * reply followed by one space, the last text shown to the user.
   */
  lemma FallbackRoundTrip(response: string, extract: string -> Option<string>)
    requires ParsesPayloads(extract)
    ensures var d := Client.Decode(Route.FallbackFrames(response), extract);
      && d.full == response + " "
      && d.emitted != [] && d.emitted[|d.emitted| - 1] == response + " "
  {
    var frames := Route.FallbackFrames(response);
    StreamDecode(Route.Spaced(Split(response, ' ')), extract);
    Route.FallbackCarriesResponse(response);
    Client.DecodeEmissions(frames, extract);
  }

  /** The live relay, when the model's stream ends normally, read one frame at a time: its whole text. */
  lemma LiveRoundTrip(live: Route.LiveOutcome, extract: string -> Option<string>)
    requires ParsesPayloads(extract) && !live.fails
    ensures Client.Decode(Route.LiveFrames(live), extract).full == Concat(live.texts)
  {
    StreamDecode(Route.NonEmpty(live.texts), extract);
    Route.NonEmptyConcat(live.texts);
  }
}
