/** The event stream between the chat endpoint and the widget: a simplified
    subset of the `text/event-stream` format of the HTML Living Standard
    (section 9.2, "Server-sent events"), in which every event is a single
    `data: <json>` line followed by a blank line. */
module Wire {
  import opened Strings
  import opened Js

  /** `metadata` of a terminal event. */
  datatype Metadata = Metadata(suggestedQuestions: Option<seq<String>>, images: Option<seq<String>>)

  /** The fields of an event's JSON object that either side reads. */
  datatype Payload = Payload(content: Option<String>, finished: bool, error: bool, metadata: Option<Metadata>)

  /** `{ content }` */
  function ContentEvent(c: String): Payload {
    Payload(Some(c), false, false, None)
  }

  /** `{ finished: true, metadata: { suggestedQuestions } }` */
  function TerminalEvent(suggested: seq<String>): Payload {
    Payload(None, true, false, Some(Metadata(Some(suggested), None)))
  }

  /** `{ finished: true, error: true }` */
  function ErrorTerminalEvent(): Payload {
    Payload(None, true, true, None)
  }

  /** The content the events carry, event by event, run together. */
  function StreamedText(events: seq<Payload>): String {
    if events == [] then []
    else (if events[0].content.Some? then events[0].content.value else []) + StreamedText(events[1..])
  }

  lemma {:induction false} StreamedTextAppend(a: seq<Payload>, b: seq<Payload>)
    ensures StreamedText(a + b) == StreamedText(a) + StreamedText(b)
  {
    if a != [] {
      assert (a + b)[1..] == a[1..] + b;
      StreamedTextAppend(a[1..], b);
    } else {
      assert a + b == b;
    }
  }

  /** `JSON.stringify` on the server and `JSON.parse` on the client, seen
      through the fields above. */
  datatype Codec = Codec(encode: Payload -> String, parse: String -> Option<Payload>)

  /** Parsing reads back what was encoded, and an encoding never holds a raw
      line feed (`JSON.stringify` escapes it). */
  ghost predicate SoundCodec(codec: Codec) {
    forall p :: codec.parse(codec.encode(p)) == Some(p) && '\n' !in codec.encode(p)
  }

  const DataPrefix: String := "data: "
  const EventEnd: String := "\n\n"

  /** `res.write(`data: ${JSON.stringify(p)}\n\n`)` */
  function Frame(codec: Codec, p: Payload): String {
    DataPrefix + codec.encode(p) + EventEnd
  }

  /** The bytes of a sequence of events, in order. */
  function Frames(codec: Codec, events: seq<Payload>): String {
    if events == [] then [] else Frame(codec, events[0]) + Frames(codec, events[1..])
  }

  /** The data lines of a stream: what splitting the bytes on blank lines
      yields, without the empty trailing piece. */
  function Lines(codec: Codec, events: seq<Payload>): (r: seq<String>)
    ensures |r| == |events|
    ensures forall i :: 0 <= i < |events| ==> r[i] == DataPrefix + codec.encode(events[i])
  {
    if events == [] then [] else [DataPrefix + codec.encode(events[0])] + Lines(codec, events[1..])
  }

  /** Splitting a stream on blank lines gives back one line per event, then an
      empty piece. */
  lemma {:induction false} SplitFrames(codec: Codec, events: seq<Payload>)
    requires SoundCodec(codec)
    ensures Split(Frames(codec, events), EventEnd) == Lines(codec, events) + [[]]
  {
    if events == [] {
      assert Frames(codec, events) == [];
    } else {
      var line := DataPrefix + codec.encode(events[0]);
      assert '\n' !in codec.encode(events[0]);
      assert '\n' !in line by {
        assert line == DataPrefix + codec.encode(events[0]);
        forall i | 0 <= i < |line| ensures line[i] != '\n' {
          if i >= |DataPrefix| {
            assert line[i] == codec.encode(events[0])[i - |DataPrefix|];
          }
        }
      }
      assert Frames(codec, events) == line + EventEnd + Frames(codec, events[1..]);
      SplitAfterPiece(line, EventEnd, Frames(codec, events[1..]));
      SplitFrames(codec, events[1..]);
    }
  }

  /** The inverse of `Frame`: `line.startsWith('data: ')` then `JSON.parse`
      of the rest; `None` for a line that is ignored. */
  function Decode(codec: Codec, line: String): Option<Payload> {
    if StartsWith(line, DataPrefix) then codec.parse(line[|DataPrefix|..]) else None
  }

  /** Decoding a framed line gives back the event. */
  lemma DecodeFrame(codec: Codec, p: Payload)
    requires SoundCodec(codec)
    ensures Decode(codec, DataPrefix + codec.encode(p)) == Some(p)
  {
    var line := DataPrefix + codec.encode(p);
    assert line[..|DataPrefix|] == DataPrefix;
    assert line[|DataPrefix|..] == codec.encode(p);
  }
}
