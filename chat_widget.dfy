/** The chat widget: the `useStreamingChat` hook (initial greeting and
    suggestions, sending a message and folding the event stream into the
    last message, feedback) and the component's send guards and position
    classes. The hook's and the component's state live in one object. */
module ChatWidget {
  import opened Strings
  import opened Js
  import opened Records
  import opened Wire
  import Persona
  import ChatHandler
  import Provider

  /** A message of the conversation as the widget holds it. */
  datatype Message = Message(sender: String, text: String, logId: Option<String>, feedbackGiven: bool,
                             images: Option<seq<String>>)

  function UserMessage(text: String): Message {
    Message("user", text, None, false, None)
  }

  function BotMessage(text: String): Message {
    Message("bot", text, None, false, None)
  }

  /** A suggestion as the state holds it: `{ suggested_question: { question } }`
      as the initial data writes them, or the bare string a terminal event
      carries. */
  datatype Suggestion = Wrapped(question: String) | Plain(text: String)

  const DefaultGreeting: String := "Hello! How can I assist you today?"
  const ErrorText: String := "Sorry, an error occurred."

  // ---------------------------------------------------------------------------
  // Initial data
  // ---------------------------------------------------------------------------

  /** A bot of the `/api/chatbots` listing, as the widget reads it.
      `aiQuestions` is `None` when `ai_generated_questions` is not an array;
      each element is `q?.suggested_question?.question`. */
  datatype ListedBot = ListedBot(uid: String, domain: Option<String>, aiQuestions: Option<seq<Option<String>>>)

  /** The greeting and default questions of the widget's domain `switch`. */
  datatype Greeting = Greeting(text: String, questions: seq<String>)

  const EcommerceGreeting: Greeting :=
    Greeting("Welcome to our store! I can help with product info, policies, and orders.",
             ["Tell me about your laptops", "What is the return policy?"])
  const TravelGreeting: Greeting :=
    Greeting("Adventure is calling! Where can I help you explore today?",
             ["Find me a beach vacation", "Show me deals for Japan"])
  const EducationGreeting: Greeting :=
    Greeting("Welcome to your learning space! What topic can I help you with?",
             ["What are the partner universities?", "Tell me about Stanford", "What are the tuition fees?"])

  predicate Readable(g: Greeting) {
    g.text != [] && forall i :: 0 <= i < |g.questions| ==> g.questions[i] != []
  }

  lemma DomainGreetingsReadable()
    ensures Readable(EcommerceGreeting) && Readable(TravelGreeting) && Readable(EducationGreeting)
  {
  }

  function DomainGreeting(domain: Option<String>): (g: Greeting)
    ensures Readable(g)
  {
    DomainGreetingsReadable();
    if domain == Some("E-commerce") then EcommerceGreeting
    else if domain == Some("Travel") then TravelGreeting
    else if domain == Some("Education") then EducationGreeting
    else Greeting(DefaultGreeting, [])
  }

  /** The extracted questions with the empty ones dropped. */
  function PresentQuestions(qs: seq<Option<String>>): (r: seq<String>)
    ensures |r| <= |qs|
    ensures forall q :: q in r ==> q != [] && Some(q) in qs
    ensures forall i :: 0 <= i < |qs| && Truthy(qs[i]) ==> qs[i].value in r
  {
    if qs == [] then []
    else (if Truthy(qs[0]) then [qs[0].value] else []) + PresentQuestions(qs[1..])
  }

  /** The questions keep the order of the generated list: extracting from a
      concatenation extracts from each part, in turn. */
  lemma {:induction false} PresentQuestionsOrder(a: seq<Option<String>>, b: seq<Option<String>>)
    ensures PresentQuestions(a + b) == PresentQuestions(a) + PresentQuestions(b)
  {
    if a == [] {
      assert a + b == b;
    } else {
      assert (a + b)[0] == a[0];
      assert (a + b)[1..] == a[1..] + b;
      PresentQuestionsOrder(a[1..], b);
    }
  }

  function Wrap(qs: seq<String>): (r: seq<Suggestion>)
    ensures |r| == |qs|
    ensures forall i :: 0 <= i < |qs| ==> r[i] == Wrapped(qs[i])
  {
    if qs == [] then [] else [Wrapped(qs[0])] + Wrap(qs[1..])
  }

  function ListedUid(b: ListedBot): String {
    b.uid
  }

  /** The first listed bot whose uid is `botId`, if any. */
  function FindBot(bots: seq<ListedBot>, botId: String): Option<ListedBot> {
    FindByUid(bots, ListedUid, botId)
  }

  /** What the initial-data effect leaves: the greeting message and the
      suggestions. */
  datatype Initial = Initial(messages: seq<Message>, suggestions: seq<Suggestion>)

  /** The initial-data effect, given the listing (`None` when the request
      fails: only the default greeting is set). A non-empty array of
      generated questions wins over the domain defaults, even when none of
      its entries holds a question. */
  function InitialData(listing: Option<seq<ListedBot>>, botId: String): (r: Initial)
    ensures |r.messages| == 1 && r.messages[0].sender == "bot" && r.messages[0].text != []
    ensures listing.None? ==> r == Initial([BotMessage(DefaultGreeting)], [])
    ensures listing.Some? ==>
              var bot := FindBot(listing.value, botId);
              var domain := if bot.Some? then bot.value.domain else None;
              && r.messages == [BotMessage(DomainGreeting(domain).text)]
              && (if bot.Some? && bot.value.aiQuestions.Some? && |bot.value.aiQuestions.value| > 0
                  then r.suggestions == Wrap(PresentQuestions(bot.value.aiQuestions.value))
                  else r.suggestions == Wrap(DomainGreeting(domain).questions))
  {
    if listing.None? then Initial([BotMessage(DefaultGreeting)], [])
    else
      var bot := FindBot(listing.value, botId);
      var greeting := DomainGreeting(if bot.Some? then bot.value.domain else None);
      var questions :=
        if bot.Some? && bot.value.aiQuestions.Some? && |bot.value.aiQuestions.value| > 0
        then PresentQuestions(bot.value.aiQuestions.value)
        else greeting.questions;
      Initial([BotMessage(greeting.text)], Wrap(questions))
  }

  /** A bot that is not in the listing, or has an unrecognised domain and no
      generated questions, gets the default greeting and no suggestions. */
  lemma UnknownDomainInitial(listing: seq<ListedBot>, botId: String)
    requires var bot := FindBot(listing, botId);
             bot.None? || (bot.value.aiQuestions.None? &&
                           bot.value.domain !in {Some("E-commerce"), Some("Travel"), Some("Education")})
    ensures InitialData(Some(listing), botId) == Initial([BotMessage(DefaultGreeting)], [])
  {
  }

  /** The widget's own Education defaults are not the ones the chat endpoint
      sends with its terminal event: three questions in another order
      against two. E-commerce and Travel agree. */
  lemma EducationDefaultsDiffer(freePrompt: Option<String>)
    ensures DomainGreeting(Some("Education")).questions
         != Persona.ResolvePersona(Some("Education"), freePrompt).suggestedQuestions
    ensures |DomainGreeting(Some("Education")).questions| == 3
    ensures DomainGreeting(Some("E-commerce")).questions
         == Persona.ResolvePersona(Some("E-commerce"), freePrompt).suggestedQuestions
    ensures DomainGreeting(Some("Travel")).questions
         == Persona.ResolvePersona(Some("Travel"), freePrompt).suggestedQuestions
  {
    assert |Persona.ResolvePersona(Some("Education"), freePrompt).suggestedQuestions| == 2;
  }

  // ---------------------------------------------------------------------------
  // Sending: the request
  // ---------------------------------------------------------------------------

  /** `currentMessages.length > 1 ? currentMessages.slice(1) : []`: the
      greeting is never sent back. */
  function HistoryToSend(messages: seq<Message>): (r: seq<Message>)
    ensures |messages| > 1 ==> |r| == |messages| - 1 && forall i :: 0 <= i < |r| ==> r[i] == messages[i + 1]
    ensures |messages| <= 1 ==> r == []
  {
    if |messages| > 1 then messages[1..] else []
  }

  /** The turns the endpoint reads out of the sent messages. */
  function Turns(messages: seq<Message>): (r: seq<Turn>)
    ensures |r| == |messages|
    ensures forall i :: 0 <= i < |messages| ==> r[i] == Turn(messages[i].sender, messages[i].text)
  {
    if messages == [] then [] else [Turn(messages[0].sender, messages[0].text)] + Turns(messages[1..])
  }

  /** The body `{ message, history, sessionId }` posted to the chat endpoint. */
  function ChatBody(text: String, messages: seq<Message>, sessionId: String): ChatHandler.ChatRequest {
    ChatHandler.ChatRequest(Some(text), Turns(HistoryToSend(messages)), Some(sessionId))
  }

  // ---------------------------------------------------------------------------
  // Sending: decoding the event stream
  // ---------------------------------------------------------------------------

  /** The payload a line contributes: those not starting with `data: `, and
      those whose JSON does not parse, contribute nothing. */
  function DecodeLine(codec: Codec, line: String): seq<Payload> {
    match Decode(codec, line)
    case Some(p) => [p]
    case None => []
  }

  /** The payloads of the lines of one chunk, in order. */
  function DecodeLines(codec: Codec, lines: seq<String>): seq<Payload> {
    if lines == [] then []
    else DecodeLines(codec, lines[..|lines| - 1]) + DecodeLine(codec, lines[|lines| - 1])
  }

  /** `chunk.split('\n\n')`, each piece decoded. */
  function DecodeChunk(codec: Codec, chunk: String): seq<Payload> {
    DecodeLines(codec, Split(chunk, EventEnd))
  }

  /** The payloads of every chunk read, in order. */
  function Received(codec: Codec, chunks: seq<String>): seq<Payload> {
    if chunks == [] then []
    else Received(codec, chunks[..|chunks| - 1]) + DecodeChunk(codec, chunks[|chunks| - 1])
  }

  /** What the stream has done to the hook so far: `fullResponse`, the last
      message, the loading flag and the suggestions. */
  datatype View = View(full: String, last: Message, loading: bool, suggestions: seq<Suggestion>)

  /** The view right after a message is sent: the bot placeholder. */
  const Sending: View := View("", BotMessage(""), true, [])

  predicate HasContent(p: Payload) {
    p.content.Some? && p.content.value != []
  }

  /** A terminal event whose metadata carries a non-empty suggestion list. */
  predicate Suggests(p: Payload) {
    p.finished && p.metadata.Some? && p.metadata.value.suggestedQuestions.Some?
    && |p.metadata.value.suggestedQuestions.value| > 0
  }

  function Plains(qs: seq<String>): (r: seq<Suggestion>)
    ensures |r| == |qs|
    ensures forall i :: 0 <= i < |qs| ==> r[i] == Plain(qs[i])
  {
    if qs == [] then [] else [Plain(qs[0])] + Plains(qs[1..])
  }

  /** One parsed event: content extends `fullResponse` and becomes the last
      message's text; a terminal event clears the loading flag, replaces the
      suggestions when it carries some, and attaches its images. */
  function Apply(v: View, p: Payload): View {
    var v1 := if HasContent(p) then v.(full := v.full + p.content.value, last := v.last.(text := v.full + p.content.value))
              else v;
    if !p.finished then v1
    else v1.(loading := false,
             suggestions := if Suggests(p) then Plains(p.metadata.value.suggestedQuestions.value) else v1.suggestions,
             last := if p.metadata.Some? && p.metadata.value.images.Some?
                     then v1.last.(images := p.metadata.value.images) else v1.last)
  }

  /** The events applied in order. */
  function Fold(v: View, ps: seq<Payload>): View {
    if ps == [] then v else Apply(Fold(v, ps[..|ps| - 1]), ps[|ps| - 1])
  }

  lemma FoldSnoc(v: View, ps: seq<Payload>, p: Payload)
    ensures Fold(v, ps + [p]) == Apply(Fold(v, ps), p)
  {
    assert (ps + [p])[..|ps|] == ps;
  }

  lemma {:induction false} FoldAppend(v: View, a: seq<Payload>, b: seq<Payload>)
    ensures Fold(v, a + b) == Fold(Fold(v, a), b)
    decreases |b|
  {
    if b == [] {
      assert a + b == a;
    } else {
      var init := b[..|b| - 1];
      FoldAppend(v, a, init);
      assert a + b == (a + init) + [b[|b| - 1]];
      FoldSnoc(v, a + init, b[|b| - 1]);
    }
  }

  lemma {:induction false} StreamedTextSnoc(ps: seq<Payload>, p: Payload)
    ensures StreamedText(ps + [p]) == StreamedText(ps) + (if p.content.Some? then p.content.value else [])
  {
    StreamedTextAppend(ps, [p]);
    assert StreamedText([p]) == (if p.content.Some? then p.content.value else []) + StreamedText([]);
  }

  /** One event extends `fullResponse` by its content and keeps the last
      message in step with it. */
  lemma ApplyText(w: View, p: Payload)
    ensures Apply(w, p).full == w.full + (if p.content.Some? then p.content.value else [])
    ensures w.last.text == w.full ==> Apply(w, p).last.text == Apply(w, p).full
    ensures Apply(w, p).last.sender == w.last.sender && Apply(w, p).last.logId == w.last.logId
  {
    if p.content.Some? && p.content.value == [] {
      assert w.full + p.content.value == w.full;
    }
  }

  /** `fullResponse` is the content of the events run together, and the last
      message shows it whenever it showed it before the events. */
  lemma {:induction false} FoldText(v: View, ps: seq<Payload>)
    ensures Fold(v, ps).full == v.full + StreamedText(ps)
    ensures v.last.text == v.full ==> Fold(v, ps).last.text == Fold(v, ps).full
    ensures Fold(v, ps).last.sender == v.last.sender && Fold(v, ps).last.logId == v.last.logId
    decreases |ps|
  {
    if ps != [] {
      var init := ps[..|ps| - 1];
      var p := ps[|ps| - 1];
      FoldText(v, init);
      assert ps == init + [p];
      FoldSnoc(v, init, p);
      StreamedTextSnoc(init, p);
      ApplyText(Fold(v, init), p);
    }
  }

  /** The loading flag is cleared by a terminal event and by nothing else. */
  lemma {:induction false} FoldLoading(v: View, ps: seq<Payload>)
    ensures Fold(v, ps).loading <==> v.loading && forall i :: 0 <= i < |ps| ==> !ps[i].finished
    decreases |ps|
  {
    if ps != [] {
      FoldLoading(v, ps[..|ps| - 1]);
    }
  }

  /** The suggestions change only through a terminal event that carries a
      non-empty list; after such an event they are that list. */
  lemma {:induction false} FoldSuggestions(v: View, ps: seq<Payload>)
    ensures (forall i :: 0 <= i < |ps| ==> !Suggests(ps[i])) ==> Fold(v, ps).suggestions == v.suggestions
    ensures |ps| > 0 && Suggests(ps[|ps| - 1]) ==>
              Fold(v, ps).suggestions == Plains(ps[|ps| - 1].metadata.value.suggestedQuestions.value)
    decreases |ps|
  {
    if ps != [] {
      FoldSuggestions(v, ps[..|ps| - 1]);
    }
  }

  // ---------------------------------------------------------------------------
  // The stream the endpoint writes, as the widget reads it
  // ---------------------------------------------------------------------------

  /** The chunks the reader yields when every event arrives in a read of its
      own. */
  function EventChunks(codec: Codec, events: seq<Payload>): (r: seq<String>)
    ensures |r| == |events|
    ensures forall i :: 0 <= i < |events| ==> r[i] == Frame(codec, events[i])
  {
    seq(|events|, i requires 0 <= i < |events| => Frame(codec, events[i]))
  }

  lemma EventChunksSnoc(codec: Codec, events: seq<Payload>, p: Payload)
    ensures EventChunks(codec, events + [p]) == EventChunks(codec, events) + [Frame(codec, p)]
  {
    var a := EventChunks(codec, events + [p]);
    var b := EventChunks(codec, events) + [Frame(codec, p)];
    assert |a| == |b|;
    forall i | 0 <= i < |a| ensures a[i] == b[i] {
      if i < |events| { assert (events + [p])[i] == events[i]; }
    }
  }

  lemma ReceivedSnoc(codec: Codec, chunks: seq<String>, c: String)
    ensures Received(codec, chunks + [c]) == Received(codec, chunks) + DecodeChunk(codec, c)
  {
    assert (chunks + [c])[..|chunks|] == chunks;
  }

  /** A framed event decodes back to itself. */
  lemma DecodeFramedChunk(codec: Codec, p: Payload)
    requires SoundCodec(codec)
    ensures DecodeChunk(codec, Frame(codec, p)) == [p]
  {
    SplitFrames(codec, [p]);
    assert Frames(codec, [p]) == Frame(codec, p) + Frames(codec, []);
    assert Frame(codec, p) + [] == Frame(codec, p);
    var line := DataPrefix + codec.encode(p);
    var lines := Split(Frame(codec, p), EventEnd);
    assert Lines(codec, [p]) == [line];
    assert lines == [line, []];
    DecodeFrame(codec, p);
    assert lines[..1] == [line] && lines[..1][..0] == [];
    assert DecodeLines(codec, lines[..1]) == [p];
    assert !StartsWith([], DataPrefix);
    assert DecodeLine(codec, []) == [];
  }

  /** Reading the endpoint's stream one event per read gives back exactly
      the events it wrote. */
  lemma {:induction false} ReceivedEvents(codec: Codec, events: seq<Payload>)
    requires SoundCodec(codec)
    ensures Received(codec, EventChunks(codec, events)) == events
    decreases |events|
  {
    if events != [] {
      var init := events[..|events| - 1];
      var last := events[|events| - 1];
      ReceivedEvents(codec, init);
      EventChunksSnoc(codec, init, last);
      assert events == init + [last];
      ReceivedSnoc(codec, EventChunks(codec, init), Frame(codec, last));
      DecodeFramedChunk(codec, last);
      assert events == init + [last];
    }
  }

  /** Reading one more chunk applies its events after the earlier ones. */
  lemma ChunkStep(codec: Codec, start: View, chunks: seq<String>, i: nat)
    requires i < |chunks|
    ensures Fold(start, Received(codec, chunks[..i + 1]))
         == Fold(Fold(start, Received(codec, chunks[..i])), DecodeChunk(codec, chunks[i]))
  {
    ReceivedSnoc(codec, chunks[..i], chunks[i]);
    assert chunks[..i + 1] == chunks[..i] + [chunks[i]];
    FoldAppend(start, Received(codec, chunks[..i]), DecodeChunk(codec, chunks[i]));
  }

  /** Reading one more piece of a chunk applies its event, if any, last. */
  lemma LineStep(codec: Codec, start: View, lines: seq<String>, j: nat)
    requires j < |lines|
    ensures Fold(start, DecodeLines(codec, lines[..j + 1]))
         == Fold(Fold(start, DecodeLines(codec, lines[..j])), DecodeLine(codec, lines[j]))
  {
    assert lines[..j + 1][..j] == lines[..j];
    FoldAppend(start, DecodeLines(codec, lines[..j]), DecodeLine(codec, lines[j]));
  }

  /** The view after reading the events of a reply one per read. */
  function ViewAfter(codec: Codec, events: seq<Payload>): View {
    Fold(Sending, Received(codec, EventChunks(codec, events)))
  }

  /** A completed stream, as the widget sees it: the last message holds the
      streamed text, loading is over, and non-empty suggestions replace the
      cleared ones. */
  lemma CompletedView(codec: Codec, fragments: seq<String>, suggested: seq<String>)
    requires SoundCodec(codec)
    ensures var v := ViewAfter(codec, ChatHandler.ContentEvents(fragments) + [TerminalEvent(suggested)]);
            && v.last.text == ChatHandler.Concat(fragments)
            && !v.loading
            && v.suggestions == Plains(suggested)
  {
    var content := ChatHandler.ContentEvents(fragments);
    var events := content + [TerminalEvent(suggested)];
    ChatHandler.CompletedEvents(fragments, suggested);
    ReceivedEvents(codec, events);
    FoldText(Sending, events);
    FoldLoading(Sending, events);
    FoldSnoc(Sending, content, TerminalEvent(suggested));
    ChatHandler.ContentEventsFaithful(fragments);
    assert forall i :: 0 <= i < |content| ==> !Suggests(content[i]) by {
      forall i | 0 <= i < |content| ensures !Suggests(content[i]) {
        assert content[i] in content;
      }
    }
    FoldSuggestions(Sending, content);
  }

  /** A stream cut short after its content events: the widget stays loading
      with the partial text shown and no suggestions. */
  lemma PartialView(codec: Codec, fragments: seq<String>)
    requires SoundCodec(codec)
    ensures var v := ViewAfter(codec, ChatHandler.ContentEvents(fragments));
            v.loading && v.last.text == ChatHandler.Concat(fragments) && v.suggestions == []
  {
    var events := ChatHandler.ContentEvents(fragments);
    ChatHandler.ContentEventsFaithful(fragments);
    ReceivedEvents(codec, events);
    FoldText(Sending, events);
    FoldLoading(Sending, events);
    assert forall i :: 0 <= i < |events| ==> !Suggests(events[i]) by {
      forall i | 0 <= i < |events| ensures !Suggests(events[i]) {
        assert events[i] in events;
      }
    }
    FoldSuggestions(Sending, events);
  }

  /** When the provider completes, the widget's last message ends up holding
      exactly the answer the endpoint accumulated in `fullResponse`, loading
      is over, and the endpoint's suggestions (when there are any) replace
      the cleared ones. */
  lemma CompletedTurnShowsAnswer(codec: Codec, botId: String, req: ChatHandler.ChatRequest, env: ChatHandler.Env,
                                 records: seq<HistoryRecord>)
    requires SoundCodec(codec)
    requires ChatHandler.ContextReady(req, env)
    requires Provider.SelectProvider(env.bot.value.value.llmProvider).Some? && !env.run.throws
    ensures var reply := ChatHandler.Respond(botId, req, env, records).reply;
            && reply.Stream?
            && var v := ViewAfter(codec, reply.events);
            && v.last.text == ChatHandler.Concat(env.run.fragments)
            && !v.loading
            && v.suggestions == Plains(ChatHandler.Suggestions(env))
  {
    ChatHandler.CompletedReply(botId, req, env, records);
    CompletedView(codec, env.run.fragments, ChatHandler.Suggestions(env));
  }

  /** When the provider fails after writing something, no terminal event
      arrives: the widget stays loading, with the partial answer shown. */
  lemma MidStreamFailureKeepsLoading(codec: Codec, botId: String, req: ChatHandler.ChatRequest,
                                     env: ChatHandler.Env, records: seq<HistoryRecord>)
    requires SoundCodec(codec)
    requires ChatHandler.ContextReady(req, env)
    requires Provider.SelectProvider(env.bot.value.value.llmProvider).Some? && env.run.throws
    requires ChatHandler.Respond(botId, req, env, records).reply.Stream?
    ensures var v := ViewAfter(codec, ChatHandler.Respond(botId, req, env, records).reply.events);
            v.loading && v.last.text == ChatHandler.Concat(env.run.fragments) && v.suggestions == []
  {
    ChatHandler.FailedOutcome(botId, req, env, records);
    PartialView(codec, env.run.fragments);
  }

  /** The two events of an unsupported provider, as the widget sees them. */
  lemma ErrorView(codec: Codec, message: String)
    requires SoundCodec(codec)
    ensures var v := ViewAfter(codec, [ContentEvent(message), ErrorTerminalEvent()]);
            v.last.text == message && !v.loading && v.suggestions == []
  {
    var events := [ContentEvent(message), ErrorTerminalEvent()];
    ReceivedEvents(codec, events);
    assert [] + [events[0]] == [events[0]] && [events[0]] + [events[1]] == events;
    FoldSnoc(Sending, [], events[0]);
    FoldSnoc(Sending, [events[0]], events[1]);
    var v1 := Apply(Sending, events[0]);
    assert v1.last.text == message && v1.suggestions == [];
    assert Fold(Sending, events) == Apply(v1, events[1]);
  }

  /** An unsupported provider shows its error text as the answer, ends
      loading and leaves the suggestions cleared. */
  lemma UnsupportedProviderShown(codec: Codec, botId: String, req: ChatHandler.ChatRequest,
                                 env: ChatHandler.Env, records: seq<HistoryRecord>)
    requires SoundCodec(codec)
    requires ChatHandler.ContextReady(req, env)
    requires Provider.SelectProvider(env.bot.value.value.llmProvider).None?
    ensures var reply := ChatHandler.Respond(botId, req, env, records).reply;
            && reply.Stream?
            && var v := ViewAfter(codec, reply.events);
            && v.last.text == ChatHandler.UnsupportedMessage(env.bot.value.value.llmProvider)
            && !v.loading && v.suggestions == []
  {
    ChatHandler.UnsupportedProvider(botId, req, env, records);
    ErrorView(codec, ChatHandler.UnsupportedMessage(env.bot.value.value.llmProvider));
  }

  // ---------------------------------------------------------------------------
  // Feedback and rendering helpers
  // ---------------------------------------------------------------------------

  /** Every message of log `logId` marked as having feedback; the others unchanged. */
  function MarkFeedback(messages: seq<Message>, logId: String): (r: seq<Message>)
    ensures |r| == |messages|
    ensures forall i :: 0 <= i < |messages| ==>
              r[i] == (if messages[i].logId == Some(logId) then messages[i].(feedbackGiven := true) else messages[i])
  {
    if messages == [] then []
    else [if messages[0].logId == Some(logId) then messages[0].(feedbackGiven := true) else messages[0]]
         + MarkFeedback(messages[1..], logId)
  }

  /** Marking twice is marking once, and marking never changes what a
      message says. */
  lemma MarkFeedbackIdempotent(messages: seq<Message>, logId: String)
    ensures MarkFeedback(MarkFeedback(messages, logId), logId) == MarkFeedback(messages, logId)
    ensures forall i :: 0 <= i < |messages| ==>
              MarkFeedback(messages, logId)[i].text == messages[i].text
              && MarkFeedback(messages, logId)[i].sender == messages[i].sender
  {
  }

  /** `settings.position = uiSettings?.position || 'bottom-right'` */
  function Position(uiPosition: Option<String>): String {
    OrDefault(uiPosition, "bottom-right")
  }

  /** The four placement rules in the order the helper applies them: the
      word looked for in the position, and the class it adds. */
  function PlacementRules(bubble: bool): seq<(String, String)> {
    [("bottom", if bubble then "bottom-5" else "bottom-24"),
     ("top", if bubble then "top-5" else "top-24"),
     ("right", "right-5"),
     ("left", "left-5")]
  }

  /** The classes whose word the position contains, in rule order. */
  function Selected(position: String, rules: seq<(String, String)>): seq<String> {
    if rules == [] then []
    else (if Contains(position, rules[0].0) then [rules[0].1] else []) + Selected(position, rules[1..])
  }

  /** A class is selected exactly when some rule adds it and the position
      contains that rule's word. */
  lemma {:induction false} SelectedExact(position: String, rules: seq<(String, String)>)
    ensures forall c :: c in Selected(position, rules) <==>
              exists r :: r in rules && r.1 == c && Contains(position, r.0)
    decreases |rules|
  {
    if rules != [] {
      SelectedExact(position, rules[1..]);
      assert rules == [rules[0]] + rules[1..];
    }
  }

  lemma {:induction false} SelectedSnoc(position: String, rules: seq<(String, String)>, r: (String, String))
    ensures Selected(position, rules + [r]) == Selected(position, rules) + (if Contains(position, r.0) then [r.1] else [])
    decreases |rules|
  {
    var last := if Contains(position, r.0) then [r.1] else [];
    if rules == [] {
      assert rules + [r] == [r];
      assert [r][1..] == [];
      assert Selected(position, [r]) == last + Selected(position, []);
    } else {
      var head := if Contains(position, rules[0].0) then [rules[0].1] else [];
      assert (rules + [r])[0] == rules[0];
      assert (rules + [r])[1..] == rules[1..] + [r];
      assert Selected(position, rules + [r]) == head + Selected(position, rules[1..] + [r]);
      SelectedSnoc(position, rules[1..], r);
      AppendAssoc(head, Selected(position, rules[1..]), last);
    }
  }

  /** Each class followed by a space, run together. */
  function Spaced(words: seq<String>): String {
    if words == [] then [] else words[0] + " " + Spaced(words[1..])
  }

  lemma {:induction false} SpacedSnoc(words: seq<String>, w: String)
    ensures Spaced(words + [w]) == Spaced(words) + w + " "
    decreases |words|
  {
    if words == [] {
      assert words + [w] == [w];
    } else {
      assert (words + [w])[1..] == words[1..] + [w];
      SpacedSnoc(words[1..], w);
    }
  }

  /** The class string splits back into its classes, then an empty piece. */
  lemma {:induction false} SpacedSplits(words: seq<String>)
    requires forall i :: 0 <= i < |words| ==> ' ' !in words[i]
    ensures Split(Spaced(words), " ") == words + [[]]
    decreases |words|
  {
    if words != [] {
      SpacedSplits(words[1..]);
      SplitAfterPiece(words[0], " ", Spaced(words[1..]));
      assert words == [words[0]] + words[1..];
    }
  }

  /** One rule of the helper: its class and a space are appended exactly
      when the position contains its word. */
  lemma AddRule(position: String, done: seq<(String, String)>, r: (String, String), classes: String)
    requires classes == Spaced(Selected(position, done))
    ensures (if Contains(position, r.0) then classes + (r.1 + " ") else classes)
            == Spaced(Selected(position, done + [r]))
  {
    SelectedSnoc(position, done, r);
    if Contains(position, r.0) {
      SpacedSnoc(Selected(position, done), r.1);
    } else {
      assert Selected(position, done) + [] == Selected(position, done);
    }
  }

  /** The class strings the helper appends, each the rule's class and a
      space. */
  lemma RuleLiterals(bubble: bool)
    ensures PlacementRules(bubble)[0].1 + " " == (if bubble then "bottom-5 " else "bottom-24 ")
    ensures PlacementRules(bubble)[1].1 + " " == (if bubble then "top-5 " else "top-24 ")
    ensures PlacementRules(bubble)[2].1 + " " == "right-5 "
    ensures PlacementRules(bubble)[3].1 + " " == "left-5 "
    ensures PlacementRules(bubble)[0].0 == "bottom" && PlacementRules(bubble)[1].0 == "top"
    ensures PlacementRules(bubble)[2].0 == "right" && PlacementRules(bubble)[3].0 == "left"
  {
  }

  /** `getPositionClasses(type)`: for every rule whose word the position
      contains, in order, its class followed by a space. */
  method PositionClasses(position: String, kind: String) returns (classes: String)
    ensures classes == Spaced(Selected(position, PlacementRules(kind == "bubble")))
  {
    classes := "";
    var isBubble := kind == "bubble";
    ghost var rules := PlacementRules(isBubble);
    RuleLiterals(isBubble);
    AddRule(position, rules[..0], rules[0], classes);
    if Contains(position, "bottom") {
      classes := classes + (if isBubble then "bottom-5 " else "bottom-24 ");
    }
    assert rules[..0] + [rules[0]] == rules[..1];
    AddRule(position, rules[..1], rules[1], classes);
    if Contains(position, "top") {
      classes := classes + (if isBubble then "top-5 " else "top-24 ");
    }
    assert rules[..1] + [rules[1]] == rules[..2];
    AddRule(position, rules[..2], rules[2], classes);
    if Contains(position, "right") {
      classes := classes + "right-5 ";
    }
    assert rules[..2] + [rules[2]] == rules[..3];
    AddRule(position, rules[..3], rules[3], classes);
    if Contains(position, "left") {
      classes := classes + "left-5 ";
    }
    assert rules[..3] + [rules[3]] == rules[..4] == rules;
  }

  /** Bubble and window sit on the same side: each gets `right-5` exactly
      when the position names the right, and `left-5` exactly when it names
      the left. */
  lemma HorizontalPlacement(position: String, bubble: bool)
    ensures ("right-5" in Selected(position, PlacementRules(bubble))) <==> Contains(position, "right")
    ensures ("left-5" in Selected(position, PlacementRules(bubble))) <==> Contains(position, "left")
  {
    var rules := PlacementRules(bubble);
    SelectedExact(position, rules);
    assert rules[2] in rules && rules[3] in rules;
  }

  /** The label the widget and page variants render for a suggestion:
      `q_object.suggested_question.question`, which throws (`None`) for the
      bare strings a terminal event carries. */
  function WidgetLabel(s: Suggestion): Option<String> {
    if s.Wrapped? then Some(s.question) else None
  }

  /** After a completed reply from a Travel bot, the widget and page
      variants try to render a label they cannot read. */
  lemma WidgetLabelFailsOnServerSuggestions(codec: Codec, botId: String, req: ChatHandler.ChatRequest,
                                            env: ChatHandler.Env, records: seq<HistoryRecord>)
    requires SoundCodec(codec)
    requires ChatHandler.ContextReady(req, env)
    requires Provider.SelectProvider(env.bot.value.value.llmProvider).Some? && !env.run.throws
    requires env.bot.value.value.domain == Some("Travel")
    ensures var reply := ChatHandler.Respond(botId, req, env, records).reply;
            && reply.Stream?
            && var v := ViewAfter(codec, reply.events);
            && |v.suggestions| > 0 && WidgetLabel(v.suggestions[0]).None?
  {
    CompletedTurnShowsAnswer(codec, botId, req, env, records);
  }

  /** The label the modal variant renders,
      `q_object?.suggested_question?.question || q_object?.question || q_object`,
      which reads either shape. The model renders every variant with it. */
  function Label(s: Suggestion): (r: String)
    ensures s.Wrapped? ==> r == s.question && WidgetLabel(s) == Some(r)
    ensures s.Plain? ==> r == s.text
  {
    match s
    case Wrapped(q) => q
    case Plain(t) => t
  }

  /** Both labels agree on the suggestions the widget starts with, and none
      of them is empty, so the modal label's fallbacks are never reached for
      them. */
  lemma InitialLabels(listing: Option<seq<ListedBot>>, botId: String)
    ensures forall s :: s in InitialData(listing, botId).suggestions ==>
              s.Wrapped? && s.question != [] && WidgetLabel(s) == Some(Label(s))
  {
    if listing.Some? {
      var bot := FindBot(listing.value, botId);
      var greeting := DomainGreeting(if bot.Some? then bot.value.domain else None);
      var questions :=
        if bot.Some? && bot.value.aiQuestions.Some? && |bot.value.aiQuestions.value| > 0
        then PresentQuestions(bot.value.aiQuestions.value)
        else greeting.questions;
      assert forall i :: 0 <= i < |questions| ==> questions[i] != [] by {
        forall i | 0 <= i < |questions| ensures questions[i] != [] {
          assert questions[i] in questions;
        }
      }
      assert InitialData(listing, botId).suggestions == Wrap(questions);
    }
  }

  // ---------------------------------------------------------------------------
  // The widget
  // ---------------------------------------------------------------------------

  /** What the chat request and the analytics call give back. */
  datatype HttpReply = NetworkError | NotOk | Body(chunks: seq<String>)

  /** `b` is `a` with at most its last message changed. */
  predicate SameButLast(b: seq<Message>, a: seq<Message>) {
    |b| == |a| && forall k :: 0 <= k < |a| - 1 ==> b[k] == a[k]
  }

  /** Replacing the last message of a list that kept everything but its last
      message leaves the old messages and the user's message in front. */
  lemma ReplaceLast(before: seq<Message>, user: Message, bot: Message, ms: seq<Message>, x: Message)
    requires SameButLast(ms, before + [user, bot])
    ensures ms[|ms| - 1 := x] == before + [user, x]
    ensures (before + [user, x])[..|before|] == before && (before + [user, x])[|before|] == user
  {
    var r := ms[|ms| - 1 := x];
    forall k | 0 <= k < |r| ensures r[k] == (before + [user, x])[k] {
      if k < |r| - 1 {
        assert ms[k] == (before + [user, bot])[k];
      }
    }
  }

  /** What a send leaves in place of the bot placeholder: its last message, the
      loading flag and the suggestions. */
  datatype Sent = Sent(last: Message, loading: bool, suggestions: seq<Suggestion>)

  /** The outcome of `sendMessage` for a reply: the error text when the request
      fails; otherwise the fold of the events read, given the analytics log id,
      or with the error text when the analytics call fails. */
  function AfterSend(reply: HttpReply, codec: Codec, logId: Option<String>): Sent {
    if !reply.Body? then Sent(BotMessage(ErrorText), false, [])
    else
      var v := Fold(Sending, Received(codec, reply.chunks));
      if logId.Some? then Sent(v.last.(logId := logId), v.loading, v.suggestions)
      else Sent(v.last.(text := ErrorText), false, v.suggestions)
  }

  class Widget {
    var messages: seq<Message>
    var suggestions: seq<Suggestion>
    var isLoading: bool
    var inputValue: String
    const sessionId: String

    constructor (sessionId: String)
      ensures this.sessionId == sessionId
      ensures messages == [] && suggestions == [] && !isLoading && inputValue == []
    {
      this.sessionId := sessionId;
      messages, suggestions, isLoading, inputValue := [], [], false, [];
    }

    /** The initial-data effect. */
    method LoadInitialData(listing: Option<seq<ListedBot>>, botId: String)
      modifies this
      ensures messages == InitialData(listing, botId).messages
      ensures suggestions == (if listing.None? then old(suggestions) else InitialData(listing, botId).suggestions)
      ensures !isLoading && inputValue == old(inputValue)
    {
      isLoading := true;
      var initial := InitialData(listing, botId);
      messages := initial.messages;
      if listing.Some? {
        suggestions := initial.suggestions;
      }
      isLoading := false;
    }

    /** `handleFeedback`: nothing without a log id or when the update fails;
        otherwise the messages of that log are marked. */
    method HandleFeedback(logId: Option<String>, updated: bool)
      modifies this
      ensures messages == (if Truthy(logId) && updated then MarkFeedback(old(messages), logId.value) else old(messages))
      ensures suggestions == old(suggestions) && isLoading == old(isLoading) && inputValue == old(inputValue)
    {
      if !Truthy(logId) {
        return;
      }
      if updated {
        messages := MarkFeedback(messages, logId.value);
      }
    }

    /** `sendMessage`: the user's message and a bot placeholder are appended,
        the request carries the history without the greeting, and every
        event read folds into the placeholder. A failed request, and a failed
        analytics call after the stream, end loading and replace the answer
        with the error text; otherwise the placeholder gets the analytics log
        id. */
    method SendMessage(text: String, reply: HttpReply, codec: Codec, logId: Option<String>)
      returns (body: ChatHandler.ChatRequest)
      modifies this
      ensures body == ChatBody(text, old(messages), sessionId)
      ensures inputValue == old(inputValue)
      ensures messages == old(messages) + [UserMessage(text), AfterSend(reply, codec, logId).last]
      ensures isLoading == AfterSend(reply, codec, logId).loading
      ensures suggestions == AfterSend(reply, codec, logId).suggestions
    {
      isLoading := true;
      suggestions := [];
      body := ChatBody(text, messages, sessionId);
      ghost var before := messages;
      messages := messages + [UserMessage(text)];
      messages := messages + [BotMessage("")];
      ghost var placed := messages;
      assert placed == before + [UserMessage(text), BotMessage("")];
      if !reply.Body? {
        isLoading := false;
        ReplaceLast(before, UserMessage(text), BotMessage(""), messages, messages[|messages| - 1].(text := ErrorText));
        messages := messages[|messages| - 1 := messages[|messages| - 1].(text := ErrorText)];
        return;
      }
      var fullResponse := ReadStream(reply.chunks, codec);
      var streamed := messages[|messages| - 1];
      if logId.None? {
        isLoading := false;
        ReplaceLast(before, UserMessage(text), BotMessage(""), messages, streamed.(text := ErrorText));
        messages := messages[|messages| - 1 := streamed.(text := ErrorText)];
      } else {
        ReplaceLast(before, UserMessage(text), BotMessage(""), messages, streamed.(logId := logId));
        messages := messages[|messages| - 1 := streamed.(logId := logId)];
      }
    }

    /** The read loop: every chunk the reader yields, in order. */
    method ReadStream(chunks: seq<String>, codec: Codec) returns (fullResponse: String)
      requires |messages| > 0
      modifies this
      ensures SameButLast(messages, old(messages))
      ensures View(fullResponse, messages[|messages| - 1], isLoading, suggestions)
           == Fold(View("", old(messages)[|messages| - 1], old(isLoading), old(suggestions)), Received(codec, chunks))
      ensures inputValue == old(inputValue)
    {
      ghost var start := View("", messages[|messages| - 1], isLoading, suggestions);
      ghost var n := |messages|;
      fullResponse := "";
      var i := 0;
      while i < |chunks|
        invariant 0 <= i <= |chunks|
        invariant SameButLast(messages, old(messages))
        invariant inputValue == old(inputValue)
        invariant Fold(start, Received(codec, chunks[..i])) == View(fullResponse, messages[n - 1], isLoading, suggestions)
      {
        ghost var current := View(fullResponse, messages[n - 1], isLoading, suggestions);
        ChunkStep(codec, start, chunks, i);
        fullResponse := ReadChunk(chunks[i], codec, fullResponse);
        assert View(fullResponse, messages[n - 1], isLoading, suggestions) == Fold(current, DecodeChunk(codec, chunks[i]));
        i := i + 1;
      }
      assert chunks[..i] == chunks;
    }

    /** One chunk read from the stream: split on blank lines, every piece
        that decodes is applied in order. */
    method ReadChunk(chunk: String, codec: Codec, fullResponse: String) returns (full: String)
      requires |messages| > 0
      modifies this
      ensures SameButLast(messages, old(messages))
      ensures View(full, messages[|messages| - 1], isLoading, suggestions)
           == Fold(View(fullResponse, old(messages)[|messages| - 1], old(isLoading), old(suggestions)),
                   DecodeChunk(codec, chunk))
      ensures inputValue == old(inputValue)
    {
      ghost var start := View(fullResponse, messages[|messages| - 1], isLoading, suggestions);
      ghost var n := |messages|;
      full := fullResponse;
      var lines := Split(chunk, EventEnd);
      var j := 0;
      while j < |lines|
        invariant 0 <= j <= |lines|
        invariant SameButLast(messages, old(messages))
        invariant inputValue == old(inputValue)
        invariant Fold(start, DecodeLines(codec, lines[..j])) == View(full, messages[n - 1], isLoading, suggestions)
      {
        ghost var current := View(full, messages[n - 1], isLoading, suggestions);
        LineStep(codec, start, lines, j);
        full := ReadLine(lines[j], codec, full);
        assert View(full, messages[n - 1], isLoading, suggestions) == Fold(current, DecodeLine(codec, lines[j]));
        j := j + 1;
      }
      assert lines[..j] == lines;
    }

    /** One piece of a chunk: when it is a `data: ` line whose JSON parses,
        the event is applied to the state, otherwise nothing changes. */
    method ReadLine(line: String, codec: Codec, fullResponse: String) returns (full: String)
      requires |messages| > 0
      modifies this
      ensures SameButLast(messages, old(messages))
      ensures View(full, messages[|messages| - 1], isLoading, suggestions)
           == Fold(View(fullResponse, old(messages)[|messages| - 1], old(isLoading), old(suggestions)),
                   DecodeLine(codec, line))
      ensures inputValue == old(inputValue)
    {
      full := fullResponse;
      var data := Decode(codec, line);
      if data.Some? {
        FoldSnoc(View(fullResponse, messages[|messages| - 1], isLoading, suggestions), [], data.value);
        assert [] + [data.value] == [data.value];
        if HasContent(data.value) {
          full := fullResponse + data.value.content.value;
          messages := messages[|messages| - 1 := messages[|messages| - 1].(text := full)];
        }
        if data.value.finished {
          isLoading := false;
          if Suggests(data.value) {
            suggestions := Plains(data.value.metadata.value.suggestedQuestions.value);
          }
          if data.value.metadata.Some? && data.value.metadata.value.images.Some? {
            messages := messages[|messages| - 1 := messages[|messages| - 1].(images := data.value.metadata.value.images)];
          }
        }
      }
    }

    /** `handleSend`: sends the input as typed when it is not blank and no
        answer is loading, then clears the input; otherwise nothing happens. */
    method HandleSend(reply: HttpReply, codec: Codec, logId: Option<String>)
      returns (sent: Option<ChatHandler.ChatRequest>)
      modifies this
      ensures sent.Some? <==> Trim(old(inputValue)) != [] && !old(isLoading)
      ensures sent.Some? ==> sent.value == ChatBody(old(inputValue), old(messages), sessionId) && inputValue == []
      ensures sent.Some? ==>
                var after := AfterSend(reply, codec, logId);
                && messages == old(messages) + [UserMessage(old(inputValue)), after.last]
                && isLoading == after.loading && suggestions == after.suggestions
      ensures sent.None? ==> messages == old(messages) && suggestions == old(suggestions)
                             && isLoading == old(isLoading) && inputValue == old(inputValue)
    {
      if Trim(inputValue) != [] && !isLoading {
        var body := SendMessage(inputValue, reply, codec, logId);
        inputValue := "";
        return Some(body);
      }
      return None;
    }

    /** `handleSuggestedQuestion`: a click sends the suggestion's text unless
        it is empty or an answer is loading, and clears the input. */
    method HandleSuggestedQuestion(s: Suggestion, reply: HttpReply, codec: Codec, logId: Option<String>)
      returns (sent: Option<ChatHandler.ChatRequest>)
      modifies this
      ensures sent.Some? <==> Label(s) != [] && !old(isLoading)
      ensures sent.Some? ==> sent.value == ChatBody(Label(s), old(messages), sessionId) && inputValue == []
      ensures sent.Some? ==>
                var after := AfterSend(reply, codec, logId);
                && messages == old(messages) + [UserMessage(Label(s)), after.last]
                && isLoading == after.loading && suggestions == after.suggestions
      ensures sent.None? ==> messages == old(messages) && suggestions == old(suggestions)
                             && isLoading == old(isLoading) && inputValue == old(inputValue)
    {
      var questionText := Label(s);
      if questionText == [] || isLoading {
        return None;
      }
      inputValue := "";
      var body := SendMessage(questionText, reply, codec, logId);
      return Some(body);
    }
  }

  /** A blank input is never sent, however much whitespace it holds. */
  lemma BlankInputNotSent(input: String)
    requires AllSpace(input)
    ensures Trim(input) == []
  {
    TrimEmpty(input);
  }
}
