/** `POST /api/chat/:botId`: validation, context assembly, persona and prompt,
    provider dispatch, streaming of the answer as events, and the transcript
    upsert. The repository and the provider are given as values: what each
    call returns, or that it throws. */
module ChatHandler {
  import opened Strings
  import opened Js
  import opened Records
  import opened Knowledge
  import Persona
  import opened Provider
  import opened Wire

  /** The request body `{ message, history = [], sessionId }`. */
  datatype ChatRequest = ChatRequest(message: Option<String>, history: seq<Turn>, sessionId: Option<String>)

  /** The result of a repository call: what it returned, or that it threw. */
  datatype Fetch<T> = Ok(value: T) | Threw

  /** A provider stream: the text of each chunk in arrival order (`""` when a
      chunk has none), and whether the stream throws after the last one. */
  datatype ProviderRun = ProviderRun(fragments: seq<String>, throws: bool)

  /** Everything outside the handler that it consults. */
  datatype Env = Env(
    bot: Fetch<Option<BotConfig>>,            // the `chatbot_config` fetch; `None` is a null entry
    knowledge: Fetch<seq<KnowledgeEntry>>,    // the `customknowledge` entries the `$in` query runs over
    decrypt: String -> String,
    run: ProviderRun,
    saveThrows: bool)                         // the transcript save throws (and is swallowed)

  /** The external calls the handler makes, in order. */
  datatype Step = FetchBot | QueryKnowledge | CallProvider(request: LlmRequest) | SaveTranscript

  /** What the client receives: a JSON error reply, or an event stream. */
  datatype Reply = Json(status: int, error: String) | Stream(events: seq<Payload>)

  const MessageRequired: String := "Message is required."
  const BotNotFound: String := "Bot configuration not found."
  const ProcessingError: String := "An error occurred during chat processing."

  // ---------------------------------------------------------------------------
  // Specification functions
  // ---------------------------------------------------------------------------

  /** One content event per non-empty fragment, in arrival order. */
  function ContentEvents(fragments: seq<String>): seq<Payload> {
    if fragments == [] then []
    else (if fragments[0] != [] then [ContentEvent(fragments[0])] else []) + ContentEvents(fragments[1..])
  }

  /** All fragments run together; empty fragments add nothing. */
  function Concat(fragments: seq<String>): String {
    if fragments == [] then [] else fragments[0] + Concat(fragments[1..])
  }

  function UnsupportedMessage(llmProvider: Option<String>): String {
    "Error: Provider '" + Render(llmProvider) + "' not supported."
  }

  /** The saved transcript: the client's history, the message and the answer. */
  function Transcript(history: seq<Turn>, message: String, answer: String): seq<Turn> {
    history + [Turn("user", message), Turn("bot", answer)]
  }

  /** Index of the first record with this session id, if any. */
  function FirstSession(records: seq<HistoryRecord>, sid: String): (r: Option<nat>)
    ensures r.Some? ==> r.value < |records| && records[r.value].sessionId == sid
                        && forall j :: 0 <= j < r.value ==> records[j].sessionId != sid
    ensures r.None? ==> forall j :: 0 <= j < |records| ==> records[j].sessionId != sid
  {
    if records == [] then None
    else if records[0].sessionId == sid then Some(0)
    else match FirstSession(records[1..], sid)
      case None => None
      case Some(k) => Some(k + 1)
  }

  /** The `session_id` upsert: overwrite the first match's messages, or create
      one record titled after the session. */
  function Upsert(records: seq<HistoryRecord>, sid: String, messages: seq<Turn>, botId: String): seq<HistoryRecord> {
    match FirstSession(records, sid)
    case Some(k) => records[k := records[k].(messages := messages)]
    case None => records + [HistoryRecord("Session: " + sid, sid, messages, botId)]
  }

  // ---------------------------------------------------------------------------
  // The handler
  // ---------------------------------------------------------------------------

  /** The `for await` loop over a provider stream: write each non-empty
      fragment as an event and append it to `fullResponse`. */
  method StreamFragments(fragments: seq<String>) returns (events: seq<Payload>, fullResponse: String)
    ensures events == ContentEvents(fragments)
    ensures fullResponse == Concat(fragments)
  {
    events := [];
    fullResponse := "";
    var i := 0;
    while i < |fragments|
      invariant 0 <= i <= |fragments|
      invariant events == ContentEvents(fragments[..i])
      invariant fullResponse == Concat(fragments[..i])
    {
      var content := fragments[i];
      ContentEventsSnoc(fragments[..i], content);
      ConcatSnoc(fragments[..i], content);
      assert fragments[..i + 1] == fragments[..i] + [content];
      if content != [] {
        fullResponse := fullResponse + content;
        events := events + [ContentEvent(content)];
      }
      i := i + 1;
    }
    assert fragments[..i] == fragments;
  }

  /** The transcript upsert, run only when `sessionId` is truthy; a failure
      leaves the records as they were. */
  method SaveHistory(records: seq<HistoryRecord>, req: ChatRequest, message: String, answer: String,
                     botId: String, saveThrows: bool)
    returns (records': seq<HistoryRecord>, steps: seq<Step>)
    ensures !Truthy(req.sessionId) ==> records' == records && steps == []
    ensures Truthy(req.sessionId) ==>
              && steps == [SaveTranscript]
              && records' == (if saveThrows then records
                              else Upsert(records, req.sessionId.value, Transcript(req.history, message, answer), botId))
  {
    records' := records;
    steps := [];
    if Truthy(req.sessionId) {
      steps := [SaveTranscript];
      if !saveThrows {
        var updated := Transcript(req.history, message, answer);
        records' := Upsert(records, req.sessionId.value, updated, botId);
      }
    }
  }

  /** What a call of the route leaves behind: the reply, the external calls
      made, and the `chat_history` records afterwards. */
  datatype Outcome = Outcome(reply: Reply, trace: seq<Step>, records: seq<HistoryRecord>)

  /** The route as one expression: the reference the handler is proved against. */
  function Respond(botId: String, req: ChatRequest, env: Env, records: seq<HistoryRecord>): Outcome {
    if !Truthy(req.message) then Outcome(Json(400, MessageRequired), [], records)
    else if env.bot.Threw? then Outcome(Json(500, ProcessingError), [FetchBot], records)
    else if env.bot.value.None? then Outcome(Json(404, BotNotFound), [FetchBot], records)
    else
      var bot := env.bot.value.value;
      if |ActiveUids(bot.activeSources)| > 0 && env.knowledge.Threw? then
        Outcome(Json(500, ProcessingError), [FetchBot, QueryKnowledge], records)
      else
        RespondWithContext(botId, req, req.message.value, bot, KnowledgeBlob(bot.activeSources, StoreOf(env)),
                           env, records, ContextTrace(bot))
  }

  /** The calls made up to context assembly. */
  function ContextTrace(bot: BotConfig): seq<Step> {
    if |ActiveUids(bot.activeSources)| > 0 then [FetchBot, QueryKnowledge] else [FetchBot]
  }

  function StoreOf(env: Env): seq<KnowledgeEntry> {
    if env.knowledge.Ok? then env.knowledge.value else []
  }

  /** The route once the bot and the knowledge blob are known. */
  function RespondWithContext(botId: String, req: ChatRequest, message: String, bot: BotConfig, blob: String,
                              env: Env, records: seq<HistoryRecord>, trace: seq<Step>): Outcome {
    var persona := Persona.ResolvePersona(bot.domain, bot.freePromptSystemMessage);
    var prompt := Persona.ComposePrompt(persona.personality, blob);
    match SelectProvider(bot.llmProvider)
    case None =>
      Outcome(Stream([ContentEvent(UnsupportedMessage(bot.llmProvider)), ErrorTerminalEvent()]), trace, records)
    case Some(p) =>
      var request := BuildRequest(p, ProviderKey(bot.apiKeyEncrypted, env.decrypt), prompt, req.history, message);
      RespondStreamed(botId, req, message, persona.suggestedQuestions, env, records, trace + [CallProvider(request)])
  }

  /** The route once the provider has been called: streaming and transcript save. */
  function RespondStreamed(botId: String, req: ChatRequest, message: String, suggestions: seq<String>,
                           env: Env, records: seq<HistoryRecord>, trace: seq<Step>): Outcome {
    var content := ContentEvents(env.run.fragments);
    if env.run.throws then
      Outcome(if content == [] then Json(500, ProcessingError) else Stream(content), trace, records)
    else if !Truthy(req.sessionId) then
      Outcome(Stream(content + [TerminalEvent(suggestions)]), trace, records)
    else
      Outcome(Stream(content + [TerminalEvent(suggestions)]), trace + [SaveTranscript],
              if env.saveThrows then records
              else Upsert(records, req.sessionId.value,
                          Transcript(req.history, message, Concat(env.run.fragments)), botId))
  }

  /** The whole route. `records` are the `chat_history` entries. */
  method HandleChat(botId: String, req: ChatRequest, env: Env, records: seq<HistoryRecord>)
    returns (reply: Reply, trace: seq<Step>, records': seq<HistoryRecord>)
    ensures Outcome(reply, trace, records') == Respond(botId, req, env, records)
  {
    records' := records;
    if !Truthy(req.message) {
      return Json(400, MessageRequired), [], records;
    }
    var message := req.message.value;
    trace := [FetchBot];
    if env.bot.Threw? {
      return Json(500, ProcessingError), trace, records;
    }
    if env.bot.value.None? {
      return Json(404, BotNotFound), trace, records;
    }
    var bot := env.bot.value.value;

    // context assembly
    var uids := ActiveUids(bot.activeSources);
    var store: seq<KnowledgeEntry> := [];
    if |uids| > 0 {
      trace := trace + [QueryKnowledge];
      if env.knowledge.Threw? {
        return Json(500, ProcessingError), trace, records;
      }
      store := env.knowledge.value;
    }
    var blob := KnowledgeBlob(bot.activeSources, store);
    if |uids| == 0 {
      // with no active sources the store is never read
      BlobWithoutSources(bot.activeSources, store);
      BlobWithoutSources(bot.activeSources, if env.knowledge.Ok? then env.knowledge.value else []);
    }

    assert trace == ContextTrace(bot);
    assert blob == KnowledgeBlob(bot.activeSources, StoreOf(env));
    reply, trace, records' := Converse(botId, req, message, bot, blob, env, records, trace);
  }

  /** The route from persona lookup on: prompt, provider call, streaming and
      transcript save. */
  method Converse(botId: String, req: ChatRequest, message: String, bot: BotConfig, blob: String,
                  env: Env, records: seq<HistoryRecord>, trace0: seq<Step>)
    returns (reply: Reply, trace: seq<Step>, records': seq<HistoryRecord>)
    ensures Outcome(reply, trace, records') == RespondWithContext(botId, req, message, bot, blob, env, records, trace0)
  {
    trace, records' := trace0, records;
    var persona := Persona.ResolvePersona(bot.domain, bot.freePromptSystemMessage);
    var prompt := Persona.ComposePrompt(persona.personality, blob);
    var apiKey := ProviderKey(bot.apiKeyEncrypted, env.decrypt);

    var provider := SelectProvider(bot.llmProvider);
    if provider.None? {
      reply := Stream([ContentEvent(UnsupportedMessage(bot.llmProvider)), ErrorTerminalEvent()]);
      return;
    }
    var request := BuildRequest(provider.value, apiKey, prompt, req.history, message);
    trace := trace + [CallProvider(request)];
    reply, trace, records' := StreamReply(botId, req, message, persona.suggestedQuestions, env, records, trace);
  }

  /** Relaying the provider's fragments and saving the transcript. */
  method StreamReply(botId: String, req: ChatRequest, message: String, suggestions: seq<String>,
                     env: Env, records: seq<HistoryRecord>, trace0: seq<Step>)
    returns (reply: Reply, trace: seq<Step>, records': seq<HistoryRecord>)
    ensures Outcome(reply, trace, records') == RespondStreamed(botId, req, message, suggestions, env, records, trace0)
  {
    trace, records' := trace0, records;
    var events, fullResponse := StreamFragments(env.run.fragments);
    if env.run.throws {
      // headers go out with the first write: before it the error is a JSON reply
      if events == [] {
        reply := Json(500, ProcessingError);
      } else {
        reply := Stream(events);
      }
      return;
    }
    reply := Stream(events + [TerminalEvent(suggestions)]);

    var saveSteps;
    records', saveSteps := SaveHistory(records, req, message, fullResponse, botId, env.saveThrows);
    trace := trace + saveSteps;
  }

  // ---------------------------------------------------------------------------
  // Lemmas
  // ---------------------------------------------------------------------------

  lemma {:induction false} ContentEventsSnoc(fragments: seq<String>, f: String)
    ensures ContentEvents(fragments + [f]) == ContentEvents(fragments) + (if f != [] then [ContentEvent(f)] else [])
  {
    if fragments == [] {
      assert fragments + [f] == [f];
    } else {
      var head := if fragments[0] != [] then [ContentEvent(fragments[0])] else [];
      var last := if f != [] then [ContentEvent(f)] else [];
      assert (fragments + [f])[0] == fragments[0];
      assert (fragments + [f])[1..] == fragments[1..] + [f];
      assert ContentEvents(fragments + [f]) == head + ContentEvents(fragments[1..] + [f]);
      ContentEventsSnoc(fragments[1..], f);
      assert head + (ContentEvents(fragments[1..]) + last) == (head + ContentEvents(fragments[1..])) + last;
    }
  }

  lemma {:induction false} ConcatSnoc(fragments: seq<String>, f: String)
    ensures Concat(fragments + [f]) == Concat(fragments) + f
  {
    if fragments == [] {
      assert fragments + [f] == [f];
    } else {
      assert (fragments + [f])[1..] == fragments[1..] + [f];
      ConcatSnoc(fragments[1..], f);
    }
  }

  /** Content events carry non-empty text and are never terminal; every
      non-empty fragment has its event; their texts run together to
      `fullResponse`. */
  lemma {:induction false} ContentEventsFaithful(fragments: seq<String>)
    ensures forall e :: e in ContentEvents(fragments) ==>
              !e.finished && !e.error && e.content.Some? && e.content.value != []
    ensures forall i :: 0 <= i < |fragments| && fragments[i] != [] ==>
              ContentEvent(fragments[i]) in ContentEvents(fragments)
    ensures |ContentEvents(fragments)| <= |fragments|
    ensures StreamedText(ContentEvents(fragments)) == Concat(fragments)
  {
    if fragments != [] {
      ContentEventsFaithful(fragments[1..]);
      forall i | 0 < i < |fragments| && fragments[i] != []
        ensures ContentEvent(fragments[i]) in ContentEvents(fragments)
      {
        assert fragments[1..][i - 1] == fragments[i];
      }
      StreamedTextAppend(if fragments[0] != [] then [ContentEvent(fragments[0])] else [], ContentEvents(fragments[1..]));
    }
  }

  /** The upsert leaves at most one record per session when there was at most
      one, stores the transcript under the session id, and leaves every other
      session's records untouched. */
  lemma UpsertKeepsSessionsUnique(records: seq<HistoryRecord>, sid: String, messages: seq<Turn>, botId: String)
    requires forall i, j :: 0 <= i < j < |records| && records[i].sessionId == sid ==> records[j].sessionId != sid
    ensures var r := Upsert(records, sid, messages, botId);
            && (forall i, j :: 0 <= i < j < |r| && r[i].sessionId == sid ==> r[j].sessionId != sid)
            && (exists k :: 0 <= k < |r| && r[k].sessionId == sid && r[k].messages == messages)
            && (forall k :: 0 <= k < |records| && records[k].sessionId != sid ==> r[k] == records[k])
            && |r| <= |records| + 1
  {
    var r := Upsert(records, sid, messages, botId);
    match FirstSession(records, sid)
    case Some(k) =>
      assert r[k].sessionId == sid && r[k].messages == messages;
    case None =>
      assert r[|records|].sessionId == sid;
  }

  /** The first record with the session id is the one `FirstSession` finds. */
  lemma {:induction false} FirstSessionAt(records: seq<HistoryRecord>, sid: String, k: nat)
    requires k < |records| && records[k].sessionId == sid
    requires forall j :: 0 <= j < k ==> records[j].sessionId != sid
    ensures FirstSession(records, sid) == Some(k)
  {
    if k > 0 {
      FirstSessionAt(records[1..], sid, k - 1);
    }
  }

  /** A second turn of the same session overwrites the record the first turn
      wrote: the history ends as if only the second turn had been saved. */
  lemma UpsertTwice(records: seq<HistoryRecord>, sid: String, m1: seq<Turn>, m2: seq<Turn>, botId: String)
    ensures Upsert(Upsert(records, sid, m1, botId), sid, m2, botId) == Upsert(records, sid, m2, botId)
  {
    var once := Upsert(records, sid, m1, botId);
    match FirstSession(records, sid)
    case Some(k) =>
      assert once == records[k := records[k].(messages := m1)];
      FirstSessionAt(once, sid, k);
      assert Upsert(once, sid, m2, botId) == once[k := once[k].(messages := m2)];
    case None =>
      var created := HistoryRecord("Session: " + sid, sid, m1, botId);
      assert once == records + [created];
      FirstSessionAt(once, sid, |records|);
      assert Upsert(once, sid, m2, botId) == once[|records| := created.(messages := m2)];
      assert once[|records| := created.(messages := m2)] == records + [created.(messages := m2)];
  }

  /** The saved transcript ends with the user's message and the answer, after
      the client's history unchanged. */
  lemma TranscriptShape(history: seq<Turn>, message: String, answer: String)
    ensures var t := Transcript(history, message, answer);
            && |t| == |history| + 2 && t[..|history|] == history
            && t[|history|] == Turn("user", message) && t[|history| + 1] == Turn("bot", answer)
  {
  }

  // ---------------------------------------------------------------------------
  // Properties of the route
  // ---------------------------------------------------------------------------

  /** The bot the route found, when it found one. */
  predicate FoundBot(req: ChatRequest, env: Env) {
    Truthy(req.message) && env.bot.Ok? && env.bot.value.Some?
  }

  /** The route got past context assembly. */
  predicate ContextReady(req: ChatRequest, env: Env) {
    FoundBot(req, env) &&
    (|ActiveUids(env.bot.value.value.activeSources)| == 0 || env.knowledge.Ok?)
  }

  /** Past context assembly, the route is the conversation with the bot's
      blob and the calls made so far. */
  lemma ReachesConversation(botId: String, req: ChatRequest, env: Env, records: seq<HistoryRecord>)
    requires ContextReady(req, env)
    ensures Respond(botId, req, env, records)
         == RespondWithContext(botId, req, req.message.value, env.bot.value.value,
                               KnowledgeBlob(env.bot.value.value.activeSources, StoreOf(env)),
                               env, records, ContextTrace(env.bot.value.value))
  {
  }

  /** The two ways the conversation goes: the error events for an unsupported
      provider, otherwise one call of the provider and the stream. */
  lemma Conversation(botId: String, req: ChatRequest, message: String, bot: BotConfig, blob: String,
                     env: Env, records: seq<HistoryRecord>, trace: seq<Step>)
    ensures var persona := Persona.ResolvePersona(bot.domain, bot.freePromptSystemMessage);
            var o := RespondWithContext(botId, req, message, bot, blob, env, records, trace);
            match SelectProvider(bot.llmProvider)
            case None =>
              o == Outcome(Stream([ContentEvent(UnsupportedMessage(bot.llmProvider)), ErrorTerminalEvent()]), trace, records)
            case Some(p) =>
              o == RespondStreamed(botId, req, message, persona.suggestedQuestions, env, records,
                                   trace + [CallProvider(BuildRequest(p, ProviderKey(bot.apiKeyEncrypted, env.decrypt),
                                                                      Persona.ComposePrompt(persona.personality, blob),
                                                                      req.history, message))])
  {
  }

  /** The stream, component by component. */
  lemma Streamed(botId: String, req: ChatRequest, message: String, suggestions: seq<String>,
                 env: Env, records: seq<HistoryRecord>, trace: seq<Step>)
    ensures var o := RespondStreamed(botId, req, message, suggestions, env, records, trace);
            var content := ContentEvents(env.run.fragments);
            && o.trace == trace + (if !env.run.throws && Truthy(req.sessionId) then [SaveTranscript] else [])
            && o.records == (if env.run.throws || !Truthy(req.sessionId) || env.saveThrows then records
                             else Upsert(records, req.sessionId.value,
                                         Transcript(req.history, message, Concat(env.run.fragments)), botId))
            && o.reply == (if !env.run.throws then Stream(content + [TerminalEvent(suggestions)])
                           else if content == [] then Json(500, ProcessingError)
                           else Stream(content))
  {
  }

  /** The request and the 404 are decided before anything else happens: no
      stream, no provider call, no transcript. */
  lemma GuardsComeFirst(botId: String, req: ChatRequest, env: Env, records: seq<HistoryRecord>)
    ensures !Truthy(req.message) ==> Respond(botId, req, env, records) == Outcome(Json(400, MessageRequired), [], records)
    ensures Truthy(req.message) && env.bot == Ok(None) ==>
              Respond(botId, req, env, records) == Outcome(Json(404, BotNotFound), [FetchBot], records)
    ensures !FoundBot(req, env) ==> Respond(botId, req, env, records).reply.Json?
                                    && Respond(botId, req, env, records).records == records
  {
  }

  /** The persona suggestions of the bot the route found. */
  function Suggestions(env: Env): seq<String>
    requires env.bot.Ok? && env.bot.value.Some?
  {
    var bot := env.bot.value.value;
    Persona.ResolvePersona(bot.domain, bot.freePromptSystemMessage).suggestedQuestions
  }

  /** The request the route sends to a supported provider. */
  function SentRequest(req: ChatRequest, env: Env): LlmRequest
    requires ContextReady(req, env) && SelectProvider(env.bot.value.value.llmProvider).Some?
  {
    var bot := env.bot.value.value;
    var persona := Persona.ResolvePersona(bot.domain, bot.freePromptSystemMessage);
    BuildRequest(SelectProvider(bot.llmProvider).value, ProviderKey(bot.apiKeyEncrypted, env.decrypt),
                 Persona.ComposePrompt(persona.personality, KnowledgeBlob(bot.activeSources, StoreOf(env))),
                 req.history, req.message.value)
  }

  /** Past context assembly with a supported provider, the route is the
      stream after one provider call. */
  lemma ReachesStream(botId: String, req: ChatRequest, env: Env, records: seq<HistoryRecord>)
    requires ContextReady(req, env) && SelectProvider(env.bot.value.value.llmProvider).Some?
    ensures Respond(botId, req, env, records)
         == RespondStreamed(botId, req, req.message.value, Suggestions(env), env, records,
                            ContextTrace(env.bot.value.value) + [CallProvider(SentRequest(req, env))])
  {
    var bot := env.bot.value.value;
    ReachesConversation(botId, req, env, records);
    Conversation(botId, req, req.message.value, bot, KnowledgeBlob(bot.activeSources, StoreOf(env)),
                 env, records, ContextTrace(bot));
  }

  /** The reply of a supported provider that completes. */
  lemma CompletedReply(botId: String, req: ChatRequest, env: Env, records: seq<HistoryRecord>)
    requires ContextReady(req, env)
    requires SelectProvider(env.bot.value.value.llmProvider).Some? && !env.run.throws
    ensures Respond(botId, req, env, records).reply
            == Stream(ContentEvents(env.run.fragments) + [TerminalEvent(Suggestions(env))])
  {
    ReachesStream(botId, req, env, records);
    Streamed(botId, req, req.message.value, Suggestions(env), env, records,
             ContextTrace(env.bot.value.value) + [CallProvider(SentRequest(req, env))]);
  }

  /** The events of a completed stream: content events, then one terminal
      event; their text is the fragments run together. */
  lemma {:induction false} CompletedEvents(fragments: seq<String>, suggested: seq<String>)
    ensures var events := ContentEvents(fragments) + [TerminalEvent(suggested)];
            && events[|events| - 1] == TerminalEvent(suggested)
            && (forall i :: 0 <= i < |events| - 1 ==> !events[i].finished && events[i].content.Some?)
            && StreamedText(events) == Concat(fragments)
  {
    var content := ContentEvents(fragments);
    var events := content + [TerminalEvent(suggested)];
    ContentEventsFaithful(fragments);
    forall i | 0 <= i < |events| - 1
      ensures !events[i].finished && events[i].content.Some?
    {
      assert events[i] in content;
    }
    StreamedTextAppend(content, [TerminalEvent(suggested)]);
  }

  /** With a supported provider that completes, the client receives one content
      event per non-empty fragment, then exactly one terminal event carrying the
      persona's suggestions; the streamed text is `fullResponse`. */
  lemma CompletedStream(botId: String, req: ChatRequest, env: Env, records: seq<HistoryRecord>)
    requires ContextReady(req, env)
    requires SelectProvider(env.bot.value.value.llmProvider).Some? && !env.run.throws
    ensures var o := Respond(botId, req, env, records);
            && o.reply.Stream?
            && |o.reply.events| >= 1
            && o.reply.events[|o.reply.events| - 1] == TerminalEvent(Suggestions(env))
            && (forall i :: 0 <= i < |o.reply.events| - 1 ==>
                  !o.reply.events[i].finished && o.reply.events[i].content.Some?)
            && StreamedText(o.reply.events) == Concat(env.run.fragments)
  {
    CompletedReply(botId, req, env, records);
    CompletedEvents(env.run.fragments, Suggestions(env));
  }

  /** The provider receives the prompt built from the bot's persona and exactly
      its knowledge blob, with the client's history and message. */
  lemma ProviderSeesContext(botId: String, req: ChatRequest, env: Env, records: seq<HistoryRecord>)
    requires ContextReady(req, env)
    requires SelectProvider(env.bot.value.value.llmProvider).Some?
    ensures var bot := env.bot.value.value;
            var persona := Persona.ResolvePersona(bot.domain, bot.freePromptSystemMessage);
            var prompt := Persona.ComposePrompt(persona.personality, KnowledgeBlob(bot.activeSources, StoreOf(env)));
            var request := BuildRequest(SelectProvider(bot.llmProvider).value, ProviderKey(bot.apiKeyEncrypted, env.decrypt),
                                        prompt, req.history, req.message.value);
            CallProvider(request) in Respond(botId, req, env, records).trace
  {
    var trace := ContextTrace(env.bot.value.value) + [CallProvider(SentRequest(req, env))];
    ReachesStream(botId, req, env, records);
    Streamed(botId, req, req.message.value, Suggestions(env), env, records, trace);
    assert trace[|trace| - 1] == CallProvider(SentRequest(req, env));
  }

  /** An unsupported provider gets one error content event naming it and a
      terminal error event without metadata; nothing is called or saved. */
  lemma UnsupportedProvider(botId: String, req: ChatRequest, env: Env, records: seq<HistoryRecord>)
    requires ContextReady(req, env)
    requires SelectProvider(env.bot.value.value.llmProvider).None?
    ensures var o := Respond(botId, req, env, records);
            && o.reply == Stream([ContentEvent(UnsupportedMessage(env.bot.value.value.llmProvider)),
                                  Payload(None, true, true, None)])
            && o.records == records
            && forall s :: s in o.trace ==> !s.CallProvider? && s != SaveTranscript
  {
    var bot := env.bot.value.value;
    ReachesConversation(botId, req, env, records);
    Conversation(botId, req, req.message.value, bot, KnowledgeBlob(bot.activeSources, StoreOf(env)),
                 env, records, ContextTrace(bot));
  }

  /** The outcome of a supported provider that throws. */
  lemma FailedOutcome(botId: String, req: ChatRequest, env: Env, records: seq<HistoryRecord>)
    requires ContextReady(req, env)
    requires SelectProvider(env.bot.value.value.llmProvider).Some? && env.run.throws
    ensures var o := Respond(botId, req, env, records);
            var content := ContentEvents(env.run.fragments);
            && o.records == records
            && |o.trace| == |ContextTrace(env.bot.value.value)| + 1
            && o.trace[..|o.trace| - 1] == ContextTrace(env.bot.value.value)
            && o.trace[|o.trace| - 1].CallProvider?
            && o.reply == (if content == [] then Json(500, ProcessingError) else Stream(content))
  {
    var trace := ContextTrace(env.bot.value.value) + [CallProvider(SentRequest(req, env))];
    ReachesStream(botId, req, env, records);
    Streamed(botId, req, req.message.value, Suggestions(env), env, records, trace);
    assert trace[..|trace| - 1] == ContextTrace(env.bot.value.value);
  }

  /** A provider that throws mid-stream leaves the client without a terminal
      event (or with a 500 reply when nothing was written yet), and no
      transcript is saved. */
  lemma MidStreamFailure(botId: String, req: ChatRequest, env: Env, records: seq<HistoryRecord>)
    requires ContextReady(req, env)
    requires SelectProvider(env.bot.value.value.llmProvider).Some? && env.run.throws
    ensures var o := Respond(botId, req, env, records);
            && o.records == records
            && SaveTranscript !in o.trace
            && (o.reply.Json? <==> AllEmpty(env.run.fragments))
            && (o.reply.Stream? ==> forall e :: e in o.reply.events ==> !e.finished)
  {
    FailedOutcome(botId, req, env, records);
    CutShortOutcome(Respond(botId, req, env, records), ContextTrace(env.bot.value.value), env.run.fragments);
  }

  /** An outcome shaped like a failed stream: context calls then the provider
      call, and the content events so far or a 500. */
  lemma CutShortOutcome(o: Outcome, t: seq<Step>, fragments: seq<String>)
    requires SaveTranscript !in t
    requires |o.trace| == |t| + 1 && o.trace[..|o.trace| - 1] == t && o.trace[|o.trace| - 1].CallProvider?
    requires o.reply == (if ContentEvents(fragments) == [] then Json(500, ProcessingError)
                         else Stream(ContentEvents(fragments)))
    ensures SaveTranscript !in o.trace
    ensures o.reply.Json? <==> AllEmpty(fragments)
    ensures o.reply.Stream? ==> forall e :: e in o.reply.events ==> !e.finished
  {
    var call := o.trace[|o.trace| - 1];
    assert o.trace == t + [call];
    assert SaveTranscript != call;
    CutShortEvents(fragments);
    if ContentEvents(fragments) == [] {
      assert o.reply.Json?;
    } else {
      assert o.reply.events == ContentEvents(fragments);
    }
  }

  /** Every fragment is empty: the provider streamed no text. */
  predicate AllEmpty(fragments: seq<String>) {
    forall i :: 0 <= i < |fragments| ==> fragments[i] == []
  }

  /** The events of a stream cut short: none is terminal, and there are none
      exactly when every fragment was empty. */
  lemma CutShortEvents(fragments: seq<String>)
    ensures ContentEvents(fragments) == [] <==> AllEmpty(fragments)
    ensures forall e :: e in ContentEvents(fragments) ==> !e.finished
  {
    ContentEventsFaithful(fragments);
    if ContentEvents(fragments) == [] {
      NoEventsNoText(fragments);
    } else {
      NoTextNoEvents(fragments);
    }
  }

  lemma {:induction false} NoEventsNoText(fragments: seq<String>)
    requires ContentEvents(fragments) == []
    ensures forall i :: 0 <= i < |fragments| ==> fragments[i] == []
  {
    ContentEventsFaithful(fragments);
  }

  lemma {:induction false} NoTextNoEvents(fragments: seq<String>)
    requires ContentEvents(fragments) != []
    ensures exists i :: 0 <= i < |fragments| && fragments[i] != []
  {
    if fragments[0] == [] {
      assert ContentEvents(fragments) == ContentEvents(fragments[1..]);
      NoTextNoEvents(fragments[1..]);
      var i :| 0 <= i < |fragments[1..]| && fragments[1..][i] != [];
      assert fragments[i + 1] != [];
    }
  }

  /** After a completed stream the transcript is saved exactly when the
      session id is truthy and the save does not throw; it holds the history,
      the message and the streamed answer, under that session id. */
  lemma TranscriptSaved(botId: String, req: ChatRequest, env: Env, records: seq<HistoryRecord>)
    requires ContextReady(req, env)
    requires SelectProvider(env.bot.value.value.llmProvider).Some? && !env.run.throws
    requires Truthy(req.sessionId) && !env.saveThrows
    requires forall i, j :: 0 <= i < j < |records| && records[i].sessionId == req.sessionId.value ==>
               records[j].sessionId != req.sessionId.value
    ensures var o := Respond(botId, req, env, records);
            var t := Transcript(req.history, req.message.value, Concat(env.run.fragments));
            && o.trace[|o.trace| - 1] == SaveTranscript
            && (exists k :: 0 <= k < |o.records| && o.records[k].sessionId == req.sessionId.value
                            && o.records[k].messages == t)
            && forall i, j :: 0 <= i < j < |o.records| && o.records[i].sessionId == req.sessionId.value ==>
                 o.records[j].sessionId != req.sessionId.value
  {
    var trace := ContextTrace(env.bot.value.value) + [CallProvider(SentRequest(req, env))];
    ReachesStream(botId, req, env, records);
    Streamed(botId, req, req.message.value, Suggestions(env), env, records, trace);
    UpsertKeepsSessionsUnique(records, req.sessionId.value,
                              Transcript(req.history, req.message.value, Concat(env.run.fragments)), botId);
  }

  /** Without a session id, or when the save throws, the records are untouched. */
  lemma NoSessionNoSave(botId: String, req: ChatRequest, env: Env, records: seq<HistoryRecord>)
    requires !Truthy(req.sessionId) || env.saveThrows
    ensures Respond(botId, req, env, records).records == records
  {
    if ContextReady(req, env) {
      var bot := env.bot.value.value;
      ReachesConversation(botId, req, env, records);
      Conversation(botId, req, req.message.value, bot, KnowledgeBlob(bot.activeSources, StoreOf(env)),
                   env, records, ContextTrace(bot));
      if SelectProvider(bot.llmProvider).Some? {
        var trace := ContextTrace(bot) + [CallProvider(SentRequest(req, env))];
        Streamed(botId, req, req.message.value, Suggestions(env), env, records, trace);
      }
    }
  }
}
