/** Provider dispatch: choosing the language-model provider from the bot's
    `llm_provider` tag and building the request each provider receives. */
module Provider {
  import opened Strings
  import opened Js
  import opened Records

  datatype Provider = Gemini | OpenAi | Groq

  /** `(llm_provider || '').toLowerCase()` compared with the three names;
      `None` is the unsupported-provider branch. */
  function SelectProvider(llmProvider: Option<String>): Option<Provider> {
    var tag := ToLower(OrDefault(llmProvider, ""));
    if tag == "gemini" then Some(Gemini)
    else if tag == "openai" then Some(OpenAi)
    else if tag == "groq" then Some(Groq)
    else None
  }

  function ModelName(p: Provider): String {
    match p
    case Gemini => "gemini-1.5-flash"
    case OpenAi => "gpt-3.5-turbo"
    case Groq => "llama3-8b-8192"
  }

  /** Provider choice ignores letter case, and a missing or empty tag is
      unsupported. */
  lemma SelectProviderIgnoresCase(s: String)
    ensures SelectProvider(Some(ToUpper(s))) == SelectProvider(Some(s))
    ensures SelectProvider(Some(ToLower(s))) == SelectProvider(Some(s))
    ensures SelectProvider(None) == None && SelectProvider(Some([])) == None
  {
    LowerOfUpper(s);
    LowerOfLower(s);
    assert ToUpper(s) == [] <==> s == [];
    assert ToLower(s) == [] <==> s == [];
  }

  lemma LowerOfLower(s: String)
    ensures ToLower(ToLower(s)) == ToLower(s)
  {
    assert forall i :: 0 <= i < |s| ==> ToLowerChar(ToLowerChar(s[i])) == ToLowerChar(s[i]);
  }

  /** A mixed-case tag selects the provider its lower-case spelling names. */
  lemma MixedCaseTag()
    ensures SelectProvider(Some("OpenAI")) == Some(OpenAi)
    ensures SelectProvider(Some("Gemini")) == Some(Gemini)
    ensures SelectProvider(Some("GROQ")) == Some(Groq)
  {
    LowerTag("OpenAI", "openai");
    LowerTag("Gemini", "gemini");
    LowerTag("GROQ", "groq");
  }

  /** Lower-casing a tag character by character. */
  lemma LowerTag(tag: String, lower: String)
    requires |tag| == |lower| && forall i :: 0 <= i < |tag| ==> ToLowerChar(tag[i]) == lower[i]
    ensures ToLower(tag) == lower
  {
  }

  // ---------------------------------------------------------------------------
  // Requests
  // ---------------------------------------------------------------------------

  datatype Role = System | User | Assistant | ModelRole

  datatype ChatMessage = ChatMessage(role: Role, content: String)

  /** What a provider is called with. Gemini takes the system prompt as its
      system instruction, the mapped history, and then the message; OpenAI and
      Groq take one flat message list. */
  datatype LlmRequest =
    | GeminiCall(apiKey: String, model: String, systemInstruction: String,
                 history: seq<ChatMessage>, message: String)
    | CompletionCall(provider: Provider, apiKey: String, model: String, messages: seq<ChatMessage>)

  /** Maps client turns onto a provider's roles: `bot` becomes `botRole`,
      everything else `user`, the text unchanged. */
  function MapHistory(history: seq<Turn>, botRole: Role): (r: seq<ChatMessage>)
    ensures |r| == |history|
    ensures forall i :: 0 <= i < |history| ==>
              r[i].content == history[i].text &&
              (r[i].role == botRole <==> history[i].sender == "bot" || botRole == User) &&
              (history[i].sender != "bot" ==> r[i].role == User)
  {
    if history == [] then []
    else [ChatMessage(if history[0].sender == "bot" then botRole else User, history[0].text)]
         + MapHistory(history[1..], botRole)
  }

  /** The key handed to the provider SDK:
      `decrypt(String(api_key_encrypted || '').trim())`. */
  function ProviderKey(apiKeyEncrypted: Option<String>, decrypt: String -> String): String {
    decrypt(Trim(OrDefault(apiKeyEncrypted, "")))
  }

  function BuildRequest(p: Provider, apiKey: String, system: String, history: seq<Turn>, message: String): (r: LlmRequest)
    ensures r.apiKey == apiKey && r.model == ModelName(p)
    ensures p == Gemini <==> r.GeminiCall?
    ensures r.GeminiCall? ==> r.systemInstruction == system && r.message == message
                              && r.history == MapHistory(history, ModelRole)
    ensures r.CompletionCall? ==> r.provider == p
  {
    match p
    case Gemini => GeminiCall(apiKey, ModelName(p), system, MapHistory(history, ModelRole), message)
    case _ =>
      CompletionCall(p, apiKey, ModelName(p),
                     [ChatMessage(System, system)] + MapHistory(history, Assistant) + [ChatMessage(User, message)])
  }

  /** For OpenAI and Groq the message list is the system prompt, then every
      history turn in order with `bot` as `assistant`, then the new message. */
  lemma CompletionMessages(p: Provider, apiKey: String, system: String, history: seq<Turn>, message: String)
    requires p != Gemini
    ensures var m := BuildRequest(p, apiKey, system, history, message).messages;
            && |m| == |history| + 2
            && m[0] == ChatMessage(System, system)
            && m[|m| - 1] == ChatMessage(User, message)
            && forall i :: 0 <= i < |history| ==>
                 m[i + 1] == ChatMessage(if history[i].sender == "bot" then Assistant else User, history[i].text)
  {
  }
}
