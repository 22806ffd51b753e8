/** Persona lookup and system-prompt composition for a chat turn. */
module Persona {
  import opened Strings
  import opened Js

  const EcommercePersonality: String := "You are a world-class e-commerce assistant..."
  const TravelPersonality: String := "You are 'Wanderlust AI', a vibrant travel agent..."
  const EducationPersonality: String := "You are a patient and knowledgeable University Advisor..."
  const GenericPersonality: String := "You are a helpful general-purpose assistant."

  const EcommerceQuestions: seq<String> := ["Tell me about your laptops", "What is the return policy?"]
  const TravelQuestions: seq<String> := ["Find me a beach vacation", "Show me deals for Japan"]
  const EducationQuestions: seq<String> := ["Tell me about Stanford", "What are the partner universities?"]

  /** The persona a bot speaks with and the suggested questions sent with the
      terminal event of every chat turn. */
  datatype Persona = Persona(personality: String, suggestedQuestions: seq<String>)

  /** The `switch` on `domain_bot`. */
  function ResolvePersona(domain: Option<String>, freePrompt: Option<String>): (p: Persona)
    ensures p.personality != []
    ensures domain == Some("Free Prompt") ==>
              p == Persona(if Truthy(freePrompt) then freePrompt.value else GenericPersonality, [])
    ensures p.suggestedQuestions != [] ==> |p.suggestedQuestions| == 2
  {
    if domain == Some("E-commerce") then Persona(EcommercePersonality, EcommerceQuestions)
    else if domain == Some("Travel") then Persona(TravelPersonality, TravelQuestions)
    else if domain == Some("Education") then Persona(EducationPersonality, EducationQuestions)
    else if domain == Some("Free Prompt") then Persona(OrDefault(freePrompt, GenericPersonality), [])
    else Persona(GenericPersonality, [])
  }

  predicate NamedDomain(domain: Option<String>) {
    domain == Some("E-commerce") || domain == Some("Travel") || domain == Some("Education")
  }

  /** Only the three named domains come with suggested questions; every other
      tag, missing tags included, gets the generic line unless it is
      `Free Prompt` with a non-empty custom message. */
  lemma PersonaTotal(domain: Option<String>, freePrompt: Option<String>)
    ensures ResolvePersona(domain, freePrompt).suggestedQuestions != [] <==> NamedDomain(domain)
    ensures !NamedDomain(domain) && !(domain == Some("Free Prompt") && Truthy(freePrompt)) ==>
              ResolvePersona(domain, freePrompt) == Persona(GenericPersonality, [])
  {
  }

  /** The custom message never leaks into a named domain: only `Free Prompt`
      reads it. */
  lemma FreePromptOnlyForFreeDomain(domain: Option<String>, f1: Option<String>, f2: Option<String>)
    requires domain != Some("Free Prompt")
    ensures ResolvePersona(domain, f1) == ResolvePersona(domain, f2)
  {
  }

  // ---------------------------------------------------------------------------
  // Prompt templates
  // ---------------------------------------------------------------------------

  function Rule1(personality: String): String {
    "Rule #1: You MUST strictly follow your persona: \"" + personality + "\"."
  }

  // The long template texts are written as several short literals: the
  // text is the same, and the verifier handles short literals more cheaply.

  /** The text both templates share after Rule #1. */
  const Rule2Lead: String := "\nRule #2: You "

  const KnowledgeRules: String :=
    Rule2Lead + KnowledgeRule2 + KnowledgeRule3 + "\n\n--- KNOWLEDGE BASE ---\n"

  const KnowledgeRule3: String :=
    "\nRule #3: If the question is "
    + "outside your Knowledge Base, use "
    + "your general AI knowledge to "
    + "answer, but ALWAYS remain in "
    + "your persona. Never refuse to "
    + "answer a general question."

  const KnowledgeRule2: String :=
    "have a specialized Knowledge "
    + "Base. If the user's question can "
    + "be answered using the Knowledge "
    + "Base below, you MUST use it as "
    + "your primary source."

  const KnowledgeEnd: String := "\n--- END KNOWLEDGE BASE ---"

  const GeneralRules: String := Rule2Lead + GeneralRule2

  const GeneralRule2: String :=
    "do not have a specialized "
    + "knowledge base. Use your general "
    + "AI knowledge to answer all "
    + "questions to the best of your "
    + "ability, while always remaining "
    + "in your persona. Never refuse to "
    + "answer."

  /** The system prompt: the knowledge template when the blob is non-empty,
      the general template otherwise. */
  function ComposePrompt(personality: String, blob: String): String {
    if blob != [] then Rule1(personality) + KnowledgeRules + blob + KnowledgeEnd
    else Rule1(personality) + GeneralRules
  }

  /** Reads the knowledge blob back out of a prompt composed for `personality`. */
  function KnowledgeIn(prompt: String, personality: String): (r: Option<String>)
    ensures r.Some? ==> prompt == Rule1(personality) + KnowledgeRules + r.value + KnowledgeEnd
  {
    var head := Rule1(personality) + KnowledgeRules;
    if |head| + |KnowledgeEnd| <= |prompt| && prompt[..|head|] == head
       && prompt[|prompt| - |KnowledgeEnd|..] == KnowledgeEnd
    then
      var r := prompt[|head|..|prompt| - |KnowledgeEnd|];
      assert prompt == prompt[..|head|] + r + prompt[|prompt| - |KnowledgeEnd|..];
      Some(r)
    else None
  }

  /** Every prompt quotes the persona in Rule #1. */
  lemma PromptQuotesPersona(personality: String, blob: String)
    ensures StartsWith(ComposePrompt(personality, blob), Rule1(personality))
  {
    var rest := if blob != [] then KnowledgeRules + blob + KnowledgeEnd else GeneralRules;
    if blob != [] {
      AppendAssoc(Rule1(personality) + KnowledgeRules, blob, KnowledgeEnd);
      AppendAssoc(Rule1(personality), KnowledgeRules, blob + KnowledgeEnd);
      AppendAssoc(KnowledgeRules, blob, KnowledgeEnd);
    }
    assert ComposePrompt(personality, blob) == Rule1(personality) + rest;
    StartsWithConcat(Rule1(personality), rest);
  }

  /** The prompt carries the knowledge section if and only if the blob is
      non-empty, and that section holds exactly the blob. */
  lemma {:induction false} PromptKnowledgeRoundTrip(personality: String, blob: String)
    ensures KnowledgeIn(ComposePrompt(personality, blob), personality)
         == (if blob != [] then Some(blob) else None)
  {
    var head := Rule1(personality) + KnowledgeRules;
    var p := ComposePrompt(personality, blob);
    if blob != [] {
      assert p == head + blob + KnowledgeEnd;
      assert p[..|head|] == head;
      assert p[|p| - |KnowledgeEnd|..] == KnowledgeEnd;
      assert p[|head|..|p| - |KnowledgeEnd|] == blob;
    } else {
      // the general template is shorter than the knowledge template's frame
      assert |GeneralRules| < |KnowledgeRules| + |KnowledgeEnd|;
    }
  }
}
