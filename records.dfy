/** The records that the backend reads from and writes to the content
    repository: bot configurations, knowledge entries, chat transcripts and
    analytics logs. Only the fields the modelled code touches are kept. */
module Records {
  import opened Strings
  import opened Js

  /** A point in time as the code compares it: a parsed date, or an
      unparseable one (an Invalid Date, with which every comparison is false). */
  datatype Stamp = At(millis: int) | Unparseable

  /** One element of a bot's `active_knowledge_sources` list. */
  datatype KnowledgeRef = KnowledgeRef(uid: Option<String>, contentType: String, sourceName: Option<String>)

  /** A `customknowledge` entry. */
  datatype KnowledgeEntry = KnowledgeEntry(
    uid: String,
    sourceText: String,
    sourceId: Option<String>,
    sourceName: Option<String>,
    botRef: String)

  /** A `chatbot_config` entry. `activeSources` is `None` when the field is
      missing or not an array. */
  datatype BotConfig = BotConfig(
    uid: String,
    title: Option<String>,
    botName: Option<String>,
    domain: Option<String>,
    llmProvider: Option<String>,
    apiKeyEncrypted: Option<String>,
    uiSettings: Option<String>,
    freePromptSystemMessage: Option<String>,
    connectedStackApiKey: Option<String>,
    connectedStackDeliveryToken: Option<String>,
    connectedStackEnvironment: Option<String>,
    connectedModelUid: Option<String>,
    activeSources: Option<seq<KnowledgeRef>>,
    lastTrainedAt: Option<Stamp>)

  /** A chat turn as the client sends it in `history`. */
  datatype Turn = Turn(sender: String, text: String)

  /** A `chat_history` entry; `messages` wraps each turn as `{message:{sender,text}}`. */
  datatype HistoryRecord = HistoryRecord(
    title: String,
    sessionId: String,
    messages: seq<Turn>,
    botRef: String)

  /** An analytics log entry. `userQuery` is `None` when the field is not a string. */
  datatype AnalyticsLog = AnalyticsLog(
    uid: String,
    userQuery: Option<String>,
    responseText: String,
    responseTimeMs: int,
    userFeedback: int,
    botRef: String)

  /** `Array.prototype.find` by uid, as an option: the first element whose uid
      is `id`, if any. */
  function FindByUid<T(==)>(items: seq<T>, uidOf: T -> String, id: String): (r: Option<T>)
    ensures r.Some? ==> r.value in items && uidOf(r.value) == id
    ensures r.Some? ==> exists k :: 0 <= k < |items| && items[k] == r.value
                                    && forall j :: 0 <= j < k ==> uidOf(items[j]) != id
    ensures r.None? ==> forall x :: x in items ==> uidOf(x) != id
  {
    if items == [] then None
    else if uidOf(items[0]) == id then
      Some(items[0])
    else
      var r := FindByUid(items[1..], uidOf, id);
      if r.Some? then
        var k :| 0 <= k < |items[1..]| && items[1..][k] == r.value
                 && forall j :: 0 <= j < k ==> uidOf(items[1..][j]) != id;
        assert items[k + 1] == r.value;
        assert forall j :: 0 <= j < k + 1 ==> uidOf(items[j]) != id by {
          forall j | 0 < j < k + 1 ensures uidOf(items[j]) != id {
            assert items[j] == items[1..][j - 1];
          }
        }
        r
      else r
  }
}
