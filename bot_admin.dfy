/** Backend routes around the chat pipeline that edit one record: the bot
    update (`PUT /api/chatbots/:botId`), and the analytics routes that create
    a log, list a bot's logs and record feedback on one log. */
module BotAdmin {
  import opened Strings
  import opened Js
  import opened Records

  /** A body field that may be absent (`undefined`), `null`, or a string. */
  datatype BodyField = Undefined | Null | Text(s: String)

  /** The value a field stores once assigned: `null` is stored as missing. */
  function Stored(f: BodyField): Option<String>
    requires !f.Undefined?
  {
    if f.Null? then None else Some(f.s)
  }

  /** A field assigned only when the request defines it: the field after the
      assignment, or as it was when the body leaves it out. */
  function Assigned(current: Option<String>, f: BodyField): (r: Option<String>)
    ensures f.Undefined? ==> r == current
    ensures f.Null? ==> r.None?
    ensures f.Text? ==> r == Some(f.s)
  {
    if f.Undefined? then current else Stored(f)
  }

  predicate FieldTruthy(f: BodyField) {
    f.Text? && f.s != []
  }

  /** The request body of `PUT /api/chatbots/:botId`. `uiSettings` is the
      settings object, given here already in the form `JSON.stringify` wrote. */
  datatype UpdateBody = UpdateBody(
    botName: BodyField,
    domain: BodyField,
    llmProvider: BodyField,
    apiKey: BodyField,
    uiSettings: Option<String>,
    connectedStackApiKey: BodyField,
    connectedStackDeliveryToken: BodyField,
    connectedStackEnvironment: BodyField,
    connectedModelUid: BodyField,
    freePromptSystemMessage: BodyField)

  datatype Reply<T> = Ok(status: int, value: T) | Error(status: int, message: String)

  const UpdateRequired: String := "Name, domain, and provider are required."
  const UpdateFailed: String := "Failed to update chatbot."

  /** The route: the three required fields must be truthy, then the fetched
      entry gets its name, domain and provider, and every optional field the
      body carries. `fetched` is the repository fetch (`None` when it throws)
      and `encrypt` the key vault. */
  method UpdateBot(body: UpdateBody, fetched: Option<BotConfig>, encrypt: String -> String)
    returns (reply: Reply<BotConfig>)
    ensures !(FieldTruthy(body.botName) && FieldTruthy(body.domain) && FieldTruthy(body.llmProvider)) ==>
              reply == Error(400, UpdateRequired)
    ensures (FieldTruthy(body.botName) && FieldTruthy(body.domain) && FieldTruthy(body.llmProvider)
             && fetched.None?) ==> reply == Error(500, UpdateFailed)
    ensures reply.Ok? <==> FieldTruthy(body.botName) && FieldTruthy(body.domain)
                           && FieldTruthy(body.llmProvider) && fetched.Some?
    ensures reply.Ok? ==>
              var old_ := fetched.value;
              var bot := reply.value;
              && reply.status == 200
              && bot.uid == old_.uid
              && bot.title == Some(body.botName.s) && bot.botName == Some(body.botName.s)
              && bot.domain == Some(body.domain.s) && bot.llmProvider == Some(body.llmProvider.s)
              && bot.apiKeyEncrypted == (if FieldTruthy(body.apiKey) then Some(encrypt(body.apiKey.s))
                                         else old_.apiKeyEncrypted)
              && bot.uiSettings == (if body.uiSettings.Some? then body.uiSettings else old_.uiSettings)
              && bot.connectedStackApiKey == Assigned(old_.connectedStackApiKey, body.connectedStackApiKey)
              && bot.connectedStackDeliveryToken
                 == Assigned(old_.connectedStackDeliveryToken, body.connectedStackDeliveryToken)
              && bot.connectedStackEnvironment
                 == Assigned(old_.connectedStackEnvironment, body.connectedStackEnvironment)
              && bot.connectedModelUid == Assigned(old_.connectedModelUid, body.connectedModelUid)
              && bot.freePromptSystemMessage ==
                   (if body.freePromptSystemMessage.Undefined? then old_.freePromptSystemMessage
                    else Some(if FieldTruthy(body.freePromptSystemMessage) then body.freePromptSystemMessage.s else ""))
              && bot.activeSources == old_.activeSources
              && bot.lastTrainedAt == old_.lastTrainedAt
  {
    if !(FieldTruthy(body.botName) && FieldTruthy(body.domain) && FieldTruthy(body.llmProvider)) {
      return Error(400, UpdateRequired);
    }
    if fetched.None? {
      return Error(500, UpdateFailed);
    }
    var entry := fetched.value;
    entry := entry.(title := Some(body.botName.s), botName := Some(body.botName.s),
                    domain := Some(body.domain.s), llmProvider := Some(body.llmProvider.s));
    if FieldTruthy(body.apiKey) {
      entry := entry.(apiKeyEncrypted := Some(encrypt(body.apiKey.s)));
    }
    if body.uiSettings.Some? {
      entry := entry.(uiSettings := body.uiSettings);
    }
    entry := entry.(connectedStackApiKey := Assigned(entry.connectedStackApiKey, body.connectedStackApiKey),
                    connectedStackDeliveryToken := Assigned(entry.connectedStackDeliveryToken, body.connectedStackDeliveryToken),
                    connectedStackEnvironment := Assigned(entry.connectedStackEnvironment, body.connectedStackEnvironment),
                    connectedModelUid := Assigned(entry.connectedModelUid, body.connectedModelUid));
    if !body.freePromptSystemMessage.Undefined? {
      var message := if FieldTruthy(body.freePromptSystemMessage) then body.freePromptSystemMessage.s else "";
      entry := entry.(freePromptSystemMessage := Some(message));
    }
    reply := Ok(200, entry);
  }

  // ---------------------------------------------------------------------------
  // Analytics routes
  // ---------------------------------------------------------------------------

  const LogMissing: String := "Missing botId or query."

  /** `POST /api/analytics/log`: needs a truthy bot id and query; the new log
      starts with feedback 0 and a response time of 0 when none is given.
      `uid` is the id the repository assigns (`None` when the create throws). */
  function LogAnalytics(botId: Option<String>, userQuery: Option<String>, responseText: String,
                        responseTimeMs: Option<int>, uid: Option<String>): (r: Reply<AnalyticsLog>)
    ensures !Truthy(botId) || !Truthy(userQuery) ==> r == Error(400, LogMissing)
    ensures r.Ok? ==> r.status == 201 && r.value.userFeedback == 0 && r.value.userQuery == userQuery
                      && r.value.botRef == botId.value && r.value.responseText == responseText
                      && (responseTimeMs.None? || responseTimeMs == Some(0) ==> r.value.responseTimeMs == 0)
                      && (responseTimeMs.Some? ==> r.value.responseTimeMs == responseTimeMs.value)
                      && Some(r.value.uid) == uid
    ensures r.Ok? <==> Truthy(botId) && Truthy(userQuery) && uid.Some?
    ensures Truthy(botId) && Truthy(userQuery) && uid.None? ==> r.Error? && r.status == 500
  {
    if !Truthy(botId) || !Truthy(userQuery) then Error(400, LogMissing)
    else if uid.None? then Error(500, "Failed to log analytics.")
    else
      var time := if responseTimeMs.Some? && responseTimeMs.value != 0 then responseTimeMs.value else 0;
      Ok(201, AnalyticsLog(uid.value, userQuery, responseText, time, 0, botId.value))
  }

  /** An entry the analytics listing keeps: `user_query` is a string with
      something other than whitespace in it. */
  predicate IsAnalyticsLog(e: AnalyticsLog) {
    e.userQuery.Some? && Trim(e.userQuery.value) != []
  }

  /** `(entries.items || []).filter(item => typeof item.user_query === 'string'
      && item.user_query.trim().length > 0)` */
  function AnalyticsLogs(items: seq<AnalyticsLog>): seq<AnalyticsLog> {
    if items == [] then []
    else (if IsAnalyticsLog(items[0]) then [items[0]] else []) + AnalyticsLogs(items[1..])
  }

  /** The listing keeps exactly the entries with a non-blank query, in order. */
  lemma {:induction false} AnalyticsLogsExact(items: seq<AnalyticsLog>)
    ensures forall e :: e in AnalyticsLogs(items) <==> e in items && IsAnalyticsLog(e)
    ensures |AnalyticsLogs(items)| <= |items|
  {
    if items != [] {
      AnalyticsLogsExact(items[1..]);
      assert items == [items[0]] + items[1..];
    }
  }

  /** The listing keeps repository order: filtering a concatenation filters
      each part and keeps the parts in order. */
  lemma {:induction false} AnalyticsLogsOrder(s1: seq<AnalyticsLog>, s2: seq<AnalyticsLog>)
    ensures AnalyticsLogs(s1 + s2) == AnalyticsLogs(s1) + AnalyticsLogs(s2)
  {
    if s1 == [] {
      assert s1 + s2 == s2;
    } else {
      var head := if IsAnalyticsLog(s1[0]) then [s1[0]] else [];
      assert (s1 + s2)[0] == s1[0];
      assert (s1 + s2)[1..] == s1[1..] + s2;
      assert AnalyticsLogs(s1 + s2) == head + AnalyticsLogs(s1[1..] + s2);
      AnalyticsLogsOrder(s1[1..], s2);
      assert AnalyticsLogs(s1) == head + AnalyticsLogs(s1[1..]);
    }
  }

  /** Every log the chat widget creates is listed: its query is the user's
      message, which the send guard required to be non-blank. */
  lemma CreatedLogIsListed(botId: String, message: String, responseText: String, time: Option<int>, uid: String)
    requires botId != [] && Trim(message) != []
    ensures var r := LogAnalytics(Some(botId), Some(message), responseText, time, Some(uid));
            r.Ok? && IsAnalyticsLog(r.value)
  {
    TrimEmpty(message);
  }

  const FeedbackRequired: String := "Feedback value is required."
  const NotALog: String := "The specified entry is not an analytics log."

  /** `PUT /api/analytics/feedback/:logId`: the feedback must be given, the
      entry must have a truthy `user_query` (so knowledge entries are never
      touched), and then only `user_feedback` changes. `fetched` is `None`
      when the fetch throws. */
  function RecordFeedback(feedback: Option<int>, fetched: Option<AnalyticsLog>): (r: Reply<AnalyticsLog>)
    ensures feedback.None? ==> r == Error(400, FeedbackRequired)
    ensures feedback.Some? && fetched.None? ==> r == Error(500, "Failed to update feedback.")
    ensures feedback.Some? && fetched.Some? && !Truthy(fetched.value.userQuery) ==> r == Error(400, NotALog)
    ensures r.Ok? <==> feedback.Some? && fetched.Some? && Truthy(fetched.value.userQuery)
    ensures r.Ok? ==> r.value == fetched.value.(userFeedback := feedback.value)
  {
    if feedback.None? then Error(400, FeedbackRequired)
    else if fetched.None? then Error(500, "Failed to update feedback.")
    else if !Truthy(fetched.value.userQuery) then Error(400, NotALog)
    else Ok(200, fetched.value.(userFeedback := feedback.value))
  }
}
