# Chatbot platform core, modelled in Dafny

This project models the core of a chatbot-building platform. It has two sides:

- an Express backend that streams language-model answers to an embeddable chat widget;
- a React dashboard where bots are listed, edited, given knowledge and measured.

The model covers the following, one module per part:

- **Chat route** (`ChatHandler`, `Persona`, `Provider`, `Knowledge`, `Wire`). `POST /api/chat/:botId`:
  - the request guards and the 404;
  - assembly of the knowledge blob from the bot's active knowledge references;
  - the persona `switch` and the system prompt;
  - provider dispatch;
  - the `data: <json>\n\n` event stream, with its content, terminal and error events;
  - the transcript upsert into the chat history.

  The knowledge repository and the chat-history repository are sequences of records. The provider is given as its list of streamed fragments and whether it throws.
- **Knowledge routes** (`Knowledge`, `Ingestion`):
  - `addKnowledgeSource`;
  - the CSV `qaPairs` filter;
  - detaching a source by name;
  - the import route: `shouldIncludeKey`, `collectText`, `splitIntoChunks`, entry creation and the entry limit;
  - the sync route's candidate filter.
- **Record routes** (`BotAdmin`):
  - the bot update with its conditional field assignments;
  - the analytics-log creation, listing and feedback guards.
- **Chat widget** (`ChatWidget`). The `useStreamingChat` hook and the widget component are one class, `Widget`, whose fields are the React state: messages, suggestions, the loading flag and the input. Its methods are:
  - the initial-data effect;
  - `sendMessage`, with its read loop over chunks and lines;
  - `handleFeedback`, `handleSend` and `handleSuggestedQuestion`.

  What the read loop does is specified by a fold over the decoded events. That fold is connected end to end to what the chat route writes.
- **Dashboard pages**:
  - `AnalyticsPage`: the derived statistics.
  - `KnowledgeForms`: source grouping, import-body normalisation, credential prefill and the detach guard. `EditBotPage.jsx` and `KnowledgeSettingsPage.jsx` carry the same code, so it is defined once.
  - `EditBot`: the loaded form, the save it sends, and the local file list.
  - `Dashboard`: search, filter and sort, the cards and the embed code.
- **Shared helpers** (`Strings`, `Js`, `Sorting`, `Tally`):
  - JavaScript string operations;
  - truthiness and `||` fallbacks;
  - `Array.prototype.sort` as a stable sort by an integer key, sorting an array in place;
  - counting by key, read back in first-seen order (the order `Object.entries` gives keys that are not array indices).

Points where the parts of the source read each other's data differently:

- The widget reads each entry of a bot's `ai_generated_questions` as an object and takes `q?.suggested_question?.question` from it (`frontend-dashboard/src/components/ChatWidget.jsx:42-45`); the model does the same. The chat route's own fallback questions are bare strings (`backend-api/index.js:798`).
- The widget's own Education defaults (three questions) differ from the two the chat route sends (`ChatWidget.EducationDefaultsDiffer`).
- An unsupported provider gets a terminal event with `error: true` and no `metadata`.
- A provider that fails mid-stream leaves the client without a terminal event.

One consequence of the code is worth knowing. Every reference that `addKnowledgeSource` appends carries a uid and no `source_name` (backend-api/index.js:82-86). The source list therefore shows all of them under "Untitled Source", whatever name the source was added with (`KnowledgeForms.AddedRefsUntitled`). Detaching that group sends the literal name "Untitled Source", and the detach route matches `source_name` exactly (backend-api/index.js:700-703). So it deletes none of the entries added under a real name (`KnowledgeForms.UntitledDetachMissesAdded`), and those names are never shown, so no detach request can name them.

## Model

| member | source | states |
|---|---|---|
| ChatHandler.HandleChat | backend-api/index.js:729-883 | The whole route (reply, calls made, chat-history records afterwards) equals `Respond`, the route written as one expression, on every input. |
| ChatHandler.GuardsComeFirst | backend-api/index.js:733-739 | An empty or missing message gives 400 with no call made and the records unchanged. A missing bot gives 404 after only the bot fetch. Neither case opens an event stream. |
| ChatHandler.StreamFragments | backend-api/index.js:809-812 | The provider loop writes one content event per non-empty fragment, in order, and `fullResponse` is the fragments run together. |
| ChatHandler.ContentEventsFaithful | backend-api/index.js:809-836 | Content events are never terminal and carry non-empty text. Every non-empty fragment has its event. The texts of the events run together to `fullResponse`. |
| ChatHandler.ContentEventsSnoc | backend-api/index.js:809-812 | One more fragment adds its event at the end, or nothing when it is empty. |
| ChatHandler.ConcatSnoc | backend-api/index.js:811 | `fullResponse += content` appends the fragment. |
| ChatHandler.NoEventsNoText | backend-api/index.js:809-812 | No content event means every fragment was empty. |
| ChatHandler.NoTextNoEvents | backend-api/index.js:809-812 | Some content event means some fragment was non-empty. |
| ChatHandler.CompletedEvents | backend-api/index.js:844-845 | A completed stream is the content events and then exactly one terminal event. Its streamed text is the fragments run together. |
| ChatHandler.CompletedReply | backend-api/index.js:800-845 | A supported provider that completes gives a stream reply whose events are the content events followed by the terminal event carrying the persona's suggestions. |
| ChatHandler.CompletedStream | backend-api/index.js:798-845 | A completed stream has exactly one terminal event, it comes last and it holds the persona's suggestions, and the streamed text is `fullResponse`. |
| ChatHandler.ProviderSeesContext | backend-api/index.js:783-836 | The provider receives the prompt built from the bot's persona and exactly its knowledge blob, the decrypted key, the client's history and the message. |
| ChatHandler.UnsupportedProvider | backend-api/index.js:838-842 | An unsupported provider gets one error content event naming the provider, then `{finished:true, error:true}` without metadata. No provider is called and nothing is saved. |
| ChatHandler.FailedOutcome | backend-api/index.js:876-883 | A supported provider that throws gives a 500 when nothing was written yet. Otherwise the stream ends after the content events so far. The records are unchanged. |
| ChatHandler.MidStreamFailure | backend-api/index.js:877-881 | After a mid-stream failure no event is terminal and no transcript is saved. |
| ChatHandler.CutShortEvents | backend-api/index.js:877-881 | The events written before a failure are never terminal, and there are none exactly when every fragment was empty. |
| ChatHandler.CutShortOutcome | backend-api/index.js:876-883 | A failure after the provider call saves no transcript. It answers 500 exactly when every fragment was empty; otherwise the stream ends with no terminal event. |
| ChatHandler.ReachesConversation | backend-api/index.js:741-797 | Past context assembly, the route is the conversation with the bot's blob and the calls made so far. |
| ChatHandler.Conversation | backend-api/index.js:760-842 | The conversation is the two error events for an unsupported provider, otherwise one provider call followed by the stream. |
| ChatHandler.ReachesStream | backend-api/index.js:800-836 | With a supported provider, the route is the stream after exactly one provider call. |
| ChatHandler.Streamed | backend-api/index.js:844-874 | The stream, component by component: events, trace and records. |
| ChatHandler.Converse | backend-api/index.js:760-842 | The conversation method equals its reference expression. |
| ChatHandler.StreamReply | backend-api/index.js:844-874 | Relaying and saving equals its reference expression. |
| ChatHandler.SaveHistory | backend-api/index.js:847-874 | Without a truthy session id, or when the save throws, the records and the calls are unchanged. Otherwise the transcript is upserted under the session id. |
| ChatHandler.FirstSession | backend-api/index.js:855-857 | The index found is the first record with that session id, and there is none exactly when no record has it. |
| ChatHandler.FirstSessionAt | backend-api/index.js:855-857 | When record k is the first one with the session id, the lookup finds exactly k. |
| ChatHandler.UpsertKeepsSessionsUnique | backend-api/index.js:855-868 | The upsert stores the transcript under the session id, leaves at most one record per session, and leaves other sessions' records untouched. |
| ChatHandler.UpsertTwice | backend-api/index.js:855-868 | Two turns of the same session leave exactly the records a single upsert of the second transcript leaves: the session's record is overwritten, never duplicated. |
| ChatHandler.TranscriptShape | backend-api/index.js:849-852 | The saved transcript is the client's history, then the user's message, then the answer. |
| ChatHandler.TranscriptSaved | backend-api/index.js:844-874 | After a completed stream the transcript holds the history, the message and the streamed answer, under the truthy session id. |
| ChatHandler.NoSessionNoSave | backend-api/index.js:847-848 | Without a session id, or when the save throws, the records are untouched. |
| Knowledge.Texts | backend-api/index.js:750-752 | One `source_text` per entry, in order. |
| Knowledge.QueryInExact | backend-api/index.js:746-748 | The `$in` query returns exactly the stored entries whose uid is among the active uids. |
| Knowledge.QueryInOrder | backend-api/index.js:746-748 | The query keeps store order. |
| Knowledge.QueryInNone | backend-api/index.js:746-748 | An empty uid list selects nothing. |
| Knowledge.QueryInUnlisted | backend-api/index.js:746-748 | No entry is selected when no uid is listed. |
| Knowledge.BlobWithoutSources | backend-api/index.js:742-744 | With no active knowledge sources the blob is `""`. |
| Knowledge.BlobIsolation | backend-api/index.js:742-758 | The blob is the `source_text` of exactly the listed entries, joined with a blank line in store order, so no other bot's knowledge leaks in. |
| Knowledge.RefsTo | backend-api/index.js:82 | One reference per created entry, in order. |
| Knowledge.AppendRefsShape | backend-api/index.js:83-86 | The bot's references become the old ones (none when not an array), then one per created entry. |
| Knowledge.KeepRefsExact | backend-api/index.js:714-716 | A reference is kept exactly when it has no uid or its uid was not deleted. |
| Knowledge.KeepRefsOrder | backend-api/index.js:716 | The detach filter keeps the order of the references. |
| Knowledge.DetachUndoesAppend | backend-api/index.js:694-723 | Detaching the entries a source added gives back the references the bot had before. (See also lines 64-89.) |
| Knowledge.KeepAllUntouched | backend-api/index.js:716 | With no deleted uid among them, every reference stays. |
| Knowledge.DropAllCreated | backend-api/index.js:716 | References to deleted entries all go. |
| Knowledge.Without | backend-api/index.js:708-710 | The repository after deletion holds exactly the entries whose uid was not deleted. |
| Knowledge.SourceEntries | backend-api/index.js:700-704 | The detach query selects exactly this bot's entries with that `source_name`. |
| Knowledge.SourceEntriesAppend | backend-api/index.js:700-704 | The selection of a longer repository extends the selection of the shorter one. |
| Knowledge.DetachSource | backend-api/index.js:694-723 | The route deletes exactly the matching entries and counts them. The new repository is `Without` the deleted uids, so the remaining entries keep their order. The route removes exactly their references from the bot when it has some. |
| Knowledge.WithoutOrder | backend-api/index.js:708-710 | Deleting distributes over concatenation, so the remaining entries keep their store order. |
| Knowledge.AddKnowledgeSource | backend-api/index.js:64-89 | One entry per Q&A pair is appended, with the text `Question: …\nAnswer: …`, the source id and name and the bot reference. The bot's references grow by the new entries and the training date is set. |
| Knowledge.NewKnowledgeIsActive | backend-api/index.js:742-758 | Every entry added by a source is selected by the next chat turn's knowledge query. (See also lines 64-89.) |
| Knowledge.QaPairsExact | backend-api/index.js:657-659 | The CSV pairs are exactly the rows with a non-empty question and answer, in order. |
| Knowledge.CsvUpload | backend-api/index.js:640-660 | Pairs are produced exactly when there are rows and the first has both columns, and then they are exactly the rows' pairs. Otherwise the reply is the critical errors exactly when some code other than `TooManyFields` was reported, and then it lists exactly those codes in order, none of them `TooManyFields`. Otherwise (no code, or only `TooManyFields`) it is the header message. |
| Knowledge.NonTooManyFacts | backend-api/index.js:645 | A code survives the filter if and only if it was reported and is not `TooManyFields`. The result is never longer than the input. |
| Knowledge.NonTooManyOrder | backend-api/index.js:645 | The filter distributes over concatenation, so surviving codes keep their reported order. |
| Persona.ResolvePersona | backend-api/index.js:761-781 | The persona text is never empty. Free Prompt uses the custom message or the generic line, with no questions. A named domain has two questions. |
| Persona.PersonaTotal | backend-api/index.js:761-781 | Suggestions are present exactly for the three named domains. Every other tag, a missing one included, gets the generic line unless it is Free Prompt with a message. |
| Persona.FreePromptOnlyForFreeDomain | backend-api/index.js:775-777 | The custom message affects only the Free Prompt domain. |
| Persona.KnowledgeIn | backend-api/index.js:783-796 | Reading the knowledge section out of a prompt gives a text that rebuilds the prompt. |
| Persona.PromptQuotesPersona | backend-api/index.js:785-793 | Every prompt starts with Rule #1 quoting the persona. |
| Persona.PromptKnowledgeRoundTrip | backend-api/index.js:783-796 | The prompt has a knowledge section exactly when the blob is non-empty, and that section holds exactly the blob. |
| Provider.SelectProviderIgnoresCase | backend-api/index.js:805-826 | Provider choice ignores letter case, and a missing or empty tag is unsupported. |
| Provider.MixedCaseTag | backend-api/index.js:805-826 | `OpenAI`, `Gemini` and `GROQ` select their providers. |
| Provider.LowerOfLower | backend-api/index.js:805 | Lower-casing twice is lower-casing once. |
| Provider.MapHistory | backend-api/index.js:808-817 | One message per history turn: a bot turn takes the provider's bot role, every other turn is the user's. |
| Provider.BuildRequest | backend-api/index.js:806-832 | Each provider gets its model name and the decrypted key. Gemini gets the prompt as its system instruction and the message. The completion APIs get a message list. |
| Provider.CompletionMessages | backend-api/index.js:815-831 | The completion message list is the system prompt, then the mapped history, then the user's message. |
| Wire.StreamedTextAppend | backend-api/index.js:811 | The streamed text of two event runs is the two texts run together. |
| Wire.Lines | backend-api/index.js:811-844 | One `data: ` line per event. |
| Wire.SplitFrames | frontend-dashboard/src/components/ChatWidget.jsx:102 | Splitting the written frames on the blank line gives the event lines and then an empty piece. |
| Wire.DecodeFrame | frontend-dashboard/src/components/ChatWidget.jsx:104-107 | A written `data: ` line decodes back to its event. |
| Ingestion.CollectText | backend-api/index.js:392-410 | The method pushes onto `out` exactly `Collected` of the value. |
| Ingestion.CollectItems | backend-api/index.js:400-403 | The array branch pushes what each element collects, in order. |
| Ingestion.CollectMembers | backend-api/index.js:404-409 | The object branch pushes what each included member collects, in key order. |
| Ingestion.CollectedIsReachableText | backend-api/index.js:386-410 | What is collected is exactly the trimmed non-empty text of the strings reachable through included keys. |
| Ingestion.CollectedSound | backend-api/index.js:392-410 | Every collected text is reachable through included keys. |
| Ingestion.CollectedComplete | backend-api/index.js:392-410 | Every reachable non-blank string is collected. |
| Ingestion.CollectedTrimmed | backend-api/index.js:395-398 | Every collected string is trimmed and non-empty. |
| Ingestion.WhitelistOnly | backend-api/index.js:386-388 | With a `fields` whitelist, an object none of whose keys is listed contributes no text, whatever its members hold. |
| Ingestion.ItemsSnoc | backend-api/index.js:401 | One more element appends its text. |
| Ingestion.MembersSnoc | backend-api/index.js:405-408 | One more member appends its text when its key is included. |
| Ingestion.ItemsMember | backend-api/index.js:401 | Text from an array comes from one of its elements. |
| Ingestion.MembersMember | backend-api/index.js:405-408 | Text from an object comes from one of its included members. |
| Ingestion.AtIndex | backend-api/index.js:401 | Following an element index descends into that element. |
| Ingestion.AtMember | backend-api/index.js:406-407 | Following a member descends into that member. |
| Ingestion.ReachThroughIndex | backend-api/index.js:401 | Text reachable in an element is reachable in the array. |
| Ingestion.ReachThroughMember | backend-api/index.js:406-407 | Text reachable in an included member is reachable in the object. |
| Ingestion.CollectThroughIndex | backend-api/index.js:401 | Text an element collects is collected for the array. |
| Ingestion.CollectThroughMember | backend-api/index.js:406-407 | Text an included member collects is collected for the object. |
| Ingestion.Collapse | backend-api/index.js:413 | Every run of JavaScript whitespace (the full ECMAScript `\s` set, including no-break and Unicode spaces and line separators) becomes a single space. The result is empty exactly when the input is, and starts with whitespace exactly when the input does. |
| Ingestion.SingleSpacedCons | backend-api/index.js:413 | Prefixing a character keeps the text single-spaced under the stated conditions. |
| Ingestion.CollapseSingleSpaced | backend-api/index.js:413 | The collapsed text is single-spaced. |
| Ingestion.CollapseAllSpace | backend-api/index.js:413-414 | The collapsed text is blank exactly when the input is all whitespace. |
| Ingestion.SingleSpacedSlice | backend-api/index.js:413 | A slice of single-spaced text is single-spaced. |
| Ingestion.SingleSpacedTrim | backend-api/index.js:413 | Trimming single-spaced text keeps it single-spaced. |
| Ingestion.NormalizeShape | backend-api/index.js:413-414 | Normalized text is single-spaced and trimmed, and empty exactly when the input is all whitespace. |
| Ingestion.WithStops | backend-api/index.js:415 | Every piece but the last gets back the full stop the split consumed. |
| Ingestion.WithStopsAt | backend-api/index.js:415 | Element by element, what `WithStops` gives back. |
| Ingestion.WithStopsJoin | backend-api/index.js:415 | Joining the restored pieces gives back the original joined text. |
| Ingestion.SentencesJoin | backend-api/index.js:415 | Joining the sentences with single spaces gives back the normalized text. |
| Ingestion.SentenceShape | backend-api/index.js:415 | Every sentence of non-empty normalized text is non-empty and trimmed. |
| Ingestion.SpaceJoinTrimmed | backend-api/index.js:423 | Two trimmed non-empty texts joined by a space are trimmed. |
| Ingestion.StartChunk | backend-api/index.js:417-424 | The first sentence starts the first chunk. |
| Ingestion.CloseChunk | backend-api/index.js:419-421 | Closing a chunk keeps the chunks reading back as the sentences read so far. |
| Ingestion.ExtendChunk | backend-api/index.js:422-424 | Extending a chunk keeps the chunks reading back as the sentences read so far. |
| Ingestion.LastChunk | backend-api/index.js:426 | Closing the last chunk completes the read-back. |
| Ingestion.CandidateLength | backend-api/index.js:419 | The length is that of the trimmed candidate chunk. |
| Ingestion.TrimChunk | backend-api/index.js:420-426 | Trimming an already trimmed chunk changes nothing. |
| Ingestion.ChunksFitSnoc | backend-api/index.js:419-420 | Adding a fitting chunk keeps every chunk fitting. |
| Ingestion.PackSentences | backend-api/index.js:416-427 | The greedy loop computes exactly `Pack`, the chunks of its reference definition. The chunks are non-empty and trimmed, and they join back to the sentences. A chunk is longer than `chunkChars` only if it is a single sentence. |
| Ingestion.SplitIntoChunks | backend-api/index.js:412-428 | The result is exactly `Chunks` of the text. Blank text gives no chunks. Otherwise the chunks join back to the normalized text, and only a single sentence may exceed `chunkChars`. |
| Ingestion.Lookup | backend-api/index.js:435 | `entry[key]` is the first member with that key. |
| Ingestion.CreateEntries | backend-api/index.js:443-463 | The entries are exactly the long chunks (at least 40 characters) in order, numbered by the uid supply from the running count, each holding its chunk and referencing the bot. |
| Ingestion.Minted | backend-api/index.js:443-463 | One entry per chunk, the k-th holding the k-th chunk, the bot reference and the uid the supply gives for the count plus k. |
| Ingestion.MintedAppend | backend-api/index.js:433-464 | Numbering two runs of chunks together equals numbering the first, then the second from where the first stopped. |
| Ingestion.ImportEntry | backend-api/index.js:434-463 | The chunks are exactly `Chunks` of the entry's title part and collected text. The created entries are exactly that entry's long chunks, numbered from the running count. |
| Ingestion.LongChunksExact | backend-api/index.js:444 | A chunk becomes an entry if and only if it has at least 40 characters. |
| Ingestion.LongChunksSnoc | backend-api/index.js:443-444 | One more chunk adds an entry exactly when it is long enough. |
| Ingestion.Limited | backend-api/index.js:377-380 | A positive integer limit keeps that many leading entries, or all when there are fewer. Any other value keeps every entry, in order. |
| Ingestion.WithoutBot | backend-api/index.js:362-368 | Deleting old knowledge removes exactly the bot's entries. |
| Ingestion.CreatedAppend | backend-api/index.js:433-464 | The entries for one more delivery entry extend those created so far. |
| Ingestion.ImportNext | backend-api/index.js:433-464 | One turn of the per-entry loop appends exactly the entries of that delivery entry's long chunks, numbered on from the entries already created, and keeps the loop invariant: what is created so far, followed by the entries of the rest, is the whole import. |
| Ingestion.ImportItems | backend-api/index.js:433-464 | The per-entry loop creates exactly `ImportedEntries`: every delivery entry's long chunks in entry order, numbered consecutively from 0. |
| Ingestion.ImportModelEntries | backend-api/index.js:345-477 | An incomplete connection gives 400 with nothing changed. An empty fetch gives 400 after the optional deletion. Otherwise the repository becomes the kept entries followed by exactly the entries `ImportedEntries` gives for the first `maxEntries` published entries, the reply counts them, old knowledge is optionally removed, and the training date is set. |
| Ingestion.ImportLeavesBlob | backend-api/index.js:362-464 | Imported entries are not referenced by the bot, so a chat turn reads the blob of the entries that were kept. (See also lines 742-758.) |
| Ingestion.EntryTimestamp | backend-api/index.js:510-518 | The stamp is the first truthy of the publish time, publish date, update date and creation date, parsed. None when all are missing. |
| Ingestion.OrElse | backend-api/index.js:512-515 | `a \|\| b` on optional strings. |
| Ingestion.SyncCandidatesExact | backend-api/index.js:520-525 | An entry is a candidate exactly when it was fetched and either there is no last date, it has no stamp, or its stamp is later. |
| Ingestion.SyncCandidatesOrder | backend-api/index.js:520-525 | The candidate filter keeps delivery order. |
| Ingestion.InvalidLastDate | backend-api/index.js:508-525 | With an unparseable last-training date only entries without a timestamp are synced. |
| Ingestion.SyncNewEntries | backend-api/index.js:480-612 | Without a saved connection: 400. With no candidates: nothing changes. Otherwise the repository gains exactly the entries `ImportedEntries` gives for the candidates (default fields, chunks of 900), appended in order, and the training date is set. |
| BotAdmin.Assigned | backend-api/index.js:240-243 | `undefined` keeps the field, `null` clears it, and a string is stored. |
| BotAdmin.UpdateBot | backend-api/index.js:220-255 | Missing name, domain or provider gives 400. Otherwise the fetched entry gets its name, domain and provider, and the key (encrypted) only when truthy. Every optional field is assigned only when present. The knowledge and training date are kept. |
| BotAdmin.LogAnalytics | backend-api/index.js:885-902 | A falsy bot id or query gives 400. Without a uid from the repository the create fails with 500. Otherwise the reply is 201 and the created log references the bot and holds the given query and answer, feedback 0, the given response time or 0 when none is given, and the repository's uid. |
| BotAdmin.AnalyticsLogsExact | backend-api/index.js:914 | The listing keeps exactly the entries whose query is a non-blank string, and never more entries than stored. |
| BotAdmin.AnalyticsLogsOrder | backend-api/index.js:914 | The listing distributes over concatenation, so the kept entries stay in stored order. |
| BotAdmin.CreatedLogIsListed | backend-api/index.js:885-914 | A log created for a message the widget's guard let through is listed. |
| BotAdmin.RecordFeedback | backend-api/index.js:926-947 | Missing feedback gives 400. A failed fetch gives 500 "Failed to update feedback.". An entry without a truthy `user_query` is refused with 400. Otherwise only `user_feedback` changes. |
| ChatWidget.DomainGreeting | frontend-dashboard/src/components/ChatWidget.jsx:20-37 | The greeting is never empty and neither is any default question. |
| ChatWidget.PresentQuestions | frontend-dashboard/src/components/ChatWidget.jsx:42-44 | Exactly the truthy questions are kept. |
| ChatWidget.PresentQuestionsOrder | frontend-dashboard/src/components/ChatWidget.jsx:42-44 | Filtering distributes over concatenation, so the kept questions stay in the bot's order. |
| ChatWidget.Wrap | frontend-dashboard/src/components/ChatWidget.jsx:45-48 | Every question is wrapped as `{suggested_question:{question}}`. |
| Records.FindByUid | frontend-dashboard/src/components/ChatWidget.jsx:19 | The element found is the first one with the requested uid, and there is none only when no element has it. The widget and the bot editor (frontend-dashboard/src/pages/EditBotPage.jsx:56) look their bot up this way. |
| ChatWidget.InitialData | frontend-dashboard/src/components/ChatWidget.jsx:14-59 | One greeting message. A failed request gives the default greeting and nothing else. A non-empty generated-question array wins over the domain defaults. Suggestions are wrapped. |
| ChatWidget.UnknownDomainInitial | frontend-dashboard/src/components/ChatWidget.jsx:20-49 | An unknown bot or domain with no generated questions gets the default greeting and `[]`. |
| ChatWidget.EducationDefaultsDiffer | frontend-dashboard/src/components/ChatWidget.jsx:33-35 | The widget's Education defaults are three questions unlike the route's two. E-commerce and Travel agree with the route. |
| ChatWidget.HistoryToSend | frontend-dashboard/src/components/ChatWidget.jsx:78-79 | The history is `messages[1..]` when there is more than one message, else `[]`: the greeting is never sent. |
| ChatWidget.Turns | frontend-dashboard/src/components/ChatWidget.jsx:90 | Each sent message is read by the route as a turn with its sender and text. |
| ChatWidget.Plains | backend-api/index.js:798 | The route's suggestions arrive as bare strings. |
| ChatWidget.FoldSnoc | frontend-dashboard/src/components/ChatWidget.jsx:103-133 | Events are applied one after the other. |
| ChatWidget.FoldAppend | frontend-dashboard/src/components/ChatWidget.jsx:98-134 | Folding two runs of events is folding them in sequence. |
| ChatWidget.StreamedTextSnoc | frontend-dashboard/src/components/ChatWidget.jsx:109 | One more event adds its content, if any. |
| ChatWidget.FoldText | frontend-dashboard/src/components/ChatWidget.jsx:108-115 | `fullResponse` grows by the events' content in order. The last message shows it, keeping its sender and log id. |
| ChatWidget.FoldLoading | frontend-dashboard/src/components/ChatWidget.jsx:116-117 | Loading ends exactly when some event is `finished`. |
| ChatWidget.FoldSuggestions | frontend-dashboard/src/components/ChatWidget.jsx:118-121 | Suggestions change only through a finished event with a non-empty list, and then they are that list. |
| ChatWidget.EventChunks | backend-api/index.js:811-844 | Each event written arrives as its own frame. |
| ChatWidget.ReceivedSnoc | frontend-dashboard/src/components/ChatWidget.jsx:98-103 | One more chunk read adds its events at the end. |
| ChatWidget.DecodeFramedChunk | frontend-dashboard/src/components/ChatWidget.jsx:101-107 | A framed event read alone decodes to itself and nothing else. |
| ChatWidget.ReceivedEvents | frontend-dashboard/src/components/ChatWidget.jsx:98-133 | Reading the route's stream one event per read gives back exactly the events written. |
| ChatWidget.ChunkStep | frontend-dashboard/src/components/ChatWidget.jsx:98-103 | Reading one more chunk applies its events after the earlier ones. |
| ChatWidget.LineStep | frontend-dashboard/src/components/ChatWidget.jsx:103-133 | One more piece of a chunk applies its event, if any, last. |
| ChatWidget.CompletedTurnShowsAnswer | frontend-dashboard/src/components/ChatWidget.jsx:72-134 | When the provider completes, the last message holds exactly the route's `fullResponse`, loading is over, and the persona's suggestions replace the cleared ones when there are any. |
| ChatWidget.MidStreamFailureKeepsLoading | frontend-dashboard/src/components/ChatWidget.jsx:116-117 | After a mid-stream failure no terminal event arrives. The widget stays loading with the partial answer shown. |
| ChatWidget.UnsupportedProviderShown | frontend-dashboard/src/components/ChatWidget.jsx:108-121 | An unsupported provider shows its error text, ends loading and leaves the suggestions cleared. |
| ChatWidget.CompletedView | frontend-dashboard/src/components/ChatWidget.jsx:98-134 | After the content events and one terminal event, the last message holds the fragments run together, loading is over, and the suggestions are the terminal event's list. |
| ChatWidget.PartialView | frontend-dashboard/src/components/ChatWidget.jsx:116-117 | After content events only, the widget is still loading, shows the fragments run together and has no suggestions. |
| ChatWidget.ErrorView | frontend-dashboard/src/components/ChatWidget.jsx:108-121 | An error content event followed by the error terminal event shows the error text, ends loading and leaves no suggestions. |
| ChatWidget.MarkFeedback | frontend-dashboard/src/components/ChatWidget.jsx:66 | Exactly the messages with that log id get `feedbackGiven`. Nothing else changes. |
| ChatWidget.MarkFeedbackIdempotent | frontend-dashboard/src/components/ChatWidget.jsx:66 | Marking twice is marking once, and marking never changes what a message says. |
| ChatWidget.SelectedExact | frontend-dashboard/src/components/ChatWidget.jsx:179-187 | A class is added exactly when the position contains its rule's word. |
| ChatWidget.SelectedSnoc | frontend-dashboard/src/components/ChatWidget.jsx:182-185 | Each rule appends its class after the earlier ones when its word is present. |
| ChatWidget.SpacedSnoc | frontend-dashboard/src/components/ChatWidget.jsx:182-185 | Each class is followed by a space. |
| ChatWidget.SpacedSplits | frontend-dashboard/src/components/ChatWidget.jsx:179-187 | The class string splits back into its classes, then an empty piece. |
| ChatWidget.AddRule | frontend-dashboard/src/components/ChatWidget.jsx:182-185 | One rule appends its class and a space exactly when the position contains its word. |
| ChatWidget.RuleLiterals | frontend-dashboard/src/components/ChatWidget.jsx:182-185 | Bubble: `bottom-5`/`top-5`. Window: `bottom-24`/`top-24`. Both: `right-5`/`left-5`. The order is bottom, top, right, left. |
| ChatWidget.PositionClasses | frontend-dashboard/src/components/ChatWidget.jsx:179-187 | The classes are those of the rules whose word the position contains, in rule order, each followed by a space. |
| ChatWidget.HorizontalPlacement | frontend-dashboard/src/components/ChatWidget.jsx:184-185 | Bubble and window get `right-5` exactly when the position names the right, and `left-5` exactly when it names the left. |
| ChatWidget.WidgetLabelFailsOnServerSuggestions | frontend-dashboard/src/components/ChatWidget.jsx:266-268 | After a completed reply from a Travel bot, the widget variant tries to render labels it cannot read. |
| ChatWidget.Label | frontend-dashboard/src/components/ChatWidget.jsx:370 | Wrapped suggestions render their question, as the other variants do. Bare strings render themselves. |
| ChatWidget.InitialLabels | frontend-dashboard/src/components/ChatWidget.jsx:42-48 | Both labels agree on the initial suggestions, and none of them is empty. (See also line 370.) |
| ChatWidget.Widget.constructor | frontend-dashboard/src/components/ChatWidget.jsx:8-11 | Empty messages, suggestions and input, not loading, and the session id. (See also line 158.) |
| ChatWidget.Widget.LoadInitialData | frontend-dashboard/src/components/ChatWidget.jsx:14-59 | The state becomes `InitialData`'s messages and suggestions (suggestions kept on failure), and loading ends. |
| ChatWidget.Widget.HandleFeedback | frontend-dashboard/src/components/ChatWidget.jsx:62-70 | No log id, or a failed update: nothing. Otherwise the messages of that log are marked. |
| ChatWidget.Widget.SendMessage | frontend-dashboard/src/components/ChatWidget.jsx:72-151 | Two messages are appended: the user's, then the bot answer `AfterSend` gives. The request body holds the history without the greeting. Loading and suggestions become those of `AfterSend`: after a failed request, the error text with loading ended; after a readable reply, the fold of its events, with the log id attached or, when the analytics call fails, the error text. |
| ChatWidget.Widget.ReadStream | frontend-dashboard/src/components/ChatWidget.jsx:98-134 | After the loop the state is the fold of every chunk's events, and only the last message changes. |
| ChatWidget.Widget.ReadChunk | frontend-dashboard/src/components/ChatWidget.jsx:101-133 | After a chunk the state is the fold of its pieces' events. |
| ChatWidget.Widget.ReadLine | frontend-dashboard/src/components/ChatWidget.jsx:104-132 | A `data: ` line that parses applies its event. Any other line changes nothing. |
| ChatWidget.Widget.HandleSend | frontend-dashboard/src/components/ChatWidget.jsx:195-203 | The input as typed is sent exactly when its trimmed form is non-empty and nothing is loading. Then the input is cleared, the user message and the `AfterSend` answer are appended, and loading and suggestions are those of `AfterSend`. Otherwise nothing changes. |
| ChatWidget.Widget.HandleSuggestedQuestion | frontend-dashboard/src/components/ChatWidget.jsx:213-217 | A click sends the suggestion's text exactly when it is non-empty and no answer is loading. Then the input is cleared, the text and the `AfterSend` answer are appended, and loading and suggestions are those of `AfterSend`. Otherwise nothing changes. |
| ChatWidget.BlankInputNotSent | frontend-dashboard/src/components/ChatWidget.jsx:196 | A whitespace-only input trims to empty. |
| AnalyticsPage.CountFeedback | frontend-dashboard/src/pages/AnalyticsPage.jsx:53-56 | A feedback count is at most the number of logs. |
| AnalyticsPage.ScoreIsGoodMinusBad | frontend-dashboard/src/pages/AnalyticsPage.jsx:51-56 | When every feedback is -1, 0 or 1, the score is Good minus Bad. |
| AnalyticsPage.GoodAndBadBounded | frontend-dashboard/src/pages/AnalyticsPage.jsx:46-56 | Good plus Bad is at most `totalQueries`. |
| AnalyticsPage.QueryKeys | frontend-dashboard/src/pages/AnalyticsPage.jsx:59 | Each log is counted under its query rendered as a property name. |
| AnalyticsPage.TopQueries | frontend-dashboard/src/pages/AnalyticsPage.jsx:58-61 | One entry per distinct query, counted exactly, in first-seen order: the entry keys are exactly `FirstSeen` of the queries. Every count is at least 1, and the counts add up to `totalQueries`. |
| AnalyticsPage.SortedTopQueries | frontend-dashboard/src/pages/AnalyticsPage.jsx:62 | At most five entries, taken from `topQueries`, with non-increasing counts. No omitted entry has a larger count than the last one kept. |
| AnalyticsPage.RankedFacts | frontend-dashboard/src/pages/AnalyticsPage.jsx:62 | The ranking reference has the same three properties. |
| Tally.Count | frontend-dashboard/src/pages/AnalyticsPage.jsx:58-61 | Counting by key yields one entry per distinct key, each with its exact number of occurrences. The entry keys are exactly `FirstSeen(keys)`, the distinct keys in the order of their first occurrence. |
| Tally.FirstSeen | frontend-dashboard/src/pages/AnalyticsPage.jsx:58-62 | The reference order: every key once, exactly the keys that occur, none twice. |
| Tally.FirstSeenOrder | frontend-dashboard/src/pages/AnalyticsPage.jsx:58-62 | In `FirstSeen(keys)` a key comes before another exactly in the order of their first occurrences in `keys`. |
| Sorting.SortInPlace | frontend-dashboard/src/pages/AnalyticsPage.jsx:62 | `sort` with a key comparator leaves the stable sort of the array's contents. |
| Sorting.SortedByCorrect | frontend-dashboard/src/pages/DashboardPage.jsx:61-65 | The stable sort is ordered by the key and is a permutation of its input. |
| KnowledgeForms.SourceName | frontend-dashboard/src/pages/KnowledgeSettingsPage.jsx:190 | A missing or empty `source_name` becomes "Untitled Source". The name is never empty. |
| KnowledgeForms.GroupSources | frontend-dashboard/src/pages/KnowledgeSettingsPage.jsx:186-194 | One group per name, each counting its references exactly, in first-seen order: the group names are exactly `FirstSeen` of the display names. The counts add up to the number of sources, and no name is empty. The same reducer is at EditBotPage.jsx:777-782. |
| KnowledgeForms.AddedRefsUntitled | backend-api/index.js:82-86 | The references `addKnowledgeSource` appends all fall in the "Untitled Source" group, one count each. |
| KnowledgeForms.UntitledDetachMissesAdded | backend-api/index.js:700-703 | Detaching "Untitled Source" finds none of the entries added under another name: its query returns the same entries with or without them. |
| KnowledgeForms.GroupCount | frontend-dashboard/src/pages/EditBotPage.jsx:777-782 | A group counts the references carrying its name. "Untitled Source" also counts those without a name. |
| KnowledgeForms.FieldsArray | frontend-dashboard/src/pages/KnowledgeSettingsPage.jsx:160-163 | Only trimmed, non-empty, comma-free parts, in order. The same code is at EditBotPage.jsx:259-262. |
| KnowledgeForms.FieldsRoundTrip | frontend-dashboard/src/pages/EditBotPage.jsx:259-262 | Field names typed as `a, b, c` are sent as exactly that list. |
| KnowledgeForms.ImportFromModel | frontend-dashboard/src/pages/KnowledgeSettingsPage.jsx:152-175 | Without a selected model nothing is posted. Otherwise the credentials and model are sent, with `deleteOld` as a boolean, `maxEntries`/`chunkChars` falling back to 20/900 when they convert to 0 or NaN, `fields` null when empty, and the title field or null. The same code is at EditBotPage.jsx:252-274. |
| KnowledgeForms.ImportDefaults | frontend-dashboard/src/pages/EditBotPage.jsx:263-274 | The untouched form imports 20 entries in chunks of 900, all fields, no title field, replacing old knowledge. (See also lines 45-51.) |
| KnowledgeForms.ImportConnectionAccepted | frontend-dashboard/src/pages/KnowledgeSettingsPage.jsx:164-170 | The import route accepts the posted connection exactly when the key, token and environment are non-empty. |
| KnowledgeForms.Prefill | frontend-dashboard/src/pages/KnowledgeSettingsPage.jsx:37-47 | API key and delivery token are copied (default `''`) and the environment too (default `production`). The management token and every other field are untouched. |
| KnowledgeForms.CredsChange | frontend-dashboard/src/pages/KnowledgeSettingsPage.jsx:99 | Only the named field changes. |
| KnowledgeForms.PrefillKeepsTyped | frontend-dashboard/src/pages/KnowledgeSettingsPage.jsx:37-47 | A typed management token survives the prefill, and running it again changes nothing. |
| KnowledgeForms.PrefillOverridesEdits | frontend-dashboard/src/pages/EditBotPage.jsx:85-94 | Prefill after an edit restores the saved value of the three prefilled fields. (See also line 196.) |
| KnowledgeForms.PrefilledImportAccepted | frontend-dashboard/src/pages/KnowledgeSettingsPage.jsx:37-47 | After prefill from a bot with a complete saved connection, the import posts a connection the route accepts. (See also lines 164-170.) |
| KnowledgeForms.ClearSource | frontend-dashboard/src/pages/KnowledgeSettingsPage.jsx:211-213 | An empty name, or no confirmation, sends nothing. The same guard is at EditBotPage.jsx:286-288. |
| KnowledgeForms.GroupsPassGuard | frontend-dashboard/src/pages/EditBotPage.jsx:777-782 | Every listed group's name passes the detach guard. (See also lines 286-287.) |
| Strings.Trim | frontend-dashboard/src/components/ChatWidget.jsx:196 | `trim()` gives text with no ECMAScript whitespace (the full `\s` set) at either end, never longer than its input. |
| Strings.TrimIsSlice | frontend-dashboard/src/components/ChatWidget.jsx:196 | The trimmed text is the slice of the input between a whitespace-only prefix and a whitespace-only suffix. |
| Strings.ToLower | backend-api/index.js:805 | `toLowerCase()` maps each character to its lower-case form and keeps the length. |
| Strings.ToUpper | frontend-dashboard/src/pages/EditBotPage.jsx:127 | `toUpperCase()` maps each character to its upper-case form and keeps the length. |
| Strings.LowerOfUpper | frontend-dashboard/src/pages/EditBotPage.jsx:138 | Lower-casing forgets an earlier upper-casing. |
| Strings.Split | frontend-dashboard/src/components/ChatWidget.jsx:102 | `split` always gives at least one piece. |
| Strings.SplitJoin | frontend-dashboard/src/components/ChatWidget.jsx:102 | Joining the pieces of a split with the same separator gives back the text. |
| Strings.AfterLastDot | frontend-dashboard/src/pages/EditBotPage.jsx:127 | `split('.').pop()` is the dot-free suffix after the last dot, or the whole name when it has no dot. |
| KnowledgeForms.SourceNames | frontend-dashboard/src/pages/KnowledgeSettingsPage.jsx:190 | Each reference's display name, in order. |
| KnowledgeForms.SplitJoinFree | frontend-dashboard/src/pages/KnowledgeSettingsPage.jsx:160-161 | Splitting comma-joined comma-free names on the comma gives back the names. |
| Sorting.Insert | frontend-dashboard/src/pages/AnalyticsPage.jsx:62 | Inserting into a sequence makes it one longer. |
| Sorting.InsertPermutes | frontend-dashboard/src/pages/AnalyticsPage.jsx:62 | Inserting adds exactly the element: the result is a permutation of the input plus it. |
| Sorting.InsertAt | frontend-dashboard/src/pages/AnalyticsPage.jsx:62 | The element lands right after the last element whose key is at most its own, so equal keys keep their order. |
| Sorting.SortedBy | frontend-dashboard/src/pages/AnalyticsPage.jsx:62 | The sorted sequence has the input's length. Its order and permutation facts are in `Sorting.SortedByCorrect`. |
| Tally.Find | frontend-dashboard/src/pages/AnalyticsPage.jsx:59 | The index found holds the key, and there is none exactly when no entry has the key. |
| EditBot.UploadFilesAsWritten | frontend-dashboard/src/pages/EditBotPage.jsx:119-131 | The files are kept in front. The k-th picked file gets id `length + k + 1` and its name. |
| EditBot.FetchBotData | frontend-dashboard/src/pages/EditBotPage.jsx:53-76 | A failed request or an unknown id gives its error text. Otherwise the form takes the name, the domain (default `Free Prompt`), the provider (default `Gemini`) and the free prompt, and the API key field is always `''`. |
| EditBot.SaveUntouched | frontend-dashboard/src/pages/EditBotPage.jsx:96-116 | Saving a freshly loaded form is accepted exactly when the bot has a name. It keeps the stored key, knowledge and connection, and writes back the defaults. |
| EditBot.FileKind | frontend-dashboard/src/pages/EditBotPage.jsx:127 | The type is the upper-cased text after the last dot, and holds no dot. |
| EditBot.NewFiles | frontend-dashboard/src/pages/EditBotPage.jsx:122-128 | The k-th picked file gets id `base + k + 1`, its name and its type. |
| EditBot.UploadAfterDeleteReusesId | frontend-dashboard/src/pages/EditBotPage.jsx:119-131 | With files 1 and 2, deleting 1 and uploading one file gives two files with id 2. |
| EditBot.DeleteFile | frontend-dashboard/src/pages/EditBotPage.jsx:133-135 | Exactly the files with another id remain. |
| EditBot.DeleteKeepsOrder | frontend-dashboard/src/pages/EditBotPage.jsx:134 | Deleting keeps the order of the rest. |
| EditBot.MaxId | frontend-dashboard/src/pages/EditBotPage.jsx:123 | No file has an id above it. |
| EditBot.UploadFiles | frontend-dashboard/src/pages/EditBotPage.jsx:119-131 | New files are appended after the existing ones, with their names and types. |
| EditBot.UploadKeepsIdsUnique | frontend-dashboard/src/pages/EditBotPage.jsx:119-131 | With ids numbered after the largest one, uploads keep ids unique. |
| EditBot.DeleteKeepsIdsUnique | frontend-dashboard/src/pages/EditBotPage.jsx:133-135 | Deletes keep ids unique. |
| EditBot.FreshAgreesWithoutDeletes | frontend-dashboard/src/pages/EditBotPage.jsx:123 | While ids are 1..n, the fresh numbering is the code's `length + index + 1`. |
| EditBot.MaxIdAtMost | frontend-dashboard/src/pages/EditBotPage.jsx:123 | The largest id is at most any common upper bound. |
| EditBot.FilteredFiles | frontend-dashboard/src/pages/EditBotPage.jsx:137-139 | Exactly the files whose lower-cased name contains the lower-cased query. |
| EditBot.EmptyQueryKeepsAll | frontend-dashboard/src/pages/EditBotPage.jsx:137-139 | An empty query keeps every file, in order. |
| EditBot.QueryCaseIgnored | frontend-dashboard/src/pages/EditBotPage.jsx:138 | The search ignores the letter case of the query. |
| Dashboard.ProviderTextAsWritten | frontend-dashboard/src/pages/DashboardPage.jsx:49 | The provider text is undefined (a throw) exactly for an empty provider array. |
| Dashboard.ProviderText | frontend-dashboard/src/pages/DashboardPage.jsx:49 | Agrees with the code wherever the code does not throw. An empty array reads as `''`. |
| Dashboard.Searched | frontend-dashboard/src/pages/DashboardPage.jsx:43-51 | An empty query keeps every bot. Otherwise exactly the bots whose title or provider (first element of an array) contains the query case-insensitively are kept. |
| Dashboard.Filtered | frontend-dashboard/src/pages/DashboardPage.jsx:46-50 | Exactly the matching bots. |
| Dashboard.SearchedAsWrittenAgrees | frontend-dashboard/src/pages/DashboardPage.jsx:45-51 | The code throws exactly when the query is non-empty and some bot has an empty provider array and a non-matching title. Otherwise it agrees with `Searched`. |
| Dashboard.FilteredAsWrittenAgrees | frontend-dashboard/src/pages/DashboardPage.jsx:46-50 | The same, for the filter alone. |
| Dashboard.EmptyProviderArrayThrows | frontend-dashboard/src/pages/DashboardPage.jsx:49 | A bot titled "Sales" with provider `[]` makes a search for "x" throw. |
| Dashboard.NotContainsX | frontend-dashboard/src/pages/DashboardPage.jsx:48 | A text without `x` does not include "x". |
| Dashboard.FilterAndSort | frontend-dashboard/src/pages/DashboardPage.jsx:42-68 | The shown list is a reordering of the search result, and every bot in it matches a non-empty query. An empty query shows every bot. `date` puts later updates first. `statusFilter` has no effect. |
| Dashboard.CardOf | frontend-dashboard/src/pages/DashboardPage.jsx:110-116 | The card id is the uid. The name is the title when it is truthy, else `Untitled Bot`. A non-empty provider string is shown as is. A missing or empty provider string shows `N/A`. Only an empty provider array leaves the model undefined. |
| Dashboard.CardTextIsSearchable | frontend-dashboard/src/pages/DashboardPage.jsx:46-116 | A query found in a card's own title or model (not a fallback text) finds the bot. |
| Dashboard.UpTo | frontend-dashboard/src/pages/DashboardPage.jsx:73 | The text up to the first quote is a quote-free prefix. |
| Dashboard.UpToQuote | frontend-dashboard/src/pages/DashboardPage.jsx:73 | A quote-free text before a quote is read back whole. |
| Dashboard.EmbedSource | frontend-dashboard/src/pages/DashboardPage.jsx:71-78 | The snippet's `src` is `origin + "/sandbox/" + botId`. |

## Left out

- HTTP plumbing (Express routing, axios, `fetch`, response headers) is left out. Routes are modelled by their status and body, or their events.
- The Contentstack management and delivery SDKs are left out. Their repositories are sequences of records. In the chat route and the record routes their failures are parameters; for the import, sync, add-source and detach routes see the lines below.
- The language-model SDKs are left out. A provider is the list of fragments it streams and whether it throws.
- `JSON.stringify`/`JSON.parse` are a codec parameter assumed to round-trip.
- `encrypt`/`decrypt` are function parameters.
- `Date.now`, `Math.random`, `new Date()` and the generated uids are parameters: the session id, the entry-uid supply `mint`, `now` and the timestamp parser `parse`.
- `Number(x)` applied to a form string is not modelled. The import options arrive already converted to a `JsNumber` (NaN or a finite value).
- `localeCompare` is a collation rank parameter `rank`.
- Dashboard.FilterAndSort: dates that do not parse (a NaN comparator result) are not modelled. `updatedAt` is always a timestamp.
- Case mapping covers ASCII letters only. Unicode case folding and `TextDecoder` byte handling are not modelled: chunks arrive as text.
- React rendering, effects scheduling and batching are left out. The widget methods apply updates in program order and read the current state instead of the render closure.
- In-place mutation of the last message object (`newMessages[…].text = …`) is modelled as replacing that message: aliasing between the old and new arrays is not captured.
- Timers, focus handling, textarea sizing and `window.confirm` are left out. A confirmation is a boolean parameter.
- The average response time, the random card figures and `toLocaleDateString` are left out: floating point, randomness and locale formatting.
- Routes outside the chat pipeline are not part of this model: scraping, question generation, OAuth, refine-and-add, bot creation and deletion, model analysis and the external-model listing.
- Publishing each created entry is left out. Its failures are ignored by the source anyway.
- Tally.Count: keys are read back in first-seen order (`FirstSeen`). `Object.entries` lists keys that are array indices ("7", "42") first, in ascending numeric order, and the rest in insertion order. Keys that name inherited properties of a plain object (`__proto__`, `constructor`, `toString`, `valueOf` and the like) are not counted as plain keys by the source (`__proto__` is lost, the others turn into a string or NaN). The model counts every key exactly.
- AnalyticsPage.TopQueries: the order of the counted queries is first-seen order, not the `Object.entries` order described under Tally.Count. Inherited-property names as queries are counted exactly.
- AnalyticsPage.SortedTopQueries: ties between equal counts are broken by first-seen order. The source's stable sort breaks them by the `Object.entries` order described under Tally.Count.
- KnowledgeForms.GroupSources: groups come in first-seen order, not the `Object.entries` order described under Tally.Count. A source named after an inherited property gets its exact count, where the source shows NaN.
- Ingestion.ImportModelEntries: the route always completes in the model. In the source, the deletion of old entries, the delivery fetch, any `create` (backend-api/index.js:452) and the final bot fetch or update can throw. The catch then answers 500 (lines 473-475). The entries created before the throw stay in the repository, and with `deleteOld` the bot's old knowledge is already gone.
- Ingestion.SyncNewEntries: the route always completes in the model. In the source, the delivery fetch, any `create` (backend-api/index.js:589) and the bot update can throw. The catch answers 500 (lines 607-609), and the entries created before the throw stay in the repository.
- Knowledge.AddKnowledgeSource: the route always completes in the model. In the source, any `create` run under `Promise.all` (backend-api/index.js:69-80), the bot fetch (line 82) or the update (line 88) can throw. The CSV route's catch then answers 500 (lines 662-665). The entries created before the throw stay in the repository, and no bot reference points to them. The creates run concurrently, so which of them succeeded is not ordered.
- Knowledge.DetachSource: the route always completes in the model. In the source, any delete (backend-api/index.js:709-711), the bot fetch (line 714) or the update (line 718) can throw. The catch answers 500 (lines 722-724). The entries deleted before the throw are gone, while the bot still references them.
- Ingestion.Limited: a negative integer `maxEntries` is passed to `query.limit` by the source (backend-api/index.js:378), with whatever effect the delivery API gives it. The model applies no limit then. The form can send one: `Number('-5') || 20` is -5.
- ChatHandler.HandleChat: the bot configuration is typed. `active_knowledge_sources` is a list of references or absent, and `llm_provider` is a string or absent. A stored `null` provider is read as absent, so the unsupported-provider message reads 'undefined' where the source's template literal gives 'null' (backend-api/index.js:839). A stored configuration whose reference field is truthy but not an array, or whose provider is an array, makes the source throw (backend-api/index.js:743, and `toLowerCase` at lines 805, 814 and 826) and answer 500. That configuration cannot be expressed in the model.
- Ingestion.SplitIntoChunks: lengths are counted in Unicode characters. JavaScript's `length` counts UTF-16 code units, so a character outside the Basic Multilingual Plane (an emoji, say) counts twice toward `chunkChars` in the source. Ingestion.PackSentences compares lengths the same way.
- Ingestion.LongChunksExact: the 40-character threshold is counted in Unicode characters, not UTF-16 code units. A chunk of 20 to 39 characters with characters outside the Basic Multilingual Plane can reach 40 code units and become an entry in the source, but not in the model. Ingestion.CreateEntries uses the same threshold.

## Findings

| source | as written | input that shows it | evidently intended | confidence | as-written member | corrected member |
|---|---|---|---|---|---|---|
| frontend-dashboard/src/components/ChatWidget.jsx:266-268 | The widget and page variants render `q_object.suggested_question.question`. The chat route sends suggestions as bare strings (backend-api/index.js:798). | A completed reply from a Travel bot: `suggested_question` of the string "Find me a beach vacation" is undefined, and reading `.question` of it throws. | Read both shapes, as the modal variant does at line 370. | medium, not executed | ChatWidget.WidgetLabelFailsOnServerSuggestions | ChatWidget.Label |
| frontend-dashboard/src/pages/EditBotPage.jsx:123 | New file ids are `knowledgeFiles.length + index + 1`. | Files with ids 1 and 2: delete 1, then upload one file. It gets id 2, which file 2 already has, so deleting either removes both. | Ids stay unique: number new files after the largest id. | high, not executed | EditBot.UploadAfterDeleteReusesId | EditBot.UploadKeepsIdsUnique |
| frontend-dashboard/src/pages/DashboardPage.jsx:49 | An array provider is read as `llm_provider[0]` with no fallback. For `[]` this is undefined, and `.toLowerCase()` throws inside the effect. | A bot titled "Sales" whose `llm_provider` is `[]`, searched for "x". | Treat an empty array as no provider (`''`). | medium, not executed | Dashboard.EmptyProviderArrayThrows | Dashboard.Searched |
