/** The knowledge forms shared, line for line, by the bot editor and the
    knowledge settings page: the grouping of a bot's active knowledge sources,
    the import-from-model request body, the connector credentials and the
    detach guard. */
module KnowledgeForms {
  import opened Strings
  import opened Js
  import opened Records
  import Tally
  import Ingestion
  import Knowledge

  // ---------------------------------------------------------------------------
  // Grouping the active knowledge sources
  // ---------------------------------------------------------------------------

  const UntitledSource: String := "Untitled Source"

  /** `item.source_name || "Untitled Source"` */
  function SourceName(r: KnowledgeRef): (n: String)
    ensures n != []
    ensures Truthy(r.sourceName) ==> n == r.sourceName.value
    ensures !Truthy(r.sourceName) ==> n == UntitledSource
  {
    OrDefault(r.sourceName, UntitledSource)
  }

  function SourceNames(refs: seq<KnowledgeRef>): (names: seq<String>)
    ensures |names| == |refs|
    ensures forall i :: 0 <= i < |refs| ==> names[i] == SourceName(refs[i])
  {
    if refs == [] then [] else [SourceName(refs[0])] + SourceNames(refs[1..])
  }

  /** `botData?.active_knowledge_sources || []` */
  function Sources(activeSources: Option<seq<KnowledgeRef>>): seq<KnowledgeRef> {
    if activeSources.Some? then activeSources.value else []
  }

  /** The `groupedSources` reducer read back with `Object.entries`: one group
      per name in first-seen order, each counting its references; the counts
      add up to the number of references and no group name is empty. */
  method GroupSources(activeSources: Option<seq<KnowledgeRef>>) returns (groups: seq<(String, nat)>)
    ensures Tally.TallyOf(groups, SourceNames(Sources(activeSources)))
    ensures Tally.KeysOf(groups) == Tally.FirstSeen(SourceNames(Sources(activeSources)))
    ensures forall i :: 0 <= i < |groups| ==> groups[i].1 >= 1 && groups[i].0 != []
    ensures Tally.SumCounts(groups) == |Sources(activeSources)|
  {
    var names := SourceNames(Sources(activeSources));
    groups := Tally.Count(names);
    forall i | 0 <= i < |groups| ensures groups[i].0 != [] {
      assert groups[i].0 in names;
    }
  }

  /** References that name `k`. */
  function NamedCount(refs: seq<KnowledgeRef>, k: String): nat {
    if refs == [] then 0 else (if refs[0].sourceName == Some(k) then 1 else 0) + NamedCount(refs[1..], k)
  }

  /** References without a usable name. */
  function UnnamedCount(refs: seq<KnowledgeRef>): nat {
    if refs == [] then 0 else (if !Truthy(refs[0].sourceName) then 1 else 0) + UnnamedCount(refs[1..])
  }

  /** What a group counts: the references that carry its name and, for
      "Untitled Source" only, also those without a name. */
  lemma {:induction false} GroupCount(refs: seq<KnowledgeRef>, k: String)
    requires k != []
    ensures Tally.Occurrences(SourceNames(refs), k)
         == NamedCount(refs, k) + (if k == UntitledSource then UnnamedCount(refs) else 0)
  {
    if refs != [] {
      GroupCount(refs[1..], k);
      assert SourceNames(refs)[1..] == SourceNames(refs[1..]);
    }
  }

  /** The references `addKnowledgeSource` appends carry a uid and no
      `source_name`, so the list shows every one of them under
      "Untitled Source", whatever name the source was added with. */
  lemma {:induction false} AddedRefsUntitled(created: seq<KnowledgeEntry>)
    ensures Tally.Occurrences(SourceNames(Knowledge.RefsTo(created)), UntitledSource) == |created|
  {
    if created != [] {
      AddedRefsUntitled(created[1..]);
      assert Knowledge.RefsTo(created)[1..] == Knowledge.RefsTo(created[1..]);
      assert SourceNames(Knowledge.RefsTo(created))[1..] == SourceNames(Knowledge.RefsTo(created[1..]));
    }
  }

  /** Detaching the group "Untitled Source" sends that literal name, and the
      detach route matches `source_name` exactly: entries added under any
      other name are never among those it deletes. */
  lemma {:induction false} UntitledDetachMissesAdded(store: seq<KnowledgeEntry>, created: seq<KnowledgeEntry>,
                                                     botId: String, sourceName: String)
    requires sourceName != UntitledSource
    requires forall e :: e in created ==> e.sourceName == Some(sourceName)
    ensures Knowledge.SourceEntries(store + created, botId, UntitledSource)
         == Knowledge.SourceEntries(store, botId, UntitledSource)
    decreases |created|
  {
    if created == [] {
      assert store + created == store;
    } else {
      var init := created[..|created| - 1];
      var last := created[|created| - 1];
      assert created == init + [last];
      assert last in created;
      assert store + created == (store + init) + [last];
      Knowledge.SourceEntriesAppend(store + init, last, botId, UntitledSource);
      UntitledDetachMissesAdded(store, init, botId, sourceName);
    }
  }

  // ---------------------------------------------------------------------------
  // The import-from-model body
  // ---------------------------------------------------------------------------

  function TrimAll(parts: seq<String>): (r: seq<String>)
    ensures |r| == |parts|
    ensures forall i :: 0 <= i < |parts| ==> r[i] == Trim(parts[i])
  {
    seq(|parts|, i requires 0 <= i < |parts| => Trim(parts[i]))
  }

  /** The non-empty strings, in order. */
  function NonEmpty(parts: seq<String>): (r: seq<String>)
    ensures forall p :: p in r <==> p in parts && p != []
  {
    if parts == [] then [] else (if parts[0] != [] then [parts[0]] else []) + NonEmpty(parts[1..])
  }

  lemma TrimChars(s: String)
    ensures forall c :: c in Trim(s) ==> c in s
  {
    var t := TrimStart(s);
    var r := TrimEnd(t);
    assert r == Trim(s);
    var off := |s| - |t|;
    forall c | c in r ensures c in s {
      var k :| 0 <= k < |r| && r[k] == c;
      assert t[k] == c;
      assert s[off + k] == c;
    }
  }

  lemma {:induction false} SplitPiecesFree(s: String, c: char)
    ensures forall p :: p in Split(s, [c]) ==> c !in p
    decreases |s|
  {
    if |s| >= 1 {
      SplitPiecesFree(s[1..], c);
      if s[..1] != [c] {
        var rest := Split(s[1..], [c]);
        assert s[0] != c by { assert s[..1] == [s[0]]; }
        assert forall x :: x in [s[0]] + rest[0] ==> x == s[0] || x in rest[0];
        assert forall p :: p in rest[1..] ==> p in rest;
      }
    }
  }

  /** The fields box read as a list: split at commas, each name trimmed, empty names dropped. */
  function FieldsArray(fields: Option<String>): (r: seq<String>)
    ensures forall f :: f in r ==> f != [] && Trimmed(f) && ',' !in f
  {
    var pieces := Split(OrDefault(fields, ""), ",");
    SplitPiecesFree(OrDefault(fields, ""), ',');
    forall i | 0 <= i < |pieces| ensures ',' !in Trim(pieces[i]) {
      TrimChars(pieces[i]);
    }
    NonEmpty(TrimAll(pieces))
  }

  lemma {:induction false} SplitWithoutSep(s: String, c: char)
    requires c !in s
    ensures Split(s, [c]) == [s]
    decreases |s|
  {
    if |s| >= 1 {
      assert s[..1] != [c] by { assert s[..1][0] == s[0]; }
      SplitWithoutSep(s[1..], c);
      assert [s[0]] + s[1..] == s;
    }
  }

  lemma {:induction false} SplitJoinFree(fs: seq<String>, c: char)
    requires |fs| >= 1
    requires forall i :: 0 <= i < |fs| ==> c !in fs[i]
    ensures Split(Join(fs, [c]), [c]) == fs
    decreases |fs|
  {
    if |fs| == 1 {
      SplitWithoutSep(fs[0], c);
    } else {
      SplitJoinFree(fs[1..], c);
      SplitAfterPiece(fs[0], [c], Join(fs[1..], [c]));
      assert fs == [fs[0]] + fs[1..];
    }
  }

  lemma {:induction false} NonEmptyTrimmed(fs: seq<String>)
    requires forall i :: 0 <= i < |fs| ==> fs[i] != [] && Trimmed(fs[i])
    ensures NonEmpty(TrimAll(fs)) == fs
    decreases |fs|
  {
    if fs != [] {
      var t := TrimAll(fs);
      TrimOfTrimmed(fs[0]);
      assert t[0] == fs[0];
      assert t[1..] == TrimAll(fs[1..]);
      NonEmptyTrimmed(fs[1..]);
      assert NonEmpty(t) == [fs[0]] + NonEmpty(t[1..]);
      assert fs == [fs[0]] + fs[1..];
    } else {
      assert TrimAll(fs) == [];
    }
  }

  /** The fields box is read by splitting at commas, trimming and dropping
      empty names. */
  lemma FieldsArrayOf(s: String)
    ensures FieldsArray(Some(s)) == NonEmpty(TrimAll(Split(s, ",")))
  {
  }

  /** An empty fields box names no fields. */
  lemma FieldsOfEmpty()
    ensures FieldsArray(Some("")) == []
  {
    FieldsArrayOf("");
    assert Split("", ",") == [""];
    assert TrimAll([""]) == [""];
    assert [""][1..] == [];
    assert NonEmpty([""]) == [] + NonEmpty([]);
  }

  /** A list of field names typed as `a, b, c` is sent as exactly that list:
      joining trimmed, non-empty names without commas and splitting them back
      gives the names. */
  lemma FieldsRoundTrip(fs: seq<String>)
    requires forall i :: 0 <= i < |fs| ==> fs[i] != [] && Trimmed(fs[i]) && ',' !in fs[i]
    ensures FieldsArray(Some(Join(fs, ","))) == fs
  {
    if fs == [] {
      FieldsOfEmpty();
    } else {
      var joined := Join(fs, ",");
      SplitJoinFree(fs, ',');
      NonEmptyTrimmed(fs);
      FieldsArrayOf(joined);
    }
  }

  /** The options form; `maxEntries` and `chunkChars` are given as the numbers
      `Number(...)` makes of the inputs. */
  datatype ImportOptions = ImportOptions(deleteOld: bool, maxEntries: JsNumber, fields: Option<String>,
                                         chunkChars: JsNumber, titleField: Option<String>)

  /** The form's starting values. */
  const InitialOptions: ImportOptions := ImportOptions(true, Finite(20.0), Some(""), Finite(900.0), Some(""))

  datatype ConnectedModel = ConnectedModel(stackApiKey: String, deliveryToken: String, environment: String,
                                           modelUid: String)

  datatype ImportBody = ImportBody(connectedModel: ConnectedModel, deleteOld: bool, maxEntries: real,
                                   fields: Option<seq<String>>, chunkChars: real, titleField: Option<String>)

  /** The connector credentials form, keyed by input name. */
  type Creds = map<String, String>

  const ApiKey: String := "apiKey"
  const DeliveryToken: String := "deliveryToken"
  const ManagementToken: String := "managementToken"
  const Environment: String := "environment"

  const InitialCreds: Creds := map[ApiKey := "", DeliveryToken := "", ManagementToken := "", Environment := "production"]

  /** A credentials map that holds the three fields the import reads. */
  predicate HasConnectionFields(creds: Creds) {
    ApiKey in creds && DeliveryToken in creds && Environment in creds
  }

  datatype ImportAction = SelectModelFirst | PostImport(body: ImportBody)

  /** `handleImportFromModel`: nothing is posted without a selected model;
      otherwise the body carries the credentials and the normalised options. */
  function ImportFromModel(creds: Creds, selectedModelUid: String, options: ImportOptions): (a: ImportAction)
    requires HasConnectionFields(creds)
    ensures a == SelectModelFirst <==> selectedModelUid == []
    ensures a.PostImport? ==>
              var b := a.body;
              && b.connectedModel == ConnectedModel(creds[ApiKey], creds[DeliveryToken], creds[Environment],
                                                    selectedModelUid)
              && b.deleteOld == options.deleteOld
              && (NumberTruthy(options.maxEntries) ==> b.maxEntries == options.maxEntries.value)
              && (!NumberTruthy(options.maxEntries) ==> b.maxEntries == 20.0)
              && (NumberTruthy(options.chunkChars) ==> b.chunkChars == options.chunkChars.value)
              && (!NumberTruthy(options.chunkChars) ==> b.chunkChars == 900.0)
              && (b.fields.None? <==> FieldsArray(options.fields) == [])
              && (b.fields.Some? ==> b.fields.value == FieldsArray(options.fields))
              && b.titleField == (if Truthy(options.titleField) then options.titleField else None)
  {
    if selectedModelUid == [] then SelectModelFirst
    else
      var fieldsArray := FieldsArray(options.fields);
      PostImport(ImportBody(
        ConnectedModel(creds[ApiKey], creds[DeliveryToken], creds[Environment], selectedModelUid),
        options.deleteOld,
        NumberOr(options.maxEntries, 20.0),
        if |fieldsArray| > 0 then Some(fieldsArray) else None,
        NumberOr(options.chunkChars, 900.0),
        if Truthy(options.titleField) then options.titleField else None))
  }

  /** With the form untouched, the import asks for 20 entries in chunks of
      900 characters, all fields, no title field, replacing old knowledge. */
  lemma ImportDefaults(creds: Creds, model: String)
    requires HasConnectionFields(creds) && model != []
    ensures var a := ImportFromModel(creds, model, InitialOptions);
            a.PostImport? && a.body.maxEntries == 20.0 && a.body.chunkChars == 900.0
            && a.body.fields.None? && a.body.titleField.None? && a.body.deleteOld
  {
    FieldsOfEmpty();
  }

  /** The body as the import route reads it. `maxEntries` is passed on only
      when it is an integer (`Number.isInteger`); `chunkChars` is read as its
      integer part. */
  function ServerRequest(b: ImportBody): Ingestion.ImportRequest {
    Ingestion.ImportRequest(
      Some(Ingestion.Connection(Some(b.connectedModel.stackApiKey), Some(b.connectedModel.deliveryToken),
                                Some(b.connectedModel.environment), Some(b.connectedModel.modelUid))),
      b.deleteOld,
      if b.maxEntries.Floor as real == b.maxEntries then Some(b.maxEntries.Floor) else None,
      b.fields,
      b.chunkChars.Floor,
      b.titleField)
  }

  /** The route accepts the form's connection exactly when the API key and
      delivery token are filled in and the environment is not blank. */
  lemma ImportConnectionAccepted(creds: Creds, model: String, options: ImportOptions)
    requires HasConnectionFields(creds) && model != []
    ensures Ingestion.ConnectionComplete(ServerRequest(ImportFromModel(creds, model, options).body).connection)
        <==> creds[ApiKey] != [] && creds[DeliveryToken] != [] && creds[Environment] != []
  {
    var a := ImportFromModel(creds, model, options);
    assert a.body.connectedModel == ConnectedModel(creds[ApiKey], creds[DeliveryToken], creds[Environment], model);
    ServerConnectionComplete(a.body);
  }

  /** The route's completeness test on a posted body reads only its four
      connection strings. */
  lemma ServerConnectionComplete(b: ImportBody)
    ensures Ingestion.ConnectionComplete(ServerRequest(b).connection)
        <==> b.connectedModel.stackApiKey != [] && b.connectedModel.deliveryToken != []
             && b.connectedModel.environment != [] && b.connectedModel.modelUid != []
  {
    var m := b.connectedModel;
    assert ServerRequest(b).connection
        == Some(Ingestion.Connection(Some(m.stackApiKey), Some(m.deliveryToken), Some(m.environment), Some(m.modelUid)));
  }

  // ---------------------------------------------------------------------------
  // Connector credentials
  // ---------------------------------------------------------------------------

  /** The prefill effect: `{ ...prev, apiKey, deliveryToken, environment }`
      from the bot's saved connection, with `''` and `'production'` for what
      it lacks. */
  function Prefill(creds: Creds, bot: BotConfig): (r: Creds)
    ensures r.Keys == creds.Keys + {ApiKey, DeliveryToken, Environment}
    ensures HasConnectionFields(r)
    ensures r[ApiKey] == OrDefault(bot.connectedStackApiKey, "")
    ensures r[DeliveryToken] == OrDefault(bot.connectedStackDeliveryToken, "")
    ensures r[Environment] == OrDefault(bot.connectedStackEnvironment, "production") && r[Environment] != []
    ensures forall k :: k in creds && k !in {ApiKey, DeliveryToken, Environment} ==> r[k] == creds[k]
  {
    creds[ApiKey := OrDefault(bot.connectedStackApiKey, "")]
         [DeliveryToken := OrDefault(bot.connectedStackDeliveryToken, "")]
         [Environment := OrDefault(bot.connectedStackEnvironment, "production")]
  }

  /** `setSelectedModelUid(botData.connected_model_uid || '')` */
  function PrefillModel(bot: BotConfig): String {
    OrDefault(bot.connectedModelUid, "")
  }

  /** `handleCredsChange`: `{ ...connectorCreds, [name]: value }` */
  function CredsChange(creds: Creds, name: String, value: String): (r: Creds)
    ensures r.Keys == creds.Keys + {name} && r[name] == value
    ensures forall k :: k in creds && k != name ==> r[k] == creds[k]
  {
    creds[name := value]
  }

  /** Prefill leaves a typed management token alone, and running the effect
      again changes nothing. */
  lemma PrefillKeepsTyped(creds: Creds, bot: BotConfig, token: String)
    ensures Prefill(CredsChange(creds, ManagementToken, token), bot)[ManagementToken] == token
    ensures Prefill(Prefill(creds, bot), bot) == Prefill(creds, bot)
  {
  }

  /** Editing a field and prefilling again restores the saved value for the
      three prefilled fields. */
  lemma PrefillOverridesEdits(creds: Creds, bot: BotConfig, name: String, value: String)
    requires name in {ApiKey, DeliveryToken, Environment}
    ensures Prefill(CredsChange(creds, name, value), bot)[name] == Prefill(creds, bot)[name]
  {
  }

  /** After prefill from a bot whose saved connection is complete, the import
      posts a connection the route accepts. */
  lemma PrefilledImportAccepted(bot: BotConfig, options: ImportOptions)
    requires Truthy(bot.connectedStackApiKey) && Truthy(bot.connectedStackDeliveryToken)
    requires Truthy(bot.connectedModelUid)
    ensures var a := ImportFromModel(Prefill(InitialCreds, bot), PrefillModel(bot), options);
            a.PostImport? && Ingestion.ConnectionComplete(ServerRequest(a.body).connection)
  {
    ImportConnectionAccepted(Prefill(InitialCreds, bot), PrefillModel(bot), options);
  }

  // ---------------------------------------------------------------------------
  // Detaching a source
  // ---------------------------------------------------------------------------

  /** `handleClearSource`: the name sent to the detach route, or `None` when
      the name is empty or the user does not confirm. */
  function ClearSource(sourceName: Option<String>, confirmed: bool): (r: Option<String>)
    ensures r.Some? <==> Truthy(sourceName) && confirmed
    ensures r.Some? ==> r == sourceName
  {
    if !Truthy(sourceName) then None
    else if !confirmed then None
    else sourceName
  }

  /** Every group the list shows can be detached: its name passes the guard. */
  lemma GroupsPassGuard(groups: seq<(String, nat)>, refs: seq<KnowledgeRef>)
    requires Tally.TallyOf(groups, SourceNames(refs))
    ensures forall i :: 0 <= i < |groups| ==> ClearSource(Some(groups[i].0), true) == Some(groups[i].0)
  {
    forall i | 0 <= i < |groups| ensures groups[i].0 != [] {
      assert groups[i].0 in SourceNames(refs);
    }
  }
}
