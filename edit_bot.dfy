/** The bot editor's own state: the form loaded from the bot list, the save
    it sends back, and the local list of uploaded knowledge files with its
    search. */
module EditBot {
  import opened Strings
  import opened Js
  import opened Records
  import BotAdmin

  // ---------------------------------------------------------------------------
  // Loading and saving the form
  // ---------------------------------------------------------------------------

  datatype FormData = FormData(botName: String, domain: String, llmProvider: String, apiKey: String,
                               themeColor: String, fontStyle: String, avatarUrl: String,
                               freePromptSystemMessage: String)

  const InitialForm: FormData := FormData("", "Free Prompt", "Gemini", "", "#6366f1", "Inter", "", "")

  function BotUid(b: BotConfig): String {
    b.uid
  }

  /** The first listed bot whose uid is `botId`, if any. */
  function FindBot(bots: seq<BotConfig>, botId: String): Option<BotConfig> {
    FindByUid(bots, BotUid, botId)
  }

  datatype Loaded = Loaded(bot: BotConfig, form: FormData) | LoadError(message: String)

  const FetchFailed: String := "Failed to fetch bot data from the server."

  /** `fetchBotData`, given the bot list (`None` when the request fails). The
      form takes the bot's name, domain, provider and free prompt with their
      defaults, and the API key field always starts empty. */
  function FetchBotData(listing: Option<seq<BotConfig>>, botId: String): (r: Loaded)
    ensures listing.None? ==> r == LoadError(FetchFailed)
    ensures listing.Some? && FindBot(listing.value, botId).None? ==>
              r == LoadError("Bot with ID " + botId + " not found.")
    ensures r.Loaded? ==>
              && r.bot.uid == botId && r.bot in listing.value
              && r.form.botName == OrDefault(r.bot.title, "")
              && r.form.domain == OrDefault(r.bot.domain, "Free Prompt") && r.form.domain != []
              && r.form.llmProvider == OrDefault(r.bot.llmProvider, "Gemini") && r.form.llmProvider != []
              && r.form.apiKey == []
              && r.form.freePromptSystemMessage == OrDefault(r.bot.freePromptSystemMessage, "")
              && r.form == InitialForm.(botName := r.form.botName, domain := r.form.domain,
                                        llmProvider := r.form.llmProvider,
                                        freePromptSystemMessage := r.form.freePromptSystemMessage)
  {
    if listing.None? then LoadError(FetchFailed)
    else match FindBot(listing.value, botId)
      case None => LoadError("Bot with ID " + botId + " not found.")
      case Some(bot) =>
        Loaded(bot, FormData(OrDefault(bot.title, ""), OrDefault(bot.domain, "Free Prompt"),
                             OrDefault(bot.llmProvider, "Gemini"), "", "#6366f1", "Inter", "",
                             OrDefault(bot.freePromptSystemMessage, "")))
  }

  /** `handleSave`'s body: the five form fields; nothing else is sent. */
  function SaveBody(form: FormData): BotAdmin.UpdateBody {
    BotAdmin.UpdateBody(BotAdmin.Text(form.botName), BotAdmin.Text(form.domain), BotAdmin.Text(form.llmProvider),
                        BotAdmin.Text(form.apiKey), None, BotAdmin.Undefined, BotAdmin.Undefined,
                        BotAdmin.Undefined, BotAdmin.Undefined, BotAdmin.Text(form.freePromptSystemMessage))
  }

  /** Saving a freshly loaded form without edits: the update route accepts it
      exactly when the bot has a name, and then keeps the stored API key, the
      knowledge and the connection, and writes back the defaults the form
      filled in. */
  method SaveUntouched(bot: BotConfig, encrypt: String -> String)
    returns (reply: BotAdmin.Reply<BotConfig>)
    ensures reply.Ok? <==> Truthy(bot.title)
    ensures !reply.Ok? ==> reply == BotAdmin.Error(400, BotAdmin.UpdateRequired)
    ensures reply.Ok? ==>
              var saved := reply.value;
              && saved.apiKeyEncrypted == bot.apiKeyEncrypted
              && saved.activeSources == bot.activeSources
              && saved.connectedStackApiKey == bot.connectedStackApiKey
              && saved.connectedModelUid == bot.connectedModelUid
              && saved.title == bot.title
              && saved.domain == Some(OrDefault(bot.domain, "Free Prompt"))
              && saved.llmProvider == Some(OrDefault(bot.llmProvider, "Gemini"))
              && saved.freePromptSystemMessage == Some(OrDefault(bot.freePromptSystemMessage, ""))
  {
    var form := FormData(OrDefault(bot.title, ""), OrDefault(bot.domain, "Free Prompt"),
                         OrDefault(bot.llmProvider, "Gemini"), "", "#6366f1", "Inter", "",
                         OrDefault(bot.freePromptSystemMessage, ""));
    reply := BotAdmin.UpdateBot(SaveBody(form), Some(bot), encrypt);
  }

  // ---------------------------------------------------------------------------
  // Uploaded files
  // ---------------------------------------------------------------------------

  /** A file of the local list; its size and upload date are left out. */
  datatype KnowledgeFile = KnowledgeFile(id: int, name: String, kind: String)

  /** `file.name.split('.').pop().toUpperCase()` */
  function FileKind(name: String): (k: String)
    ensures '.' !in k
  {
    var after := AfterLastDot(name);
    var k := ToUpper(after);
    assert forall i :: 0 <= i < |k| ==> k[i] != '.' by {
      forall i | 0 <= i < |k| ensures k[i] != '.' {
        assert after[i] in after;
      }
    }
    k
  }

  /** The entries made for a batch of picked files, numbered from `base + 1`. */
  function NewFiles(base: int, names: seq<String>): (r: seq<KnowledgeFile>)
    ensures |r| == |names|
    ensures forall k :: 0 <= k < |names| ==> r[k] == KnowledgeFile(base + k + 1, names[k], FileKind(names[k]))
  {
    seq(|names|, k requires 0 <= k < |names| => KnowledgeFile(base + k + 1, names[k], FileKind(names[k])))
  }

  /** `handleFileUpload` as written: the new files are numbered from
      `knowledgeFiles.length + 1` and appended; an empty pick changes
      nothing. */
  function UploadFilesAsWritten(files: seq<KnowledgeFile>, names: seq<String>): (r: seq<KnowledgeFile>)
    ensures |r| == |files| + |names| && r[..|files|] == files
    ensures forall k :: 0 <= k < |names| ==> r[|files| + k].id == |files| + k + 1 && r[|files| + k].name == names[k]
  {
    if |names| > 0 then files + NewFiles(|files|, names) else files
  }

  /** `handleFileDelete`: every file but the ones with id `fileId`, in order. */
  function DeleteFile(files: seq<KnowledgeFile>, fileId: int): (r: seq<KnowledgeFile>)
    ensures forall f :: f in r <==> f in files && f.id != fileId
    ensures |r| <= |files|
  {
    if files == [] then []
    else (if files[0].id != fileId then [files[0]] else []) + DeleteFile(files[1..], fileId)
  }

  /** Deleting keeps the order of the rest: it distributes over a split of
      the list. */
  lemma {:induction false} DeleteKeepsOrder(a: seq<KnowledgeFile>, b: seq<KnowledgeFile>, fileId: int)
    ensures DeleteFile(a + b, fileId) == DeleteFile(a, fileId) + DeleteFile(b, fileId)
  {
    if a == [] {
      assert a + b == b;
    } else {
      assert (a + b)[1..] == a[1..] + b;
      DeleteKeepsOrder(a[1..], b, fileId);
    }
  }

  ghost predicate UniqueIds(files: seq<KnowledgeFile>) {
    forall i, j :: 0 <= i < j < |files| ==> files[i].id != files[j].id
  }

  /** Uploading after a delete reuses an id that is still in the list. */
  lemma UploadAfterDeleteReusesId()
    ensures var files := [KnowledgeFile(1, "a.pdf", "PDF"), KnowledgeFile(2, "b.pdf", "PDF")];
            var after := UploadFilesAsWritten(DeleteFile(files, 1), ["c.txt"]);
            UniqueIds(files) && |after| == 2 && after[0].id == 2 && after[1].id == 2
  {
    var files := [KnowledgeFile(1, "a.pdf", "PDF"), KnowledgeFile(2, "b.pdf", "PDF")];
    assert DeleteFile(files, 1) == [files[1]] by {
      assert DeleteFile(files[1..], 1) == [files[1]] + DeleteFile(files[2..], 1);
    }
  }

  /** The largest id in the list, 0 for an empty list. */
  function MaxId(files: seq<KnowledgeFile>): (m: int)
    ensures forall i :: 0 <= i < |files| ==> files[i].id <= m
    ensures m >= 0
  {
    if files == [] then 0
    else var rest := MaxId(files[1..]);
      if files[0].id > rest then files[0].id else rest
  }

  /** The upload with fresh ids: numbered after the largest id in the list. */
  function UploadFiles(files: seq<KnowledgeFile>, names: seq<String>): (r: seq<KnowledgeFile>)
    ensures |r| == |files| + |names| && r[..|files|] == files
    ensures forall k :: 0 <= k < |names| ==>
              r[|files| + k].name == names[k] && r[|files| + k].kind == FileKind(names[k])
  {
    if |names| > 0 then files + NewFiles(MaxId(files), names) else files
  }

  /** Fresh numbering keeps ids unique through any upload. */
  lemma UploadKeepsIdsUnique(files: seq<KnowledgeFile>, names: seq<String>)
    requires UniqueIds(files)
    ensures UniqueIds(UploadFiles(files, names))
  {
    var r := UploadFiles(files, names);
    var m := MaxId(files);
    forall i, j | 0 <= i < j < |r| ensures r[i].id != r[j].id {
      if j >= |files| {
        assert r[j].id == m + (j - |files|) + 1;
        if i >= |files| {
          assert r[i].id == m + (i - |files|) + 1;
        } else {
          assert r[i] == files[i];
        }
      } else {
        assert r[i] == files[i] && r[j] == files[j];
      }
    }
  }

  /** ... and through any delete. */
  lemma DeleteKeepsIdsUnique(files: seq<KnowledgeFile>, fileId: int)
    requires UniqueIds(files)
    ensures UniqueIds(DeleteFile(files, fileId))
  {
    if files != [] {
      DeleteKeepsIdsUnique(files[1..], fileId);
    }
  }

  /** While the list is numbered 1, 2, ... (nothing deleted yet), the fresh
      numbering gives the same ids as the code. */
  lemma FreshAgreesWithoutDeletes(files: seq<KnowledgeFile>, names: seq<String>)
    requires forall i :: 0 <= i < |files| ==> files[i].id == i + 1
    ensures UploadFiles(files, names) == UploadFilesAsWritten(files, names)
  {
    if files != [] {
      assert files[|files| - 1].id == |files|;
      MaxIdAtMost(files, |files|);
      assert MaxId(files) == |files|;
    }
  }

  lemma {:induction false} MaxIdAtMost(files: seq<KnowledgeFile>, bound: int)
    requires bound >= 0
    requires forall i :: 0 <= i < |files| ==> files[i].id <= bound
    ensures MaxId(files) <= bound
  {
    if files != [] {
      MaxIdAtMost(files[1..], bound);
    }
  }

  /** `filteredFiles`: the files whose lower-cased name contains the
      lower-cased query, in list order. */
  function FilteredFiles(files: seq<KnowledgeFile>, query: String): (r: seq<KnowledgeFile>)
    ensures forall f :: f in r <==> f in files && Contains(ToLower(f.name), ToLower(query))
  {
    if files == [] then []
    else (if Contains(ToLower(files[0].name), ToLower(query)) then [files[0]] else [])
         + FilteredFiles(files[1..], query)
  }

  /** An empty search shows every file. */
  lemma {:induction false} EmptyQueryKeepsAll(files: seq<KnowledgeFile>)
    ensures FilteredFiles(files, "") == files
  {
    if files != [] {
      EmptyQueryKeepsAll(files[1..]);
      assert StartsWith(ToLower(files[0].name), ToLower(""));
      assert files == [files[0]] + files[1..];
    }
  }

  /** The search ignores letter case in the query. */
  lemma {:induction false} QueryCaseIgnored(files: seq<KnowledgeFile>, query: String)
    ensures FilteredFiles(files, ToUpper(query)) == FilteredFiles(files, query)
  {
    LowerOfUpper(query);
    if files != [] {
      QueryCaseIgnored(files[1..], query);
    }
  }
}
