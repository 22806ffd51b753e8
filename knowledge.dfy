/** Backend knowledge handling: assembling the knowledge blob for a chat turn,
    appending and detaching knowledge references on a bot, and turning CSV rows
    into question/answer pairs. The content repository is a sequence of
    entries in the order the repository returns them. */
module Knowledge {
  import opened Strings
  import opened Js
  import opened Records

  const KnowledgeSeparator: String := "\n\n"
  const UntitledSource: String := "Untitled Source"

  // ---------------------------------------------------------------------------
  // Context assembly
  // ---------------------------------------------------------------------------

  /** The uids of the active knowledge references, none when there are none. */
  function ActiveUids(refs: Option<seq<KnowledgeRef>>): seq<Option<String>> {
    if refs.None? then [] else seq(|refs.value|, i requires 0 <= i < |refs.value| => refs.value[i].uid)
  }

  /** The repository query `{ uid: { $in: uids } }`: the entries whose uid is
      listed, in repository order. */
  function QueryIn(store: seq<KnowledgeEntry>, uids: seq<Option<String>>): seq<KnowledgeEntry> {
    if store == [] then []
    else (if Some(store[0].uid) in uids then [store[0]] else []) + QueryIn(store[1..], uids)
  }

  function Texts(entries: seq<KnowledgeEntry>): (texts: seq<String>)
    ensures |texts| == |entries|
    ensures forall i :: 0 <= i < |entries| ==> texts[i] == entries[i].sourceText
  {
    if entries == [] then [] else [entries[0].sourceText] + Texts(entries[1..])
  }

  /** The knowledge blob a chat turn injects into the prompt. */
  function KnowledgeBlob(refs: Option<seq<KnowledgeRef>>, store: seq<KnowledgeEntry>): String {
    var uids := ActiveUids(refs);
    if |uids| == 0 then []
    else
      var found := QueryIn(store, uids);
      if |found| > 0 then Join(Texts(found), KnowledgeSeparator) else []
  }

  /** The query returns exactly the listed entries: an entry is in the result
      if and only if it is in the repository and its uid is listed. */
  lemma {:induction false} QueryInExact(store: seq<KnowledgeEntry>, uids: seq<Option<String>>, e: KnowledgeEntry)
    ensures e in QueryIn(store, uids) <==> e in store && Some(e.uid) in uids
  {
    if store != [] {
      QueryInExact(store[1..], uids, e);
      assert store == [store[0]] + store[1..];
    }
  }

  /** The query keeps repository order: it distributes over concatenation. */
  lemma {:induction false} QueryInOrder(s1: seq<KnowledgeEntry>, s2: seq<KnowledgeEntry>, uids: seq<Option<String>>)
    ensures QueryIn(s1 + s2, uids) == QueryIn(s1, uids) + QueryIn(s2, uids)
  {
    if s1 != [] {
      assert (s1 + s2)[1..] == s1[1..] + s2;
      QueryInOrder(s1[1..], s2, uids);
    } else {
      assert s1 + s2 == s2;
    }
  }

  /** Without active sources the blob is empty. */
  lemma BlobWithoutSources(refs: Option<seq<KnowledgeRef>>, store: seq<KnowledgeEntry>)
    requires |ActiveUids(refs)| == 0
    ensures KnowledgeBlob(refs, store) == []
  {
  }

  /** With active sources the blob is the texts of exactly the listed entries,
      in repository order, separated by a blank line; a non-empty blob needs at
      least one listed entry. */
  lemma BlobIsolation(refs: Option<seq<KnowledgeRef>>, store: seq<KnowledgeEntry>)
    ensures KnowledgeBlob(refs, store) == Join(Texts(QueryIn(store, ActiveUids(refs))), KnowledgeSeparator)
    ensures KnowledgeBlob(refs, store) != [] ==>
              exists e :: e in store && Some(e.uid) in ActiveUids(refs)
  {
    var uids := ActiveUids(refs);
    if |uids| == 0 {
      QueryInNone(store, uids);
    }
    var found := QueryIn(store, uids);
    if KnowledgeBlob(refs, store) != [] {
      assert |found| > 0;
      QueryInExact(store, uids, found[0]);
    }
  }

  lemma {:induction false} QueryInNone(store: seq<KnowledgeEntry>, uids: seq<Option<String>>)
    requires uids == []
    ensures QueryIn(store, uids) == []
  {
    if store != [] {
      QueryInNone(store[1..], uids);
    }
  }

  /** Entries whose uids are not listed never come back from the query. */
  lemma {:induction false} QueryInUnlisted(store: seq<KnowledgeEntry>, uids: seq<Option<String>>)
    requires forall e :: e in store ==> Some(e.uid) !in uids
    ensures QueryIn(store, uids) == []
  {
    if store != [] {
      QueryInUnlisted(store[1..], uids);
    }
  }

  // ---------------------------------------------------------------------------
  // Reference list maintenance
  // ---------------------------------------------------------------------------

  /** The reference written for a created knowledge entry. */
  function RefTo(e: KnowledgeEntry): KnowledgeRef {
    KnowledgeRef(Some(e.uid), "customknowledge", None)
  }

  function RefsTo(created: seq<KnowledgeEntry>): (refs: seq<KnowledgeRef>)
    ensures |refs| == |created|
    ensures forall i :: 0 <= i < |created| ==> refs[i] == RefTo(created[i])
  {
    if created == [] then [] else [RefTo(created[0])] + RefsTo(created[1..])
  }

  /** `[...(Array.isArray(refs) ? refs : []), ...newSourceReferences]` */
  function AppendRefs(existing: Option<seq<KnowledgeRef>>, created: seq<KnowledgeEntry>): seq<KnowledgeRef> {
    (if existing.Some? then existing.value else []) + RefsTo(created)
  }

  /** The detach filter: references without a uid, or whose uid is not being removed, stay. */
  function KeepRefs(refs: seq<KnowledgeRef>, deleted: set<String>): seq<KnowledgeRef> {
    if refs == [] then []
    else (if !Truthy(refs[0].uid) || refs[0].uid.value !in deleted then [refs[0]] else [])
         + KeepRefs(refs[1..], deleted)
  }

  /** Appending keeps every existing reference, unchanged and in order, and adds
      exactly one reference per created entry after them. */
  lemma AppendRefsShape(existing: Option<seq<KnowledgeRef>>, created: seq<KnowledgeEntry>)
    ensures var old_ := if existing.Some? then existing.value else [];
            var refs := AppendRefs(existing, created);
            |refs| == |old_| + |created| && refs[..|old_|] == old_ &&
            forall i :: 0 <= i < |created| ==> refs[|old_| + i] == RefTo(created[i])
  {
  }

  /** Detaching removes exactly the references whose uid was deleted and keeps
      references without a uid. */
  lemma {:induction false} KeepRefsExact(refs: seq<KnowledgeRef>, deleted: set<String>, r: KnowledgeRef)
    ensures r in KeepRefs(refs, deleted) <==> r in refs && (!Truthy(r.uid) || r.uid.value !in deleted)
  {
    if refs != [] {
      KeepRefsExact(refs[1..], deleted, r);
      assert refs == [refs[0]] + refs[1..];
    }
  }

  /** Detaching preserves the order of what it keeps. */
  lemma {:induction false} KeepRefsOrder(r1: seq<KnowledgeRef>, r2: seq<KnowledgeRef>, deleted: set<String>)
    ensures KeepRefs(r1 + r2, deleted) == KeepRefs(r1, deleted) + KeepRefs(r2, deleted)
  {
    if r1 != [] {
      assert (r1 + r2)[1..] == r1[1..] + r2;
      KeepRefsOrder(r1[1..], r2, deleted);
    } else {
      assert r1 + r2 == r2;
    }
  }

  function UidsOf(entries: seq<KnowledgeEntry>): set<String> {
    set e | e in entries :: e.uid
  }

  /** Detaching the entries an append just created restores the reference
      list, provided the repository gave them uids no existing reference uses. */
  lemma {:induction false} DetachUndoesAppend(existing: seq<KnowledgeRef>, created: seq<KnowledgeEntry>)
    requires forall e :: e in created ==> e.uid != []
    requires forall r :: r in existing && Truthy(r.uid) ==> r.uid.value !in UidsOf(created)
    ensures KeepRefs(AppendRefs(Some(existing), created), UidsOf(created)) == existing
  {
    KeepRefsOrder(existing, RefsTo(created), UidsOf(created));
    KeepAllUntouched(existing, UidsOf(created));
    DropAllCreated(created, UidsOf(created));
  }

  lemma {:induction false} KeepAllUntouched(refs: seq<KnowledgeRef>, deleted: set<String>)
    requires forall r :: r in refs && Truthy(r.uid) ==> r.uid.value !in deleted
    ensures KeepRefs(refs, deleted) == refs
  {
    if refs != [] {
      assert refs[0] in refs;
      KeepAllUntouched(refs[1..], deleted);
    }
  }

  lemma {:induction false} DropAllCreated(created: seq<KnowledgeEntry>, deleted: set<String>)
    requires forall e :: e in created ==> e.uid != []
    requires UidsOf(created) <= deleted
    ensures KeepRefs(RefsTo(created), deleted) == []
  {
    if created != [] {
      assert created[0] in created;
      assert forall e :: e in created[1..] ==> e in created;
      assert UidsOf(created[1..]) <= UidsOf(created);
      assert created[0].uid in deleted;
      DropAllCreated(created[1..], deleted);
      assert RefsTo(created)[1..] == RefsTo(created[1..]);
    }
  }

  /** The entries of one bot that came from the named source. */
  predicate FromSource(e: KnowledgeEntry, botId: String, sourceName: String) {
    e.botRef == botId && e.sourceName == Some(sourceName)
  }

  /** The repository after deleting every entry whose uid is listed. */
  function Without(store: seq<KnowledgeEntry>, uids: set<String>): (r: seq<KnowledgeEntry>)
    ensures forall e {:trigger e in r} :: e in r <==> e in store && e.uid !in uids
  {
    if store == [] then []
    else (if store[0].uid in uids then [] else [store[0]]) + Without(store[1..], uids)
  }

  /** Deleting distributes over concatenation, so the remaining entries keep
      their store order. */
  lemma {:induction false} WithoutOrder(s1: seq<KnowledgeEntry>, s2: seq<KnowledgeEntry>, uids: set<String>)
    ensures Without(s1 + s2, uids) == Without(s1, uids) + Without(s2, uids)
  {
    if s1 == [] {
      assert s1 + s2 == s2;
    } else {
      assert (s1 + s2)[0] == s1[0];
      assert (s1 + s2)[1..] == s1[1..] + s2;
      WithoutOrder(s1[1..], s2, uids);
    }
  }

  /** The repository query for one bot's entries from the named source. */
  function SourceEntries(store: seq<KnowledgeEntry>, botId: String, sourceName: String): (r: seq<KnowledgeEntry>)
    ensures forall e :: e in r <==> e in store && FromSource(e, botId, sourceName)
  {
    if store == [] then []
    else (if FromSource(store[0], botId, sourceName) then [store[0]] else [])
         + SourceEntries(store[1..], botId, sourceName)
  }

  lemma {:induction false} SourceEntriesAppend(s: seq<KnowledgeEntry>, x: KnowledgeEntry, botId: String, sourceName: String)
    ensures SourceEntries(s + [x], botId, sourceName)
         == SourceEntries(s, botId, sourceName) + (if FromSource(x, botId, sourceName) then [x] else [])
  {
    if s != [] {
      assert (s + [x])[1..] == s[1..] + [x];
      SourceEntriesAppend(s[1..], x, botId, sourceName);
    } else {
      assert s + [x] == [x];
    }
  }

  /** The detach route: delete the bot's entries from the named source, then,
      when the bot's reference list is a non-empty array, drop the references to
      the deleted uids. Answers the number of deleted entries. */
  method DetachSource(store: seq<KnowledgeEntry>, bot: BotConfig, sourceName: String)
    returns (store': seq<KnowledgeEntry>, bot': BotConfig, deletedCount: nat)
    ensures deletedCount == |SourceEntries(store, bot.uid, sourceName)|
    ensures var deleted := set e | e in store && FromSource(e, bot.uid, sourceName) :: e.uid;
            && store' == Without(store, deleted)
            && (forall e :: e in store' <==> e in store && e.uid !in deleted)
            && bot' == (if bot.activeSources.Some? && |bot.activeSources.value| > 0
                        then bot.(activeSources := Some(KeepRefs(bot.activeSources.value, deleted)))
                        else bot)
  {
    var items: seq<KnowledgeEntry> := [];
    var i := 0;
    while i < |store|
      invariant 0 <= i <= |store|
      invariant items == SourceEntries(store[..i], bot.uid, sourceName)
    {
      SourceEntriesAppend(store[..i], store[i], bot.uid, sourceName);
      assert store[..i + 1] == store[..i] + [store[i]];
      if FromSource(store[i], bot.uid, sourceName) {
        items := items + [store[i]];
      }
      i := i + 1;
    }
    assert store[..i] == store;
    var deleted := set e | e in items :: e.uid;
    assert deleted == set e | e in store && FromSource(e, bot.uid, sourceName) :: e.uid;
    store' := Without(store, deleted);
    deletedCount := |items|;
    bot' := bot;
    if bot.activeSources.Some? && |bot.activeSources.value| > 0 {
      bot' := bot.(activeSources := Some(KeepRefs(bot.activeSources.value, deleted)));
    }
  }

  // ---------------------------------------------------------------------------
  // Ingestion helpers
  // ---------------------------------------------------------------------------

  /** A question/answer pair handed to `addKnowledgeSource`. */
  datatype QaPair = QaPair(question: Option<String>, answer: Option<String>)

  /** `Question: ${q}\nAnswer: ${a}` */
  function SourceText(p: QaPair): String {
    "Question: " + Render(p.question) + "\nAnswer: " + Render(p.answer)
  }

  /** The entry created for pair `p`; its uid is the one the repository assigns. */
  function EntryFor(p: QaPair, uid: String, botId: String, sourceName: String, sourceId: String): KnowledgeEntry {
    KnowledgeEntry(uid, SourceText(p), Some(sourceId), Some(sourceName), botId)
  }

  /** `addKnowledgeSource`: one entry per pair (with the uids the repository
      returns, one per create), then the bot's references are extended. */
  method AddKnowledgeSource(store: seq<KnowledgeEntry>, bot: BotConfig, pairs: seq<QaPair>,
                            sourceName: String, sourceId: String, newUids: seq<String>, now: Stamp)
    returns (store': seq<KnowledgeEntry>, bot': BotConfig)
    requires |newUids| == |pairs|
    ensures |store'| == |store| + |pairs| && store'[..|store|] == store
    ensures forall i :: 0 <= i < |pairs| ==>
              store'[|store| + i] == EntryFor(pairs[i], newUids[i], bot.uid, sourceName, sourceId)
    ensures bot' == bot.(activeSources := Some(AppendRefs(bot.activeSources, store'[|store|..])),
                         lastTrainedAt := Some(now))
  {
    var created: seq<KnowledgeEntry> := [];
    var i := 0;
    while i < |pairs|
      invariant 0 <= i <= |pairs| && |created| == i
      invariant forall k :: 0 <= k < i ==> created[k] == EntryFor(pairs[k], newUids[k], bot.uid, sourceName, sourceId)
    {
      created := created + [EntryFor(pairs[i], newUids[i], bot.uid, sourceName, sourceId)];
      i := i + 1;
    }
    store' := store + created;
    assert store'[|store|..] == created;
    bot' := bot.(activeSources := Some(AppendRefs(bot.activeSources, created)), lastTrainedAt := Some(now));
  }

  /** After `addKnowledgeSource`, the next chat turn's knowledge query returns
      every entry it created. */
  lemma NewKnowledgeIsActive(store: seq<KnowledgeEntry>, created: seq<KnowledgeEntry>,
                             existing: Option<seq<KnowledgeRef>>, e: KnowledgeEntry)
    requires e in created
    ensures e in QueryIn(store + created, ActiveUids(Some(AppendRefs(existing, created))))
  {
    var refs := AppendRefs(existing, created);
    var base := if existing.Some? then existing.value else [];
    var i :| 0 <= i < |created| && created[i] == e;
    assert refs[|base| + i] == RefTo(e);
    assert ActiveUids(Some(refs))[|base| + i] == Some(e.uid);
    QueryInExact(store + created, ActiveUids(Some(refs)), e);
  }

  /** A parsed CSV row: header name to cell text. */
  type Row = map<String, String>

  predicate HasCell(row: Row, column: String) {
    column in row && row[column] != []
  }

  /** The CSV rows that have both a question and an answer, as question-answer pairs. */
  function QaPairsFromRows(rows: seq<Row>): seq<QaPair> {
    if rows == [] then []
    else (if HasCell(rows[0], "question") && HasCell(rows[0], "answer")
          then [QaPair(Some(rows[0]["question"]), Some(rows[0]["answer"]))] else [])
         + QaPairsFromRows(rows[1..])
  }

  /** Every pair has a non-empty question and answer taken from one row, and
      every row with both cells yields its pair, in row order. */
  lemma {:induction false} QaPairsExact(rows: seq<Row>)
    ensures |QaPairsFromRows(rows)| <= |rows|
    ensures forall p :: p in QaPairsFromRows(rows) ==>
              Truthy(p.question) && Truthy(p.answer) &&
              exists r :: r in rows && HasCell(r, "question") && HasCell(r, "answer") &&
                          p == QaPair(Some(r["question"]), Some(r["answer"]))
    ensures forall r :: r in rows && HasCell(r, "question") && HasCell(r, "answer") ==>
              QaPair(Some(r["question"]), Some(r["answer"])) in QaPairsFromRows(rows)
  {
    if rows != [] {
      QaPairsExact(rows[1..]);
      assert rows == [rows[0]] + rows[1..];
      forall p | p in QaPairsFromRows(rows)
        ensures exists r :: r in rows && HasCell(r, "question") && HasCell(r, "answer") &&
                          p == QaPair(Some(r["question"]), Some(r["answer"]))
      {
        if p !in QaPairsFromRows(rows[1..]) {
          assert rows[0] in rows;
        }
      }
    }
  }

  /** What the upload route does with the parser's output. */
  datatype CsvOutcome =
    | CriticalErrors(codes: seq<String>)   // 400 with the critical parser errors
    | MissingColumns                       // 400: no `question`/`answer` header
    | Pairs(pairs: seq<QaPair>)            // handed to addKnowledgeSource

  /** The upload route's header check and row filter. Without a `question`
      and an `answer` column in the first row, the reply lists the parser's
      errors other than `TooManyFields`, in order, or is the header message
      exactly when there are none. */
  function CsvUpload(rows: seq<Row>, errorCodes: seq<String>): (o: CsvOutcome)
    ensures o.Pairs? <==> |rows| > 0 && "question" in rows[0] && "answer" in rows[0]
    ensures o.Pairs? ==> o.pairs == QaPairsFromRows(rows)
    ensures o.CriticalErrors? ==> |o.codes| > 0 && "TooManyFields" !in o.codes
    ensures o.CriticalErrors? ==> o.codes == NonTooManyFacts(errorCodes)
    ensures o.CriticalErrors? <==> !o.Pairs? && exists c :: c in errorCodes && c != "TooManyFields"
    ensures o.MissingColumns? <==> !o.Pairs? && forall c :: c in errorCodes ==> c == "TooManyFields"
  {
    if |rows| == 0 || "question" !in rows[0] || "answer" !in rows[0] then
      var critical := NonTooManyFacts(errorCodes);
      if |critical| > 0 then
        assert critical[0] in errorCodes && critical[0] != "TooManyFields" by {
          assert critical[0] in critical;
        }
        CriticalErrors(critical)
      else
        assert forall c :: c in errorCodes && c != "TooManyFields" ==> c in critical;
        MissingColumns
    else Pairs(QaPairsFromRows(rows))
  }

  /** The parser errors with every `TooManyFields` dropped: exactly the other
      codes, each where it stood. */
  function NonTooManyFacts(codes: seq<String>): (r: seq<String>)
    ensures |r| <= |codes|
    ensures forall c :: c in r <==> c in codes && c != "TooManyFields"
  {
    if codes == [] then []
    else
      var rest := NonTooManyFacts(codes[1..]);
      assert forall c :: c in codes <==> c == codes[0] || c in codes[1..];
      (if codes[0] != "TooManyFields" then [codes[0]] else []) + rest
  }

  /** The filter keeps the order of the parser's errors. */
  lemma {:induction false} NonTooManyOrder(a: seq<String>, b: seq<String>)
    ensures NonTooManyFacts(a + b) == NonTooManyFacts(a) + NonTooManyFacts(b)
  {
    if a == [] {
      assert a + b == b;
    } else {
      assert (a + b)[0] == a[0];
      assert (a + b)[1..] == a[1..] + b;
      NonTooManyOrder(a[1..], b);
    }
  }
}
