/** The dashboard's bot list: the search, filter and sort effect, the card
    each bot is shown as, and the embed code handed out for a bot. */
module Dashboard {
  import opened Strings
  import opened Js
  import Sorting

  /** `llm_provider` as the list returns it: absent, a string, or an array
      (a multi-valued field). */
  datatype ProviderField = Missing | Name(s: String) | List(items: seq<String>)

  /** A bot of the list. `updatedAt` is `new Date(updated_at)` as a
      timestamp. */
  datatype Bot = Bot(uid: String, title: Option<String>, provider: ProviderField, updatedAt: int)

  // ---------------------------------------------------------------------------
  // Search
  // ---------------------------------------------------------------------------

  /** `(bot.title || '')` */
  function TitleText(bot: Bot): String {
    OrDefault(bot.title, "")
  }

  /** The provider text searched, as written: `Array.isArray(p) ? p[0] : p || ''`.
      An empty array gives `undefined`, whose `toLowerCase()` throws: `None`. */
  function ProviderTextAsWritten(p: ProviderField): (r: Option<String>)
    ensures r.None? <==> p == List([])
  {
    match p
    case Missing => Some("")
    case Name(s) => Some(s)
    case List(items) => if items == [] then None else Some(items[0])
  }

  /** The provider text searched, with an empty array read as no provider. */
  function ProviderText(p: ProviderField): (r: String)
    ensures ProviderTextAsWritten(p).Some? ==> r == ProviderTextAsWritten(p).value
    ensures p == List([]) ==> r == []
  {
    match p
    case Missing => ""
    case Name(s) => s
    case List(items) => if items == [] then "" else items[0]
  }

  /** The search test of one bot: its title or its provider contains the
      query, ignoring letter case. */
  predicate Matches(bot: Bot, query: String) {
    Contains(ToLower(TitleText(bot)), ToLower(query))
    || Contains(ToLower(ProviderText(bot.provider)), ToLower(query))
  }

  /** The search step: every bot when the query is empty, otherwise the bots
      that match, in list order. */
  function Searched(bots: seq<Bot>, query: String): (r: seq<Bot>)
    ensures forall b :: b in r <==> b in bots && (query == [] || Matches(b, query))
    ensures query == [] ==> r == bots
    ensures |r| <= |bots|
  {
    if query == [] then bots else Filtered(bots, query)
  }

  function Filtered(bots: seq<Bot>, query: String): (r: seq<Bot>)
    ensures forall b :: b in r <==> b in bots && Matches(b, query)
    ensures |r| <= |bots|
  {
    if bots == [] then []
    else (if Matches(bots[0], query) then [bots[0]] else []) + Filtered(bots[1..], query)
  }

  /** One bot's test as written: `||` stops at a matching title, so the
      provider is only read (and may throw) when the title does not match. */
  function MatchesAsWritten(bot: Bot, query: String): Option<bool> {
    if Contains(ToLower(TitleText(bot)), ToLower(query)) then Some(true)
    else match ProviderTextAsWritten(bot.provider)
      case None => None
      case Some(t) => Some(Contains(ToLower(t), ToLower(query)))
  }

  function FilteredAsWritten(bots: seq<Bot>, query: String): Option<seq<Bot>> {
    if bots == [] then Some([])
    else match MatchesAsWritten(bots[0], query)
      case None => None
      case Some(m) =>
        match FilteredAsWritten(bots[1..], query)
        case None => None
        case Some(rest) => Some((if m then [bots[0]] else []) + rest)
  }

  /** The search step as written; `None` when the effect throws. */
  function SearchedAsWritten(bots: seq<Bot>, query: String): Option<seq<Bot>> {
    if query == [] then Some(bots) else FilteredAsWritten(bots, query)
  }

  /** A bot whose provider is an empty array and whose title does not match
      makes the search throw. */
  predicate Throws(bot: Bot, query: String) {
    bot.provider == List([]) && !Contains(ToLower(TitleText(bot)), ToLower(query))
  }

  /** The code as written throws exactly when the query is non-empty and some
      bot has an empty provider array and a title that does not match; when
      it does not throw, it agrees with `Searched`. */
  lemma {:induction false} SearchedAsWrittenAgrees(bots: seq<Bot>, query: String)
    ensures SearchedAsWritten(bots, query).None? <==> query != [] && exists b :: b in bots && Throws(b, query)
    ensures SearchedAsWritten(bots, query).Some? ==> SearchedAsWritten(bots, query).value == Searched(bots, query)
  {
    if query != [] {
      FilteredAsWrittenAgrees(bots, query);
    }
  }

  lemma {:induction false} FilteredAsWrittenAgrees(bots: seq<Bot>, query: String)
    ensures FilteredAsWritten(bots, query).None? <==> exists b :: b in bots && Throws(b, query)
    ensures FilteredAsWritten(bots, query).Some? ==> FilteredAsWritten(bots, query).value == Filtered(bots, query)
  {
    if bots != [] {
      FilteredAsWrittenAgrees(bots[1..], query);
      assert forall b :: b in bots <==> b == bots[0] || b in bots[1..];
      var m := MatchesAsWritten(bots[0], query);
      assert m.None? <==> Throws(bots[0], query);
      assert m.Some? ==> m.value == Matches(bots[0], query);
    }
  }

  /** A bot saved with an empty provider array and a title without "x" makes
      a search for "x" throw; the corrected search just leaves it out. */
  lemma EmptyProviderArrayThrows()
    ensures var bots := [Bot("b1", Some("Sales"), List([]), 0)];
            SearchedAsWritten(bots, "x").None? && Searched(bots, "x") == []
  {
    var bot := Bot("b1", Some("Sales"), List([]), 0);
    var bots := [bot];
    var title := ToLower("Sales");
    assert 'x' !in title by {
      forall i | 0 <= i < |title| ensures title[i] != 'x' {
        assert title[i] == ToLowerChar("Sales"[i]);
      }
    }
    NotContainsX(title);
    assert ToLower("x") == "x";
    assert Throws(bot, "x");
    SearchedAsWrittenAgrees(bots, "x");
    assert ToLower("") == "";
    assert !Matches(bot, "x");
    assert bots[1..] == [];
    assert Filtered(bots, "x") == [] + Filtered([], "x");
  }

  lemma {:induction false} NotContainsX(s: String)
    requires 'x' !in s
    ensures !Contains(s, "x")
    decreases |s|
  {
    if s != [] {
      assert s[0] in s;
      NotContainsX(s[1..]);
    }
  }

  // ---------------------------------------------------------------------------
  // Sort
  // ---------------------------------------------------------------------------

  /** The comparator `sortBy` picks, as an integer key: 'date' puts the most
      recently updated first, 'name' orders titles by `rank`, the collation
      order `localeCompare` follows; any other value does not sort. */
  function SortKey(sortBy: String, rank: String -> int): Option<Bot -> int> {
    if sortBy == "date" then Some((b: Bot) => -b.updatedAt)
    else if sortBy == "name" then Some((b: Bot) => rank(TitleText(b)))
    else None
  }

  /** The list the dashboard shows. */
  function Displayed(bots: seq<Bot>, query: String, sortBy: String, rank: String -> int): seq<Bot> {
    var found := Searched(bots, query);
    match SortKey(sortBy, rank)
    case None => found
    case Some(key) => Sorting.SortedBy(found, key)
  }

  /** The filter-and-sort effect. `statusFilter` is taken and ignored: the
      result does not depend on it. The shown list is a reordering of the
      search result, every bot in it matches a non-empty query, an empty
      query shows every bot, and sorting by date puts later updates first. */
  method FilterAndSort(chatbots: seq<Bot>, searchQuery: String, statusFilter: String, sortBy: String,
                       rank: String -> int)
    returns (filtered: seq<Bot>)
    ensures filtered == Displayed(chatbots, searchQuery, sortBy, rank)
    ensures multiset(filtered) == multiset(Searched(chatbots, searchQuery))
    ensures searchQuery == [] ==> multiset(filtered) == multiset(chatbots)
    ensures forall b :: b in filtered ==> b in chatbots && (searchQuery == [] || Matches(b, searchQuery))
    ensures sortBy == "date" ==>
              forall i, j :: 0 <= i < j < |filtered| ==> filtered[i].updatedAt >= filtered[j].updatedAt
  {
    var found := Searched(chatbots, searchQuery);
    var a := new Bot[|found|](i requires 0 <= i < |found| => found[i]);
    assert a[..] == found;
    var key := SortKey(sortBy, rank);
    if key.Some? {
      Sorting.SortInPlace(a, key.value);
      Sorting.SortedByCorrect(found, key.value);
    }
    filtered := a[..];
    if sortBy == "date" {
      forall i, j | 0 <= i < j < |filtered| ensures filtered[i].updatedAt >= filtered[j].updatedAt {
        assert key.value(filtered[i]) <= key.value(filtered[j]);
      }
    }
    forall b | b in filtered ensures b in chatbots && (searchQuery == [] || Matches(b, searchQuery)) {
      assert b in multiset(found);
    }
  }

  // ---------------------------------------------------------------------------
  // Cards and embed code
  // ---------------------------------------------------------------------------

  /** What a card shows besides the random figures: `model` is `None` when
      the provider is an empty array (`undefined`). */
  datatype Card = Card(id: String, name: String, model: Option<String>)

  /** `transformChatbotData`: the id is the uid, the name falls back to
      'Untitled Bot' and a missing or empty provider string to 'N/A'; an
      array shows its first element. */
  function CardOf(bot: Bot): (c: Card)
    ensures c.id == bot.uid && c.name != []
    ensures Truthy(bot.title) ==> c.name == bot.title.value
    ensures !Truthy(bot.title) ==> c.name == "Untitled Bot"
    ensures c.model.None? <==> bot.provider == List([])
    ensures bot.provider.Name? && bot.provider.s != [] ==> c.model == Some(bot.provider.s)
    ensures bot.provider.Missing? || bot.provider == Name([]) ==> c.model == Some("N/A")
  {
    var model := match bot.provider
      case Missing => Some("N/A")
      case Name(s) => Some(if s == [] then "N/A" else s)
      case List(items) => if items == [] then None else Some(items[0]);
    Card(bot.uid, OrDefault(bot.title, "Untitled Bot"), model)
  }

  /** A query found in a card's own title or model finds the bot, except for
      the fallback texts, which the search does not see. */
  lemma {:induction false} CardTextIsSearchable(bot: Bot, query: String)
    requires Truthy(bot.title) || bot.provider.List? || (bot.provider.Name? && bot.provider.s != [])
    requires var c := CardOf(bot);
             (Truthy(bot.title) && Contains(ToLower(c.name), ToLower(query)))
             || (c.model.Some? && !(bot.provider.Missing? || bot.provider == Name([]))
                 && Contains(ToLower(c.model.value), ToLower(query)))
    ensures Matches(bot, query)
  {
  }

  const SandboxPath: String := "/sandbox/"
  const EmbedHead: String := "<iframe\n  src=\""
  const EmbedTail: String := "\"" + EmbedRest
  // The attribute text is written in short pieces: long string literals are
  // costly for the verifier.
  const EmbedRest: String :=
    "\n  style=\"border:none; " + "position:fixed; bottom:20px; " + "right:20px; width:400px; "
    + "height:600px; z-index: 9999;\"" + "\n  title=\"Chatbot\">" + "\n</iframe>"

  /** `handleGetCode`'s snippet for a page at `origin`. */
  function EmbedCode(origin: String, botId: String): String {
    EmbedHead + origin + SandboxPath + botId + EmbedTail
  }

  /** The text up to the first `c`. */
  function UpTo(s: String, c: char): (r: String)
    ensures c !in r && |r| <= |s| && r == s[..|r|]
    ensures |r| < |s| ==> s[|r|] == c
  {
    if s == [] || s[0] == c then [] else [s[0]] + UpTo(s[1..], c)
  }

  /** The `src` attribute of a snippet that starts like the one handed out. */
  function SrcOf(code: String): Option<String> {
    if StartsWith(code, EmbedHead) then Some(UpTo(code[|EmbedHead|..], '"')) else None
  }

  lemma {:induction false} UpToQuote(a: String, rest: String)
    requires '"' !in a
    ensures UpTo(a + "\"" + rest, '"') == a
    decreases |a|
  {
    if a != [] {
      assert (a + "\"" + rest)[1..] == a[1..] + "\"" + rest;
      UpToQuote(a[1..], rest);
    }
  }

  lemma NoQuoteIn(a: String, b: String, c: String)
    requires '"' !in a && '"' !in b && '"' !in c
    ensures '"' !in a + b + c
  {
    var s := a + b + c;
    forall i | 0 <= i < |s| ensures s[i] != '"' {
      if i < |a| { assert s[i] == a[i]; }
      else if i < |a| + |b| { assert s[i] == b[i - |a|]; }
      else { assert s[i] == c[i - |a| - |b|]; }
    }
  }

  /** The snippet's `src` is the page origin, `/sandbox/` and the bot id, as
      long as neither contains a double quote. */
  lemma EmbedSource(origin: String, botId: String)
    requires '"' !in origin && '"' !in botId
    ensures SrcOf(EmbedCode(origin, botId)) == Some(origin + SandboxPath + botId)
  {
    var src := origin + SandboxPath + botId;
    NoQuoteIn(origin, SandboxPath, botId);
    AppendAssoc(EmbedHead + origin + SandboxPath, botId, EmbedTail);
    AppendAssoc(EmbedHead + origin, SandboxPath, botId + EmbedTail);
    AppendAssoc(EmbedHead, origin, SandboxPath + (botId + EmbedTail));
    AppendAssoc(origin, SandboxPath, botId + EmbedTail);
    AppendAssoc(origin + SandboxPath, botId, EmbedTail);
    assert EmbedCode(origin, botId) == EmbedHead + (src + EmbedTail);
    SrcAfter(EmbedHead, src, EmbedRest);
  }

  /** Text placed after a head and before a double quote is read back as the
      `src`, when it holds no double quote itself. */
  lemma SrcAfter(head: String, src: String, rest: String)
    requires '"' !in src
    ensures var code := head + (src + ("\"" + rest));
            StartsWith(code, head) && UpTo(code[|head|..], '"') == src
  {
    var code := head + (src + ("\"" + rest));
    assert code[..|head|] == head;
    assert code[|head|..] == src + "\"" + rest;
    UpToQuote(src, rest);
  }
}
