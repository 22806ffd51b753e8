/** Knowledge ingestion from a connected content model: text collection from
    JSON-like entries, sentence chunking, and the import and sync routes. */
module Ingestion {
  import opened Strings
  import opened Js
  import opened Records
  import opened Knowledge

  // ---------------------------------------------------------------------------
  // Text collection
  // ---------------------------------------------------------------------------

  /** A JSON value as the delivery client returns it; `Null` stands for
      `null` and `undefined`, objects keep their keys in `Object.keys` order. */
  datatype Json = Null | Str(s: String) | Num | Bool | Arr(items: seq<Json>) | Obj(fields: seq<(String, Json)>)

  /** System keys skipped when no whitelist is given. */
  const ExcludedKeys: set<String> := {"uid", "created_at", "updated_at", "_version", "locale", "publish_details", "url"}

  /** `shouldIncludeKey`: `fields` is `Some` when the request carried an array. */
  predicate IncludeKey(key: String, fields: Option<seq<String>>) {
    if fields.Some? then key in fields.value else key !in ExcludedKeys
  }

  /** The strings `collectText` pushes for `v`, in push order. */
  function Collected(v: Json, fields: Option<seq<String>>): seq<String>
    decreases v
  {
    match v
    case Str(s) => if Trim(s) != [] then [Trim(s)] else []
    case Arr(items) => CollectedItems(items, fields)
    case Obj(fs) => CollectedMembers(fs, fields, v)
    case _ => []
  }

  /** The strings pushed for the elements of an array, element by element. */
  function CollectedItems(items: seq<Json>, fields: Option<seq<String>>): seq<String>
    decreases items
  {
    if items == [] then [] else Collected(items[0], fields) + CollectedItems(items[1..], fields)
  }

  /** The strings pushed for the included members of an object, in key order. */
  function CollectedMembers(fs: seq<(String, Json)>, fields: Option<seq<String>>, ghost parent: Json): seq<String>
    requires forall m :: m in fs ==> m.1 < parent
    decreases parent, |fs|
  {
    if fs == [] then []
    else (if IncludeKey(fs[0].0, fields) then Collected(fs[0].1, fields) else [])
         + CollectedMembers(fs[1..], fields, parent)
  }

  lemma {:induction false} ItemsSnoc(items: seq<Json>, x: Json, fields: Option<seq<String>>)
    ensures CollectedItems(items + [x], fields) == CollectedItems(items, fields) + Collected(x, fields)
  {
    if items == [] {
      assert items + [x] == [x];
      assert [x][1..] == [];
    } else {
      var head := Collected(items[0], fields);
      assert (items + [x])[0] == items[0];
      assert (items + [x])[1..] == items[1..] + [x];
      assert CollectedItems(items + [x], fields) == head + CollectedItems(items[1..] + [x], fields);
      ItemsSnoc(items[1..], x, fields);
      AppendAssoc(head, CollectedItems(items[1..], fields), Collected(x, fields));
    }
  }

  lemma {:induction false} MembersSnoc(fs: seq<(String, Json)>, m: (String, Json), fields: Option<seq<String>>, parent: Json)
    requires forall n :: n in fs ==> n.1 < parent
    requires m.1 < parent
    ensures CollectedMembers(fs + [m], fields, parent)
         == CollectedMembers(fs, fields, parent) + (if IncludeKey(m.0, fields) then Collected(m.1, fields) else [])
  {
    var tail := if IncludeKey(m.0, fields) then Collected(m.1, fields) else [];
    if fs == [] {
      assert fs + [m] == [m];
      assert CollectedMembers([m], fields, parent) == tail + CollectedMembers([], fields, parent);
      assert tail + [] == [] + tail;
    } else {
      var head := if IncludeKey(fs[0].0, fields) then Collected(fs[0].1, fields) else [];
      assert (fs + [m])[1..] == fs[1..] + [m];
      assert (fs + [m])[0] == fs[0];
      assert forall n :: n in fs + [m] ==> n in fs || n == m;
      MembersSnoc(fs[1..], m, fields, parent);
      assert CollectedMembers(fs + [m], fields, parent) == head + CollectedMembers(fs[1..] + [m], fields, parent);
      assert CollectedMembers(fs, fields, parent) == head + CollectedMembers(fs[1..], fields, parent);
      AppendAssoc(head, CollectedMembers(fs[1..], fields, parent), tail);
    }
  }

  lemma {:induction false} ItemsMember(items: seq<Json>, fields: Option<seq<String>>, t: String)
    ensures t in CollectedItems(items, fields) <==> exists i :: 0 <= i < |items| && t in Collected(items[i], fields)
  {
    if items != [] {
      ItemsMember(items[1..], fields, t);
      if t in CollectedItems(items[1..], fields) {
        var i :| 0 <= i < |items[1..]| && t in Collected(items[1..][i], fields);
        assert t in Collected(items[i + 1], fields);
      }
      forall i | 1 <= i < |items| && t in Collected(items[i], fields)
        ensures t in CollectedItems(items[1..], fields)
      {
        assert items[1..][i - 1] == items[i];
      }
    }
  }

  lemma {:induction false} MembersMember(fs: seq<(String, Json)>, fields: Option<seq<String>>, parent: Json, t: String)
    requires forall m :: m in fs ==> m.1 < parent
    ensures t in CollectedMembers(fs, fields, parent) <==>
              exists i :: 0 <= i < |fs| && IncludeKey(fs[i].0, fields) && t in Collected(fs[i].1, fields)
  {
    if fs != [] {
      MembersMember(fs[1..], fields, parent, t);
      if t in CollectedMembers(fs[1..], fields, parent) {
        var i :| 0 <= i < |fs[1..]| && IncludeKey(fs[1..][i].0, fields) && t in Collected(fs[1..][i].1, fields);
        assert fs[i + 1] == fs[1..][i];
      }
      forall i | 1 <= i < |fs| && IncludeKey(fs[i].0, fields) && t in Collected(fs[i].1, fields)
        ensures t in CollectedMembers(fs[1..], fields, parent)
      {
        assert fs[1..][i - 1] == fs[i];
      }
    }
  }

  /** `collectText(value, out)`: depth-first, pushing every trimmed non-empty
      string reached through included keys. */
  method CollectText(v: Json, fields: Option<seq<String>>, out: seq<String>) returns (out': seq<String>)
    ensures out' == out + Collected(v, fields)
    decreases v, 1
  {
    match v {
      case Str(s) =>
        var t := Trim(s);
        out' := if t != [] then out + [t] else out;
      case Arr(items) =>
        out' := CollectItems(items, fields, out);
      case Obj(fs) =>
        out' := CollectMembers(fs, fields, out, v);
      case _ =>
        out' := out;
    }
  }

  /** The array branch of `collectText`: every element in order. */
  method CollectItems(items: seq<Json>, fields: Option<seq<String>>, out: seq<String>) returns (out': seq<String>)
    ensures out' == out + CollectedItems(items, fields)
    decreases items, 0
  {
    out' := out;
    var i := 0;
    while i < |items|
      invariant 0 <= i <= |items|
      invariant out' == out + CollectedItems(items[..i], fields)
    {
      out' := CollectText(items[i], fields, out');
      ItemsSnoc(items[..i], items[i], fields);
      assert items[..i + 1] == items[..i] + [items[i]];
      i := i + 1;
    }
    assert items[..i] == items;
  }

  /** The object branch of `collectText`: every included member in key order. */
  method CollectMembers(fs: seq<(String, Json)>, fields: Option<seq<String>>, out: seq<String>, ghost parent: Json)
    returns (out': seq<String>)
    requires forall m :: m in fs ==> m.1 < parent
    ensures out' == out + CollectedMembers(fs, fields, parent)
    decreases parent, 0
  {
    out' := out;
    var i := 0;
    while i < |fs|
      invariant 0 <= i <= |fs|
      invariant out' == out + CollectedMembers(fs[..i], fields, parent)
    {
      var m := fs[i];
      assert m in fs;
      PrefixBelow(fs, i, parent);
      PrefixBelow(fs, i + 1, parent);
      assert fs[..i + 1] == fs[..i] + [m];
      MembersSnoc(fs[..i], m, fields, parent);
      if IncludeKey(m.0, fields) {
        out' := CollectText(m.1, fields, out');
      }
      i := i + 1;
    }
    assert fs[..i] == fs;
  }

  /** The members of a prefix are members of the object. */
  lemma PrefixBelow(fs: seq<(String, Json)>, k: nat, parent: Json)
    requires k <= |fs| && forall m :: m in fs ==> m.1 < parent
    ensures forall m :: m in fs[..k] ==> m.1 < parent
  {
    forall m | m in fs[..k] ensures m.1 < parent {
      var j :| 0 <= j < k && fs[..k][j] == m;
      assert fs[j] == m;
    }
  }

  /** A step into a JSON value: an array position or an object member. */
  datatype PathStep = Index(i: nat) | Member(i: nat)

  /** The value at `path`, following only members whose key is included. */
  function At(v: Json, path: seq<PathStep>, fields: Option<seq<String>>): Option<Json>
    decreases |path|
  {
    if path == [] then Some(v)
    else match path[0]
      case Index(i) =>
        if v.Arr? && i < |v.items| then At(v.items[i], path[1..], fields) else None
      case Member(i) =>
        if v.Obj? && i < |v.fields| && IncludeKey(v.fields[i].0, fields)
        then At(v.fields[i].1, path[1..], fields) else None
  }

  /** `t` is the trimmed text of a string reachable through included keys. */
  ghost predicate ReachableText(v: Json, fields: Option<seq<String>>, t: String) {
    t != [] && exists path :: TextAt(v, path, fields) == Some(t)
  }

  /** The trimmed string at `path`, if a string is there. */
  function TextAt(v: Json, path: seq<PathStep>, fields: Option<seq<String>>): Option<String> {
    match At(v, path, fields)
    case Some(Str(s)) => Some(Trim(s))
    case _ => None
  }

  /** What `collectText` gathers is exactly the trimmed, non-empty text of the
      strings reachable through included keys. */
  lemma CollectedIsReachableText(v: Json, fields: Option<seq<String>>, t: String)
    ensures t in Collected(v, fields) <==> ReachableText(v, fields, t)
  {
    if t in Collected(v, fields) {
      CollectedSound(v, fields, t);
    }
    if ReachableText(v, fields, t) {
      var path :| TextAt(v, path, fields) == Some(t);
      CollectedComplete(v, fields, path, t);
    }
  }

  lemma {:induction false} CollectedSound(v: Json, fields: Option<seq<String>>, t: String)
    requires t in Collected(v, fields)
    ensures ReachableText(v, fields, t)
    decreases v
  {
    match v
    case Str(s) =>
      assert TextAt(v, [], fields) == Some(t);
    case Arr(items) =>
      ItemsMember(items, fields, t);
      var i :| 0 <= i < |items| && t in Collected(items[i], fields);
      CollectedSound(items[i], fields, t);
      ReachThroughIndex(v, i, fields, t);
    case Obj(fs) =>
      MembersMember(fs, fields, v, t);
      var i :| 0 <= i < |fs| && IncludeKey(fs[i].0, fields) && t in Collected(fs[i].1, fields);
      assert fs[i] in fs;
      CollectedSound(fs[i].1, fields, t);
      ReachThroughMember(v, i, fields, t);
  }

  lemma AtIndex(v: Json, i: nat, path: seq<PathStep>, fields: Option<seq<String>>)
    requires v.Arr? && i < |v.items|
    ensures At(v, [Index(i)] + path, fields) == At(v.items[i], path, fields)
  {
    assert ([Index(i)] + path)[1..] == path;
  }

  lemma AtMember(v: Json, i: nat, path: seq<PathStep>, fields: Option<seq<String>>)
    requires v.Obj? && i < |v.fields| && IncludeKey(v.fields[i].0, fields)
    ensures At(v, [Member(i)] + path, fields) == At(v.fields[i].1, path, fields)
  {
    assert ([Member(i)] + path)[1..] == path;
  }

  lemma ReachThroughIndex(v: Json, i: nat, fields: Option<seq<String>>, t: String)
    requires v.Arr? && i < |v.items| && ReachableText(v.items[i], fields, t)
    ensures ReachableText(v, fields, t)
  {
    var path :| TextAt(v.items[i], path, fields) == Some(t);
    AtIndex(v, i, path, fields);
    Witness(v, fields, t, [Index(i)] + path);
  }

  lemma ReachThroughMember(v: Json, i: nat, fields: Option<seq<String>>, t: String)
    requires v.Obj? && i < |v.fields| && IncludeKey(v.fields[i].0, fields)
    requires ReachableText(v.fields[i].1, fields, t)
    ensures ReachableText(v, fields, t)
  {
    var path :| TextAt(v.fields[i].1, path, fields) == Some(t);
    AtMember(v, i, path, fields);
    Witness(v, fields, t, [Member(i)] + path);
  }

  /** A path to the text shows that it is reachable. */
  lemma Witness(v: Json, fields: Option<seq<String>>, t: String, path: seq<PathStep>)
    requires t != [] && TextAt(v, path, fields) == Some(t)
    ensures ReachableText(v, fields, t)
  {
  }

  lemma {:induction false} CollectedComplete(v: Json, fields: Option<seq<String>>, path: seq<PathStep>, t: String)
    requires TextAt(v, path, fields) == Some(t) && t != []
    ensures t in Collected(v, fields)
    decreases |path|, 0
  {
    if path == [] {
      CollectedHere(v, fields, t);
    } else {
      AtStep(v, path, fields);
      if path[0].Index? {
        CollectedCompleteIndex(v, path[0].i, fields, path[1..], t);
      } else {
        CollectedCompleteMember(v, path[0].i, fields, path[1..], t);
      }
    }
  }

  /** A value found along a path is found along its tail from the first step. */
  lemma AtStep(v: Json, path: seq<PathStep>, fields: Option<seq<String>>)
    requires path != [] && At(v, path, fields).Some?
    ensures path[0].Index? ==> v.Arr? && path[0].i < |v.items|
                               && At(v, path, fields) == At(v.items[path[0].i], path[1..], fields)
    ensures path[0].Member? ==> v.Obj? && path[0].i < |v.fields| && IncludeKey(v.fields[path[0].i].0, fields)
                                && At(v, path, fields) == At(v.fields[path[0].i].1, path[1..], fields)
  {
  }

  /** The text at the empty path is the value's own trimmed string. */
  lemma CollectedHere(v: Json, fields: Option<seq<String>>, t: String)
    requires TextAt(v, [], fields) == Some(t) && t != []
    ensures t in Collected(v, fields)
  {
    assert At(v, [], fields) == Some(v);
  }

  lemma {:induction false} CollectedCompleteIndex(v: Json, i: nat, fields: Option<seq<String>>, rest: seq<PathStep>, t: String)
    requires v.Arr? && i < |v.items| && TextAt(v.items[i], rest, fields) == Some(t) && t != []
    ensures t in Collected(v, fields)
    decreases |rest|, 1
  {
    CollectedComplete(v.items[i], fields, rest, t);
    CollectThroughIndex(v, i, fields, t);
  }

  lemma {:induction false} CollectedCompleteMember(v: Json, i: nat, fields: Option<seq<String>>, rest: seq<PathStep>, t: String)
    requires v.Obj? && i < |v.fields| && IncludeKey(v.fields[i].0, fields)
    requires TextAt(v.fields[i].1, rest, fields) == Some(t) && t != []
    ensures t in Collected(v, fields)
    decreases |rest|, 1
  {
    CollectedComplete(v.fields[i].1, fields, rest, t);
    CollectThroughMember(v, i, fields, t);
  }

  lemma CollectThroughIndex(v: Json, i: nat, fields: Option<seq<String>>, t: String)
    requires v.Arr? && i < |v.items| && t in Collected(v.items[i], fields)
    ensures t in Collected(v, fields)
  {
    ItemsMember(v.items, fields, t);
  }

  lemma CollectThroughMember(v: Json, i: nat, fields: Option<seq<String>>, t: String)
    requires v.Obj? && i < |v.fields| && IncludeKey(v.fields[i].0, fields)
    requires t in Collected(v.fields[i].1, fields)
    ensures t in Collected(v, fields)
  {
    MembersMember(v.fields, fields, v, t);
  }

  /** Every collected string is trimmed and non-empty. */
  lemma CollectedTrimmed(v: Json, fields: Option<seq<String>>)
    ensures forall t :: t in Collected(v, fields) ==> t != [] && Trimmed(t)
  {
    forall t | t in Collected(v, fields) ensures t != [] && Trimmed(t) {
      CollectedSound(v, fields, t);
      var path :| TextAt(v, path, fields) == Some(t);
    }
  }

  /** With a whitelist, text under any other key is never collected: an
      object none of whose keys is listed contributes nothing, whatever its
      members hold. */
  lemma WhitelistOnly(fs: seq<(String, Json)>, wl: seq<String>)
    requires forall m :: m in fs ==> m.0 !in wl
    ensures Collected(Obj(fs), Some(wl)) == []
  {
    MembersUnlisted(fs, wl, Obj(fs));
  }

  lemma {:induction false} MembersUnlisted(fs: seq<(String, Json)>, wl: seq<String>, parent: Json)
    requires forall m :: m in fs ==> m.1 < parent && m.0 !in wl
    ensures CollectedMembers(fs, Some(wl), parent) == []
    decreases |fs|
  {
    if fs != [] {
      assert fs[0] in fs;
      assert forall m :: m in fs[1..] ==> m in fs;
      MembersUnlisted(fs[1..], wl, parent);
    }
  }

  // ---------------------------------------------------------------------------
  // Chunking
  // ---------------------------------------------------------------------------

  /** Every whitespace character is a plain space and is followed by a
      non-whitespace character, if any. */
  ghost predicate SingleSpaced(s: String) {
    && (forall i :: 0 <= i < |s| && IsSpace(s[i]) ==> s[i] == ' ')
    && (forall i, j :: 0 <= i < j < |s| && j == i + 1 && IsSpace(s[i]) ==> !IsSpace(s[j]))
  }

  /** Text as `splitIntoChunks` works on it: single-spaced and trimmed. */
  ghost predicate Normalized(s: String) {
    Trimmed(s) && SingleSpaced(s)
  }

  /** `replace(/\s+/g, ' ')`: every run of whitespace becomes one space. */
  function Collapse(s: String): (r: String)
    ensures r == [] <==> s == []
    ensures r != [] ==> (IsSpace(r[0]) <==> IsSpace(s[0]))
    decreases |s|
  {
    if s == [] then []
    else if IsSpace(s[0]) then [' '] + Collapse(TrimStart(s))
    else [s[0]] + Collapse(s[1..])
  }

  lemma SingleSpacedCons(c: char, t: String)
    requires SingleSpaced(t)
    requires IsSpace(c) ==> c == ' ' && (t == [] || !IsSpace(t[0]))
    ensures SingleSpaced([c] + t)
  {
    var r := [c] + t;
    forall i | 0 <= i < |r| && IsSpace(r[i]) ensures r[i] == ' ' {
      if i > 0 {
        assert r[i] == t[i - 1];
      }
    }
    forall i, j | 0 <= i < j < |r| && j == i + 1 && IsSpace(r[i]) ensures !IsSpace(r[j]) {
      assert r[j] == t[j - 1];
      if i > 0 {
        assert r[i] == t[i - 1];
      }
    }
  }

  lemma {:induction false} CollapseSingleSpaced(s: String)
    ensures SingleSpaced(Collapse(s))
    decreases |s|
  {
    if s != [] {
      if IsSpace(s[0]) {
        CollapseSingleSpaced(TrimStart(s));
        SingleSpacedCons(' ', Collapse(TrimStart(s)));
      } else {
        CollapseSingleSpaced(s[1..]);
        SingleSpacedCons(s[0], Collapse(s[1..]));
      }
    }
  }

  lemma {:induction false} CollapseAllSpace(s: String)
    ensures AllSpace(Collapse(s)) <==> AllSpace(s)
    decreases |s|
  {
    if s != [] {
      if IsSpace(s[0]) {
        CollapseAllSpace(TrimStart(s));
        AllSpaceTrimStart(s);
        AllSpaceCons(' ', Collapse(TrimStart(s)));
      } else {
        assert s == [s[0]] + s[1..];
        AllSpaceCons(s[0], s[1..]);
        AllSpaceCons(s[0], Collapse(s[1..]));
      }
    }
  }

  lemma SingleSpacedSlice(s: String, a: nat, b: nat)
    requires a <= b <= |s| && SingleSpaced(s)
    ensures SingleSpaced(s[a..b])
  {
    var r := s[a..b];
    forall i | 0 <= i < |r| && IsSpace(r[i]) ensures r[i] == ' ' {
      assert r[i] == s[a + i];
    }
    forall i, j | 0 <= i < j < |r| && j == i + 1 && IsSpace(r[i]) ensures !IsSpace(r[j]) {
      assert r[i] == s[a + i] && r[j] == s[a + j];
    }
  }

  lemma SingleSpacedTrim(s: String)
    requires SingleSpaced(s)
    ensures SingleSpaced(Trim(s))
  {
    var t := TrimStart(s);
    SingleSpacedSlice(s, |s| - |t|, |s|);
    SingleSpacedSlice(t, 0, |TrimEnd(t)|);
  }

  /** `String(text || '').replace(/\s+/g, ' ').trim()` */
  function Normalize(text: String): String {
    Trim(Collapse(text))
  }

  /** Normalized text is single-spaced and trimmed, and empty exactly when the
      input is all whitespace. */
  lemma NormalizeShape(text: String)
    ensures Normalized(Normalize(text))
    ensures Normalize(text) == [] <==> AllSpace(text)
  {
    var c := Collapse(text);
    CollapseSingleSpaced(text);
    CollapseAllSpace(text);
    SingleSpacedTrim(c);
    TrimEmpty(c);
  }

  const SentenceBreak: String := ". "

  /** Gives every piece but the last back the full stop the split consumed. */
  function WithStops(pieces: seq<String>): (r: seq<String>)
    ensures |r| == |pieces|
  {
    if |pieces| <= 1 then pieces else [pieces[0] + "."] + WithStops(pieces[1..])
  }

  lemma {:induction false} WithStopsAt(pieces: seq<String>, k: nat)
    requires k < |pieces|
    ensures WithStops(pieces)[k] == if k < |pieces| - 1 then pieces[k] + "." else pieces[k]
  {
    if |pieces| > 1 && k > 0 {
      WithStopsAt(pieces[1..], k - 1);
    }
  }

  /** `normalized.split(/(?<=\.)\s+/)` on normalized text, where every
      whitespace run is a single space: a break after each full stop that a
      space follows, the full stop staying with its sentence. */
  function Sentences(s: String): seq<String> {
    WithStops(Split(s, SentenceBreak))
  }

  lemma {:induction false} WithStopsJoin(pieces: seq<String>)
    ensures Join(WithStops(pieces), " ") == Join(pieces, SentenceBreak)
  {
    if |pieces| > 1 {
      WithStopsJoin(pieces[1..]);
      assert WithStops(pieces) == [pieces[0] + "."] + WithStops(pieces[1..]);
      assert (pieces[0] + ".") + " " == pieces[0] + SentenceBreak;
    }
  }

  /** Joining the sentences with single spaces gives back the text. */
  lemma SentencesJoin(s: String)
    ensures Join(Sentences(s), " ") == s
  {
    WithStopsJoin(Split(s, SentenceBreak));
    SplitJoin(s, SentenceBreak);
  }

  /** A non-empty piece of normalized text joined with `". "` does not start
      with whitespace. */
  lemma PieceStart(s: String, parts: seq<String>, k: nat)
    requires Normalized(s) && Join(parts, SentenceBreak) == s
    requires k < |parts| && parts[k] != []
    ensures !IsSpace(parts[k][0])
  {
    var p := parts[k];
    if k == 0 {
      JoinHead(parts, SentenceBreak);
      assert s[0] == p[0];
    } else {
      JoinSplitAt(parts, SentenceBreak, k);
      JoinHead(parts[k..], SentenceBreak);
      var j := |Join(parts[..k], SentenceBreak)|;
      assert s[j + 1] == ' ';
      assert s[j + 2] == p[0];
    }
  }

  /** The last piece of non-empty normalized text is non-empty and does not end
      with whitespace. */
  lemma LastPiece(s: String, parts: seq<String>)
    requires Normalized(s) && s != [] && Join(parts, SentenceBreak) == s && |parts| >= 1
    ensures parts[|parts| - 1] != [] && !IsSpace(parts[|parts| - 1][|parts[|parts| - 1]| - 1])
  {
    var n := |parts|;
    var p := parts[n - 1];
    if n == 1 {
      assert p == s;
    } else {
      JoinSplitAt(parts, SentenceBreak, n - 1);
      assert parts[n - 1..] == [p];
      assert s == Join(parts[..n - 1], SentenceBreak) + SentenceBreak + p;
      assert p != [] && s[|s| - 1] == p[|p| - 1];
    }
  }

  /** Every sentence of non-empty normalized text is non-empty and trimmed. */
  lemma SentenceShape(s: String, k: nat)
    requires Normalized(s) && s != [] && k < |Sentences(s)|
    ensures Sentences(s)[k] != [] && Trimmed(Sentences(s)[k])
  {
    var parts := Split(s, SentenceBreak);
    SplitJoin(s, SentenceBreak);
    WithStopsAt(parts, k);
    LastPiece(s, parts);
    if parts[k] != [] {
      PieceStart(s, parts, k);
    }
  }

  /** The chunk still being filled, as a list of zero or one chunks. */
  function Pending(current: String): seq<String> {
    if current == [] then [] else [current]
  }

  /** Joining two non-empty trimmed texts with a space gives trimmed text. */
  lemma SpaceJoinTrimmed(a: String, b: String)
    requires a != [] && b != [] && Trimmed(a) && Trimmed(b)
    ensures Trimmed(a + " " + b)
  {
    var r := a + " " + b;
    assert r[0] == a[0] && r[|r| - 1] == b[|b| - 1];
  }

  /** The closed chunks and the pending one read back as the sentences read so far. */
  ghost predicate JoinsTo(chunks: seq<String>, current: String, read: seq<String>) {
    Join(chunks + Pending(current), " ") == Join(read, " ")
  }

  /** The first sentence starts the first chunk. */
  lemma StartChunk(sentences: seq<String>)
    requires |sentences| > 0 && sentences[0] != []
    ensures JoinsTo([], sentences[0], sentences[..1])
  {
    assert [] + Pending(sentences[0]) == sentences[..1];
  }

  /** Closing the current chunk and starting a new one with the next sentence
      keeps the chunks joining to the sentences read so far. */
  lemma CloseChunk(chunks: seq<String>, current: String, sentences: seq<String>, i: nat)
    requires 0 < i < |sentences| && current != [] && sentences[i] != []
    requires JoinsTo(chunks, current, sentences[..i])
    ensures JoinsTo(chunks + [current], sentences[i], sentences[..i + 1])
  {
    assert chunks + Pending(current) == chunks + [current];
    assert (chunks + [current]) + Pending(sentences[i]) == chunks + [current] + [sentences[i]];
    assert sentences[..i + 1] == sentences[..i] + [sentences[i]];
    JoinSnoc(chunks + [current], sentences[i], " ");
    JoinSnoc(sentences[..i], sentences[i], " ");
  }

  /** Extending the current chunk by a space and the next sentence keeps the
      chunks joining to the sentences read so far. */
  lemma ExtendChunk(chunks: seq<String>, current: String, sentences: seq<String>, i: nat)
    requires 0 < i < |sentences| && current != []
    requires JoinsTo(chunks, current, sentences[..i])
    ensures JoinsTo(chunks, current + " " + sentences[i], sentences[..i + 1])
  {
    var sentence := sentences[i];
    assert chunks + Pending(current) == chunks + [current];
    assert chunks + Pending(current + " " + sentence) == chunks + [current + " " + sentence];
    assert sentences[..i + 1] == sentences[..i] + [sentence];
    JoinSnoc(chunks, current, " ");
    JoinSnoc(chunks, current + " " + sentence, " ");
    JoinSnoc(sentences[..i], sentence, " ");
  }

  /** Closing the last chunk. */
  lemma LastChunk(chunks: seq<String>, current: String, sentences: seq<String>)
    requires JoinsTo(chunks, current, sentences)
    ensures Join(chunks + Pending(current), " ") == Join(sentences, " ")
  {
  }

  /** `(current + ' ' + sentence).trim().length` */
  method CandidateLength(current: String, sentence: String) returns (n: int)
    requires Trimmed(current) && Trimmed(sentence) && sentence != []
    ensures n == if current == [] then |sentence| else |current| + 1 + |sentence|
  {
    var t := Trim(current + " " + sentence);
    if current == [] {
      assert current + " " + sentence == [' '] + sentence;
      TrimLeadingSpace(sentence);
    } else {
      SpaceJoinTrimmed(current, sentence);
      TrimOfTrimmed(current + " " + sentence);
    }
    n := |t|;
  }

  /** `current.trim()` on a chunk that is already trimmed. */
  method TrimChunk(current: String) returns (t: String)
    requires Trimmed(current)
    ensures t == current
  {
    t := Trim(current);
    TrimOfTrimmed(current);
  }

  /** Every chunk is non-empty and trimmed, and only a single sentence may be
      longer than `chunkChars`. */
  ghost predicate ChunksFit(chunks: seq<String>, sentences: seq<String>, chunkChars: int) {
    forall k :: 0 <= k < |chunks| ==>
      && chunks[k] != [] && Trimmed(chunks[k])
      && (|chunks[k]| > chunkChars ==> chunks[k] in sentences)
  }

  lemma ChunksFitSnoc(chunks: seq<String>, c: String, sentences: seq<String>, chunkChars: int)
    requires ChunksFit(chunks, sentences, chunkChars)
    requires c != [] && Trimmed(c) && (|c| > chunkChars ==> c in sentences)
    ensures ChunksFit(chunks + [c], sentences, chunkChars)
  {
    assert forall k :: 0 <= k < |chunks| ==> (chunks + [c])[k] == chunks[k];
  }

  /** The closed chunks and the chunk being filled after the first `i`
      sentences of the greedy loop. The first sentence always starts a chunk;
      a later one starts a new chunk when joining it with a space would make
      the current chunk longer than `chunkChars`. */
  function PackState(sentences: seq<String>, chunkChars: int, i: nat): (seq<String>, String)
    requires i <= |sentences|
  {
    if i == 0 then ([], [])
    else
      var (chunks, current) := PackState(sentences, chunkChars, i - 1);
      var sentence := sentences[i - 1];
      if current == [] then (chunks, sentence)
      else if |current| + 1 + |sentence| > chunkChars then (chunks + [current], sentence)
      else (chunks, current + " " + sentence)
  }

  /** The chunks of the greedy loop: the closed ones and then the last one. */
  function Pack(sentences: seq<String>, chunkChars: int): seq<String> {
    var (chunks, current) := PackState(sentences, chunkChars, |sentences|);
    chunks + Pending(current)
  }

  /** The greedy loop of `splitIntoChunks` over given sentences: a new chunk
      starts whenever the next sentence would make the current one longer
      than `chunkChars`. */
  method PackSentences(sentences: seq<String>, chunkChars: int) returns (chunks: seq<String>)
    requires forall k :: 0 <= k < |sentences| ==> sentences[k] != [] && Trimmed(sentences[k])
    ensures ChunksFit(chunks, sentences, chunkChars)
    ensures Join(chunks, " ") == Join(sentences, " ")
    ensures chunks == Pack(sentences, chunkChars)
  {
    chunks := [];
    var current: String := [];
    var i := 0;
    while i < |sentences|
      invariant 0 <= i <= |sentences|
      invariant i == 0 ==> chunks == [] && current == []
      invariant i > 0 ==> current != []
      invariant Trimmed(current)
      invariant current != [] && |current| > chunkChars ==> current in sentences
      invariant ChunksFit(chunks, sentences, chunkChars)
      invariant i > 0 ==> JoinsTo(chunks, current, sentences[..i])
      invariant PackState(sentences, chunkChars, i) == (chunks, current)
    {
      var sentence := sentences[i];
      var candidate := CandidateLength(current, sentence);
      if current == [] {
        StartChunk(sentences);
        current := sentence;
      } else if candidate > chunkChars {
        CloseChunk(chunks, current, sentences, i);
        var closed := TrimChunk(current);
        ChunksFitSnoc(chunks, closed, sentences, chunkChars);
        chunks := chunks + [closed];
        current := sentence;
      } else {
        SpaceJoinTrimmed(current, sentence);
        ExtendChunk(chunks, current, sentences, i);
        current := current + " " + sentence;
      }
      i := i + 1;
    }
    if i > 0 {
      assert sentences[..i] == sentences;
      LastChunk(chunks, current, sentences);
      assert chunks + Pending(current) == chunks + [current];
      var closed := TrimChunk(current);
      ChunksFitSnoc(chunks, closed, sentences, chunkChars);
      chunks := chunks + [closed];
    }
  }

  /** The chunks read back as the normalized text, and a chunk over the size
      limit is one whole sentence of it. */
  ghost predicate ChunkingOf(chunks: seq<String>, text: String, chunkChars: int) {
    && Join(chunks, " ") == Normalize(text)
    && (forall c :: c in chunks && |c| > chunkChars ==> c in Sentences(Normalize(text)))
  }

  /** The chunks `splitIntoChunks` returns for a text. */
  function Chunks(text: String, chunkChars: int): seq<String> {
    var normalized := Normalize(text);
    if normalized == [] then [] else Pack(Sentences(normalized), chunkChars)
  }

  /** `splitIntoChunks(text)`: normalizes the text, splits it into sentences
      and packs them greedily into chunks of at most `chunkChars` characters,
      where only a single sentence may be longer. */
  method SplitIntoChunks(text: String, chunkChars: int) returns (chunks: seq<String>)
    ensures AllSpace(text) ==> chunks == []
    ensures forall c :: c in chunks ==> c != [] && Trimmed(c)
    ensures ChunkingOf(chunks, text, chunkChars)
    ensures chunks == Chunks(text, chunkChars)
  {
    var normalized := Normalize(text);
    NormalizeShape(text);
    if normalized == [] {
      return [];
    }
    var sentences := Sentences(normalized);
    forall k | 0 <= k < |sentences| ensures sentences[k] != [] && Trimmed(sentences[k]) {
      SentenceShape(normalized, k);
    }
    chunks := PackSentences(sentences, chunkChars);
    SentencesJoin(normalized);
    assert forall c :: c in chunks ==> exists k :: 0 <= k < |chunks| && chunks[k] == c;
  }

  // ---------------------------------------------------------------------------
  // Entries created from chunks
  // ---------------------------------------------------------------------------

  /** Chunks shorter than this are skipped. */
  const MinChunkLength := 40

  /** The chunks that become entries, in order. */
  function LongChunks(chunks: seq<String>): seq<String> {
    if chunks == [] then []
    else (if |chunks[0]| >= MinChunkLength then [chunks[0]] else []) + LongChunks(chunks[1..])
  }

  /** `value[key]` on an object: the first member with that key. */
  function Lookup(fs: seq<(String, Json)>, key: String): (r: Option<Json>)
    ensures r.Some? ==> exists i :: 0 <= i < |fs| && fs[i] == (key, r.value)
    ensures r.None? ==> forall i :: 0 <= i < |fs| ==> fs[i].0 != key
  {
    if fs == [] then None
    else if fs[0].0 == key then Some(fs[0].1)
    else Lookup(fs[1..], key)
  }

  /** `textParts` before `collectText`: the raw value of `titleField` when the
      option is set and the entry holds a non-empty string there. */
  function TitlePart(entry: Json, titleField: Option<String>): seq<String> {
    if Truthy(titleField) && entry.Obj? then
      match Lookup(entry.fields, titleField.value)
      case Some(Str(s)) => if s != [] then [s] else []
      case _ => []
    else []
  }

  /** `textParts.join('\n')` for one delivery entry. */
  function EntryText(entry: Json, titleField: Option<String>, fields: Option<seq<String>>): String {
    Join(TitlePart(entry, titleField) + Collected(entry, fields), "\n")
  }

  /** The `customknowledge` entry created for a chunk. */
  function ChunkEntry(uid: String, chunk: String, botId: String): KnowledgeEntry {
    KnowledgeEntry(uid, chunk, None, None, botId)
  }

  /** One entry per chunk, in order, the k-th minted as the `count + k`-th
      entry of the route. */
  function Minted(chunks: seq<String>, botId: String, mint: nat -> String, count: nat): (r: seq<KnowledgeEntry>)
    ensures |r| == |chunks|
    ensures forall k :: 0 <= k < |r| ==> r[k] == ChunkEntry(mint(count + k), chunks[k], botId)
    decreases |chunks|
  {
    if chunks == [] then []
    else
      var rest := Minted(chunks[1..], botId, mint, count + 1);
      assert forall k :: 1 <= k < |chunks| ==> chunks[1..][k - 1] == chunks[k] && count + 1 + (k - 1) == count + k;
      [ChunkEntry(mint(count), chunks[0], botId)] + rest
  }

  /** Numbering entries in two runs numbers the second run after the first. */
  lemma MintedAppend(a: seq<String>, b: seq<String>, botId: String, mint: nat -> String, count: nat)
    ensures Minted(a + b, botId, mint, count) == Minted(a, botId, mint, count) + Minted(b, botId, mint, count + |a|)
  {
    var l := Minted(a + b, botId, mint, count);
    var r := Minted(a, botId, mint, count) + Minted(b, botId, mint, count + |a|);
    forall k | 0 <= k < |l| ensures l[k] == r[k] {
      if k >= |a| {
        assert (a + b)[k] == b[k - |a|];
      }
    }
  }

  /** One turn of a loop that numbers `chunks` after `before`: the entries of
      the first run are appended, and the rest are numbered after them. */
  lemma MintedStep(before: seq<KnowledgeEntry>, created: seq<KnowledgeEntry>, first: seq<String>, rest: seq<String>,
                   total: seq<KnowledgeEntry>, botId: String, mint: nat -> String)
    requires before + Minted(first + rest, botId, mint, |before|) == total
    requires created == before + Minted(first, botId, mint, |before|)
    ensures created + Minted(rest, botId, mint, |created|) == total
  {
    MintedAppend(first, rest, botId, mint, |before|);
    AppendAssoc(before, Minted(first, botId, mint, |before|), Minted(rest, botId, mint, |created|));
  }

  /** The chunks of one delivery entry that become knowledge entries. */
  function EntryChunks(entry: Json, titleField: Option<String>, fields: Option<seq<String>>, chunkChars: int): seq<String> {
    LongChunks(Chunks(EntryText(entry, titleField, fields), chunkChars))
  }

  /** The chunks that become entries for `items[i..]`, item after item. */
  function ChunksFrom(items: seq<Json>, i: nat, titleField: Option<String>, fields: Option<seq<String>>,
                      chunkChars: int): seq<String>
    requires i <= |items|
    decreases |items| - i
  {
    if i == |items| then []
    else EntryChunks(items[i], titleField, fields, chunkChars) + ChunksFrom(items, i + 1, titleField, fields, chunkChars)
  }

  lemma ChunksFromStep(items: seq<Json>, i: nat, titleField: Option<String>, fields: Option<seq<String>>, chunkChars: int)
    requires i < |items|
    ensures ChunksFrom(items, i, titleField, fields, chunkChars)
            == EntryChunks(items[i], titleField, fields, chunkChars) + ChunksFrom(items, i + 1, titleField, fields, chunkChars)
  {
  }

  /** The entries the per-entry loop of the import and sync routes creates for
      `items`: one per long chunk of each item, item after item, the n-th
      minted as `mint(n)`. */
  function ImportedEntries(items: seq<Json>, titleField: Option<String>, fields: Option<seq<String>>, chunkChars: int,
                           botId: String, mint: nat -> String): seq<KnowledgeEntry> {
    Minted(ChunksFrom(items, 0, titleField, fields, chunkChars), botId, mint, 0)
  }

  /** `created` holds one entry per long chunk, in order, the k-th minted as
      the `count + k`-th entry of the route. */
  ghost predicate EntriesFor(created: seq<KnowledgeEntry>, chunks: seq<String>, botId: String, mint: nat -> String, count: nat) {
    && |created| == |LongChunks(chunks)|
    && forall k :: 0 <= k < |created| ==> created[k] == ChunkEntry(mint(count + k), LongChunks(chunks)[k], botId)
  }

  /** The inner loop of the import and sync routes: one entry per chunk of at
      least `MinChunkLength` characters. The n-th entry created by a route
      gets the uid `mint(n)`; `count` entries were created before these. */
  method CreateEntries(chunks: seq<String>, botId: String, mint: nat -> String, count: nat)
    returns (created: seq<KnowledgeEntry>)
    ensures EntriesFor(created, chunks, botId, mint, count)
    ensures created == Minted(LongChunks(chunks), botId, mint, count)
  {
    created := [];
    var kept: seq<String> := [];
    var i := 0;
    while i < |chunks|
      invariant 0 <= i <= |chunks|
      invariant kept == LongChunks(chunks[..i])
      invariant |created| == |kept|
      invariant forall k :: 0 <= k < |created| ==> created[k] == ChunkEntry(mint(count + k), kept[k], botId)
    {
      LongChunksSnoc(chunks[..i], chunks[i]);
      assert chunks[..i + 1] == chunks[..i] + [chunks[i]];
      var chunk := chunks[i];
      if chunk != [] && |chunk| >= MinChunkLength {
        created := created + [ChunkEntry(mint(count + |created|), chunk, botId)];
        kept := kept + [chunk];
      }
      i := i + 1;
    }
    assert chunks[..i] == chunks;
  }

  /** The body of the per-entry loop of the import and sync routes: collect the
      entry's text, chunk it, and create the entries for its chunks. */
  method ImportEntry(entry: Json, titleField: Option<String>, fields: Option<seq<String>>, chunkChars: int,
                     botId: String, mint: nat -> String, count: nat)
    returns (chunks: seq<String>, created: seq<KnowledgeEntry>)
    ensures forall c :: c in chunks ==> c != [] && Trimmed(c)
    ensures ChunkingOf(chunks, EntryText(entry, titleField, fields), chunkChars)
    ensures EntriesFor(created, chunks, botId, mint, count)
    ensures chunks == Chunks(EntryText(entry, titleField, fields), chunkChars)
    ensures created == Minted(EntryChunks(entry, titleField, fields, chunkChars), botId, mint, count)
  {
    var parts := CollectText(entry, fields, TitlePart(entry, titleField));
    var combined := Join(parts, "\n");
    chunks := SplitIntoChunks(combined, chunkChars);
    created := CreateEntries(chunks, botId, mint, count);
  }

  /** A chunk becomes an entry if and only if it is long enough. */
  lemma {:induction false} LongChunksExact(chunks: seq<String>, c: String)
    ensures c in LongChunks(chunks) <==> c in chunks && |c| >= MinChunkLength
  {
    if chunks != [] {
      LongChunksExact(chunks[1..], c);
      assert chunks == [chunks[0]] + chunks[1..];
    }
  }

  lemma {:induction false} LongChunksSnoc(chunks: seq<String>, c: String)
    ensures LongChunks(chunks + [c]) == LongChunks(chunks) + (if |c| >= MinChunkLength then [c] else [])
  {
    if chunks == [] {
      assert chunks + [c] == [c];
    } else {
      assert (chunks + [c])[1..] == chunks[1..] + [c];
      LongChunksSnoc(chunks[1..], c);
    }
  }

  // ---------------------------------------------------------------------------
  // Import and sync routes
  // ---------------------------------------------------------------------------

  /** `connected_model` as the import request carries it. */
  datatype Connection = Connection(
    stackApiKey: Option<String>,
    deliveryToken: Option<String>,
    environment: Option<String>,
    modelUid: Option<String>)

  /** The import request body after its defaults (`deleteOld = true`,
      `maxEntries = 20`, `chunkChars = 900`, `fields = null`,
      `titleField = null`) are applied. `maxEntries` is `Some(n)` when it is
      an integer and `None` for any other value; `fields` is `Some` when it is
      an array. */
  datatype ImportRequest = ImportRequest(
    connection: Option<Connection>,
    deleteOld: bool,
    maxEntries: Option<int>,
    fields: Option<seq<String>>,
    chunkChars: int,
    titleField: Option<String>)

  datatype RouteOutcome =
    | BadRequest(error: String)
    | NothingToSync
    | Imported(count: nat)

  const MissingConnection: String :=
    "connected_model with stack_api_key, delivery_token, environment, and model_uid is required."
  const NoPublishedEntries: String := "No published entries found in the selected model."
  const NotConnected: String := "Bot is not connected to an external model. Save connection first."

  predicate ConnectionComplete(c: Option<Connection>) {
    c.Some? && Truthy(c.value.stackApiKey) && Truthy(c.value.deliveryToken)
    && Truthy(c.value.environment) && Truthy(c.value.modelUid)
  }

  /** The delivery query with `query.limit(maxEntries)` applied when
      `maxEntries` is a non-zero integer; a positive limit keeps that many
      entries at most. */
  function Limited(published: seq<Json>, maxEntries: Option<int>): (r: seq<Json>)
    ensures |r| <= |published| && r == published[..|r|]
    ensures maxEntries.Some? && maxEntries.value > 0 ==> |r| == if maxEntries.value < |published| then maxEntries.value else |published|
  {
    if maxEntries.Some? && maxEntries.value > 0 && maxEntries.value < |published|
    then published[..maxEntries.value] else published
  }

  /** The entries of one bot. */
  predicate OwnedBy(e: KnowledgeEntry, botId: String) {
    e.botRef == botId
  }

  /** The repository after deleting every entry of the bot. */
  function WithoutBot(store: seq<KnowledgeEntry>, botId: String): (r: seq<KnowledgeEntry>)
    ensures forall e :: e in r <==> e in store && !OwnedBy(e, botId)
  {
    if store == [] then []
    else (if OwnedBy(store[0], botId) then [] else [store[0]]) + WithoutBot(store[1..], botId)
  }

  /** The shape shared by every entry an import or sync creates. */
  ghost predicate CreatedFromChunks(created: seq<KnowledgeEntry>, botId: String, mint: nat -> String) {
    forall k :: 0 <= k < |created| ==>
      && created[k].uid == mint(k)
      && created[k].botRef == botId
      && created[k].sourceId.None? && created[k].sourceName.None?
      && |created[k].sourceText| >= MinChunkLength
      && Trimmed(created[k].sourceText)
  }

  lemma CreatedAppend(created: seq<KnowledgeEntry>, chunks: seq<String>, more: seq<KnowledgeEntry>,
                      botId: String, mint: nat -> String)
    requires CreatedFromChunks(created, botId, mint)
    requires forall c :: c in chunks ==> c != [] && Trimmed(c)
    requires EntriesFor(more, chunks, botId, mint, |created|)
    ensures CreatedFromChunks(created + more, botId, mint)
  {
    var all := created + more;
    forall k | 0 <= k < |all|
      ensures all[k].uid == mint(k) && all[k].botRef == botId
      ensures all[k].sourceId.None? && all[k].sourceName.None?
      ensures |all[k].sourceText| >= MinChunkLength && Trimmed(all[k].sourceText)
    {
      if k >= |created| {
        var c := LongChunks(chunks)[k - |created|];
        assert all[k] == more[k - |created|];
        LongChunksExact(chunks, c);
      } else {
        assert all[k] == created[k];
      }
    }
  }

  /** The loop over `items` has done its first `i` turns: the entries created
      so far, followed by those of the remaining items, are the entries of all
      the items. */
  ghost predicate ImportedSoFar(items: seq<Json>, i: nat, created: seq<KnowledgeEntry>, titleField: Option<String>,
                                fields: Option<seq<String>>, chunkChars: int, botId: String, mint: nat -> String) {
    && i <= |items|
    && created + Minted(ChunksFrom(items, i, titleField, fields, chunkChars), botId, mint, |created|)
       == ImportedEntries(items, titleField, fields, chunkChars, botId, mint)
  }

  /** One turn of the per-entry loop: the entries created for `items[i]` are
      appended to those created so far. */
  method ImportNext(items: seq<Json>, i: nat, created: seq<KnowledgeEntry>, titleField: Option<String>,
                    fields: Option<seq<String>>, chunkChars: int, botId: String, mint: nat -> String)
    returns (created': seq<KnowledgeEntry>)
    requires i < |items|
    requires CreatedFromChunks(created, botId, mint)
    requires ImportedSoFar(items, i, created, titleField, fields, chunkChars, botId, mint)
    ensures CreatedFromChunks(created', botId, mint)
    ensures created' == created + Minted(EntryChunks(items[i], titleField, fields, chunkChars), botId, mint, |created|)
    ensures ImportedSoFar(items, i + 1, created', titleField, fields, chunkChars, botId, mint)
  {
    var chunks, more := ImportEntry(items[i], titleField, fields, chunkChars, botId, mint, |created|);
    CreatedAppend(created, chunks, more, botId, mint);
    created' := created + more;
    ChunksFromStep(items, i, titleField, fields, chunkChars);
    MintedStep(created, created', EntryChunks(items[i], titleField, fields, chunkChars),
               ChunksFrom(items, i + 1, titleField, fields, chunkChars),
               ImportedEntries(items, titleField, fields, chunkChars, botId, mint), botId, mint);
  }

  /** The per-entry loop of both routes. */
  method ImportItems(items: seq<Json>, titleField: Option<String>, fields: Option<seq<String>>, chunkChars: int,
                     botId: String, mint: nat -> String)
    returns (created: seq<KnowledgeEntry>)
    ensures CreatedFromChunks(created, botId, mint)
    ensures created == ImportedEntries(items, titleField, fields, chunkChars, botId, mint)
  {
    created := [];
    var i := 0;
    while i < |items|
      invariant 0 <= i <= |items|
      invariant CreatedFromChunks(created, botId, mint)
      invariant ImportedSoFar(items, i, created, titleField, fields, chunkChars, botId, mint)
    {
      created := ImportNext(items, i, created, titleField, fields, chunkChars, botId, mint);
      i := i + 1;
    }
  }

  /** `POST /api/bots/:botId/import-model-entries`: validates the connection,
      optionally deletes the bot's knowledge, fetches the published entries
      (`published`, in delivery order), creates entries from their chunks and
      stamps the bot. The created entries are not added to the bot's active
      knowledge sources. */
  method ImportModelEntries(store: seq<KnowledgeEntry>, bot: BotConfig, req: ImportRequest,
                            published: seq<Json>, mint: nat -> String, now: Stamp)
    returns (outcome: RouteOutcome, store': seq<KnowledgeEntry>, bot': BotConfig)
    ensures !ConnectionComplete(req.connection) ==>
              outcome == BadRequest(MissingConnection) && store' == store && bot' == bot
    ensures ConnectionComplete(req.connection) ==>
              var kept := if req.deleteOld then WithoutBot(store, bot.uid) else store;
              if Limited(published, req.maxEntries) == [] then
                outcome == BadRequest(NoPublishedEntries) && store' == kept && bot' == bot
              else
                var created := ImportedEntries(Limited(published, req.maxEntries), req.titleField,
                                               req.fields, req.chunkChars, bot.uid, mint);
                && store' == kept + created
                && CreatedFromChunks(created, bot.uid, mint)
                && outcome == Imported(|created|)
                && bot' == bot.(lastTrainedAt := Some(now))
  {
    if !ConnectionComplete(req.connection) {
      return BadRequest(MissingConnection), store, bot;
    }
    store' := store;
    if req.deleteOld {
      store' := WithoutBot(store, bot.uid);
    }
    var items := Limited(published, req.maxEntries);
    if |items| == 0 {
      return BadRequest(NoPublishedEntries), store', bot;
    }
    var created := ImportItems(items, req.titleField, req.fields, req.chunkChars, bot.uid, mint);
    store' := store' + created;
    outcome := Imported(|created|);
    bot' := bot.(lastTrainedAt := Some(now));
  }

  /** Importing never changes what a chat turn reads: the new entries are not
      referenced by the bot, so the knowledge blob is the one of the repository
      that was kept. */
  lemma ImportLeavesBlob(refs: Option<seq<KnowledgeRef>>, kept: seq<KnowledgeEntry>,
                         created: seq<KnowledgeEntry>, botId: String, mint: nat -> String)
    requires CreatedFromChunks(created, botId, mint)
    requires forall k :: 0 <= k < |created| ==> Some(mint(k)) !in ActiveUids(refs)
    ensures KnowledgeBlob(refs, kept + created) == KnowledgeBlob(refs, kept)
  {
    var uids := ActiveUids(refs);
    QueryInOrder(kept, created, uids);
    forall e | e in created ensures Some(e.uid) !in uids {
      var k :| 0 <= k < |created| && created[k] == e;
    }
    QueryInUnlisted(created, uids);
    assert QueryIn(kept + created, uids) == QueryIn(kept, uids);
  }

  /** The value under a key path when it is a string; other values count as
      missing. */
  function StringAt(v: Json, path: seq<String>): Option<String>
    decreases |path|
  {
    if path == [] then (if v.Str? then Some(v.s) else None)
    else if v.Obj? then
      match Lookup(v.fields, path[0])
      case Some(child) => StringAt(child, path[1..])
      case None => None
    else None
  }

  /** `getEntryTimestamp`: the first non-empty of `publish_details.time`,
      `publish_details.published_at`, `updated_at` and `created_at`, parsed
      with `parse` (`new Date`). */
  function EntryTimestamp(entry: Json, parse: String -> Stamp): (r: Option<Stamp>)
    ensures r.None? <==> !Truthy(StringAt(entry, ["publish_details", "time"]))
                         && !Truthy(StringAt(entry, ["publish_details", "published_at"]))
                         && !Truthy(StringAt(entry, ["updated_at"]))
                         && !Truthy(StringAt(entry, ["created_at"]))
  {
    var ts := OrElse(OrElse(OrElse(StringAt(entry, ["publish_details", "time"]),
                                   StringAt(entry, ["publish_details", "published_at"])),
                            StringAt(entry, ["updated_at"])),
                     StringAt(entry, ["created_at"]));
    if Truthy(ts) then Some(parse(ts.value)) else None
  }

  /** `a || b` on optional strings. */
  function OrElse(a: Option<String>, b: Option<String>): (r: Option<String>)
    ensures Truthy(r) <==> Truthy(a) || Truthy(b)
    ensures Truthy(a) ==> r == a
  {
    if Truthy(a) then a else b
  }

  /** `ts > lastDate` on dates: false whenever either is an Invalid Date. */
  predicate Later(ts: Stamp, last: Stamp) {
    ts.At? && last.At? && ts.millis > last.millis
  }

  /** The filter predicate: keep everything when the bot was never trained,
      otherwise entries without a timestamp and entries stamped later than the
      last training. */
  predicate IsCandidate(entry: Json, lastDate: Option<Stamp>, parse: String -> Stamp) {
    lastDate.None? || EntryTimestamp(entry, parse).None? || Later(EntryTimestamp(entry, parse).value, lastDate.value)
  }

  /** The sync candidates, in delivery order. */
  function SyncCandidates(items: seq<Json>, lastDate: Option<Stamp>, parse: String -> Stamp): seq<Json> {
    if lastDate.None? then items
    else if items == [] then []
    else Kept(items[0], lastDate, parse) + SyncCandidates(items[1..], lastDate, parse)
  }

  /** One entry as the filter passes it on: itself or nothing. */
  function Kept(entry: Json, lastDate: Option<Stamp>, parse: String -> Stamp): seq<Json> {
    if IsCandidate(entry, lastDate, parse) then [entry] else []
  }

  /** An entry is a candidate if and only if it was fetched and passes the
      filter. */
  lemma {:induction false} SyncCandidatesExact(items: seq<Json>, lastDate: Option<Stamp>, parse: String -> Stamp, e: Json)
    ensures e in SyncCandidates(items, lastDate, parse) <==> e in items && IsCandidate(e, lastDate, parse)
  {
    if lastDate.Some? && items != [] {
      SyncCandidatesExact(items[1..], lastDate, parse, e);
      assert items == [items[0]] + items[1..];
    }
  }

  /** The filter keeps the delivery order. */
  lemma {:induction false} SyncCandidatesOrder(a: seq<Json>, b: seq<Json>, lastDate: Option<Stamp>, parse: String -> Stamp)
    ensures SyncCandidates(a + b, lastDate, parse) == SyncCandidates(a, lastDate, parse) + SyncCandidates(b, lastDate, parse)
  {
    if lastDate.Some? {
      if a == [] {
        assert a + b == b;
      } else {
        var head := Kept(a[0], lastDate, parse);
        assert (a + b)[0] == a[0];
        assert (a + b)[1..] == a[1..] + b;
        assert SyncCandidates(a + b, lastDate, parse) == head + SyncCandidates(a[1..] + b, lastDate, parse);
        SyncCandidatesOrder(a[1..], b, lastDate, parse);
        var rest := SyncCandidates(a[1..], lastDate, parse);
        assert head + (rest + SyncCandidates(b, lastDate, parse)) == (head + rest) + SyncCandidates(b, lastDate, parse);
      }
    }
  }

  /** With an unparseable last-training date only entries without any
      timestamp are synced. */
  lemma InvalidLastDate(items: seq<Json>, parse: String -> Stamp, e: Json)
    ensures e in SyncCandidates(items, Some(Unparseable), parse) <==> e in items && EntryTimestamp(e, parse).None?
  {
    SyncCandidatesExact(items, Some(Unparseable), parse, e);
  }

  /** At most this many entries are fetched by a sync. */
  const SyncFetchLimit := 100

  /** `POST /api/bots/:botId/sync-new-model-entries`: needs the connection
      saved on the bot, fetches at most `SyncFetchLimit` published entries,
      keeps the candidates, creates entries from their chunks (no title field,
      no whitelist, 900 characters per chunk) and stamps the bot. */
  method SyncNewEntries(store: seq<KnowledgeEntry>, bot: BotConfig, published: seq<Json>,
                        parse: String -> Stamp, mint: nat -> String, now: Stamp)
    returns (outcome: RouteOutcome, store': seq<KnowledgeEntry>, bot': BotConfig)
    ensures var connected := Truthy(bot.connectedStackApiKey) && Truthy(bot.connectedStackDeliveryToken)
                             && Truthy(bot.connectedStackEnvironment) && Truthy(bot.connectedModelUid);
            var fetched := if |published| <= SyncFetchLimit then published else published[..SyncFetchLimit];
            if !connected then
              outcome == BadRequest(NotConnected) && store' == store && bot' == bot
            else if SyncCandidates(fetched, bot.lastTrainedAt, parse) == [] then
              outcome == NothingToSync && store' == store && bot' == bot
            else
              var created := ImportedEntries(SyncCandidates(fetched, bot.lastTrainedAt, parse),
                                             None, None, 900, bot.uid, mint);
              && store' == store + created
              && CreatedFromChunks(created, bot.uid, mint)
              && outcome == Imported(|created|)
              && bot' == bot.(lastTrainedAt := Some(now))
  {
    if !(Truthy(bot.connectedStackApiKey) && Truthy(bot.connectedStackDeliveryToken)
         && Truthy(bot.connectedStackEnvironment) && Truthy(bot.connectedModelUid)) {
      return BadRequest(NotConnected), store, bot;
    }
    var items := if |published| <= SyncFetchLimit then published else published[..SyncFetchLimit];
    var candidates := SyncCandidates(items, bot.lastTrainedAt, parse);
    if |candidates| == 0 {
      return NothingToSync, store, bot;
    }
    var created := ImportItems(candidates, None, None, 900, bot.uid, mint);
    store' := store + created;
    outcome := Imported(|created|);
    bot' := bot.(lastTrainedAt := Some(now));
  }
}
