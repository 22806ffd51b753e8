/** String helpers shared by the backend and the dashboard: the parts of the
    JavaScript string library that the modelled code calls (`trim`, `split`,
    `join`, `includes`, `startsWith`, `toLowerCase`, `toUpperCase`).
    Whitespace is the full ECMAScript set; letter case is ASCII only. */
module Strings {

  type String = seq<char>

  /** JavaScript `\s`, the characters `trim` removes: the WhiteSpace and
      LineTerminator code points of ECMAScript (tab, line feed, vertical tab,
      form feed, carriage return, space, no-break space, the Unicode space
      separators, the line and paragraph separators and the byte-order mark). */
  predicate IsSpace(c: char) {
    var n := c as int;
    n == 0x20 || 9 <= n <= 13 || n == 0xA0 || n == 0x1680
    || 0x2000 <= n <= 0x200A || n == 0x2028 || n == 0x2029
    || n == 0x202F || n == 0x205F || n == 0x3000 || n == 0xFEFF
  }

  predicate AllSpace(s: String) {
    forall i :: 0 <= i < |s| ==> IsSpace(s[i])
  }

  lemma AllSpaceCons(c: char, t: String)
    ensures AllSpace([c] + t) <==> IsSpace(c) && AllSpace(t)
  {
    if IsSpace(c) && AllSpace(t) {
      assert forall i :: 1 <= i < |[c] + t| ==> ([c] + t)[i] == t[i - 1];
    }
    if AllSpace([c] + t) {
      assert ([c] + t)[0] == c;
      assert forall i :: 0 <= i < |t| ==> t[i] == ([c] + t)[i + 1];
    }
  }

  lemma AllSpaceAppend(a: String, b: String)
    ensures AllSpace(a + b) <==> AllSpace(a) && AllSpace(b)
  {
    if AllSpace(a + b) {
      assert forall i :: 0 <= i < |a| ==> a[i] == (a + b)[i];
      assert forall i :: 0 <= i < |b| ==> b[i] == (a + b)[|a| + i];
    }
  }

  /** Leading whitespace does not change whether a string is blank. */
  lemma AllSpaceTrimStart(s: String)
    ensures AllSpace(s) <==> AllSpace(TrimStart(s))
  {
    var rest := TrimStart(s);
    assert s[..|s| - |rest|] + rest == s;
    AllSpaceAppend(s[..|s| - |rest|], rest);
  }

  /** No whitespace at either end. */
  predicate Trimmed(s: String) {
    s == [] || (!IsSpace(s[0]) && !IsSpace(s[|s| - 1]))
  }

  function TrimStart(s: String): (r: String)
    ensures |r| <= |s| && r == s[|s| - |r|..]
    ensures AllSpace(s[..|s| - |r|])
    ensures r == [] || !IsSpace(r[0])
  {
    if s != [] && IsSpace(s[0]) then
      var r := TrimStart(s[1..]);
      var spaces := s[1..][..|s| - 1 - |r|];
      assert s[..|s| - |r|] == [s[0]] + spaces;
      AllSpaceCons(s[0], spaces);
      r
    else s
  }

  function TrimEnd(s: String): (r: String)
    ensures |r| <= |s| && r == s[..|r|]
    ensures AllSpace(s[|r|..])
    ensures r == [] || !IsSpace(r[|r| - 1])
  {
    if s != [] && IsSpace(s[|s| - 1]) then
      var init := s[..|s| - 1];
      var r := TrimEnd(init);
      assert init[..|r|] == s[..|r|];
      assert s[|r|..] == init[|r|..] + [s[|s| - 1]];
      r
    else s
  }

  /** `String.prototype.trim`. */
  function Trim(s: String): (r: String)
    ensures Trimmed(r)
    ensures |r| <= |s|
  {
    TrimEnd(TrimStart(s))
  }

  /** What `trim` removes: the result is the input between a whitespace-only
      prefix and a whitespace-only suffix. */
  lemma TrimIsSlice(s: String)
    ensures exists a, b :: 0 <= a <= b <= |s| && Trim(s) == s[a..b] && AllSpace(s[..a]) && AllSpace(s[b..])
  {
    var t := TrimStart(s);
    var r := TrimEnd(t);
    var a := |s| - |t|;
    assert r == s[a..a + |r|];
    assert s[a + |r|..] == t[|r|..];
  }

  /** Trimming empties exactly the all-whitespace strings. */
  lemma TrimEmpty(s: String)
    ensures Trim(s) == [] <==> AllSpace(s)
  {
  }

  lemma TrimOfTrimmed(s: String)
    requires Trimmed(s)
    ensures Trim(s) == s
  {
  }

  /** A string surrounded by spaces trims to itself when its own ends are not spaces. */
  lemma TrimLeadingSpace(s: String)
    requires s != [] && Trimmed(s)
    ensures Trim([' '] + s) == s
  {
    var padded := [' '] + s;
    assert padded[0] == ' ' && padded[1..] == s;
    assert TrimStart(padded) == s;
  }

  function ToLowerChar(c: char): char {
    if 'A' <= c <= 'Z' then (c as int + 32) as char else c
  }

  function ToUpperChar(c: char): char {
    if 'a' <= c <= 'z' then (c as int - 32) as char else c
  }

  /** `toLowerCase`, ASCII letters only. */
  function ToLower(s: String): (r: String)
    ensures |r| == |s|
    ensures forall i :: 0 <= i < |s| ==> r[i] == ToLowerChar(s[i])
  {
    if s == [] then [] else [ToLowerChar(s[0])] + ToLower(s[1..])
  }

  /** `toUpperCase`, ASCII letters only. */
  function ToUpper(s: String): (r: String)
    ensures |r| == |s|
    ensures forall i :: 0 <= i < |s| ==> r[i] == ToUpperChar(s[i])
  {
    if s == [] then [] else [ToUpperChar(s[0])] + ToUpper(s[1..])
  }

  lemma LowerOfUpperChar(c: char)
    ensures ToLowerChar(ToUpperChar(c)) == ToLowerChar(c)
  {
  }

  /** Upper-casing a string does not change what it lower-cases to. */
  lemma LowerOfUpper(s: String)
    ensures ToLower(ToUpper(s)) == ToLower(s)
  {
    forall i | 0 <= i < |s|
      ensures ToLower(ToUpper(s))[i] == ToLower(s)[i]
    {
      LowerOfUpperChar(s[i]);
    }
  }

  predicate StartsWith(s: String, prefix: String) {
    |prefix| <= |s| && s[..|prefix|] == prefix
  }

  /** A string starts with any string it was made by extending. */
  lemma StartsWithConcat(a: String, b: String)
    ensures StartsWith(a + b, a)
  {
    assert (a + b)[..|a|] == a;
  }

  /** `s.includes(sub)`. */
  predicate Contains(s: String, sub: String)
    decreases |s|
  {
    StartsWith(s, sub) || (s != [] && Contains(s[1..], sub))
  }

  /** `parts.join(sep)`. */
  function Join(parts: seq<String>, sep: String): String {
    if |parts| == 0 then []
    else if |parts| == 1 then parts[0]
    else parts[0] + sep + Join(parts[1..], sep)
  }

  /** `s.split(sep)` for a non-empty literal separator: the pieces between
      leftmost non-overlapping occurrences of `sep`; always at least one piece. */
  function Split(s: String, sep: String): (parts: seq<String>)
    requires sep != []
    ensures |parts| >= 1
    decreases |s|
  {
    if |s| < |sep| then [s]
    else if s[..|sep|] == sep then [[]] + Split(s[|sep|..], sep)
    else
      var rest := Split(s[1..], sep);
      [[s[0]] + rest[0]] + rest[1..]
  }

  /** Splitting and joining with the same separator gives back the string. */
  lemma {:induction false} SplitJoin(s: String, sep: String)
    requires sep != []
    ensures Join(Split(s, sep), sep) == s
    decreases |s|
  {
    if |s| < |sep| {
    } else if s[..|sep|] == sep {
      var rest := Split(s[|sep|..], sep);
      SplitJoin(s[|sep|..], sep);
      assert s == sep + s[|sep|..];
      assert Split(s, sep) == [[]] + rest;
      assert ([[]] + rest)[1..] == rest;
    } else {
      var rest := Split(s[1..], sep);
      SplitJoin(s[1..], sep);
      var parts := [[s[0]] + rest[0]] + rest[1..];
      assert Split(s, sep) == parts;
      if |rest| == 1 {
        assert Join(parts, sep) == [s[0]] + rest[0];
        assert s == [s[0]] + s[1..];
      } else {
        assert parts[1..] == rest[1..];
        assert Join(rest, sep) == rest[0] + sep + Join(rest[1..], sep);
        assert s == [s[0]] + s[1..];
      }
    }
  }

  /** A piece that cannot contain the first character of the separator is split
      off whole when the separator follows it. */
  lemma {:induction false} SplitAfterPiece(a: String, sep: String, rest: String)
    requires sep != [] && sep[0] !in a
    ensures Split(a + sep + rest, sep) == [a] + Split(rest, sep)
    decreases |a|
  {
    var s := a + sep + rest;
    if a == [] {
      assert s == sep + rest;
      assert s[..|sep|] == sep;
      assert s[|sep|..] == rest;
    } else {
      assert s[0] == a[0];
      assert s[..|sep|] != sep by {
        assert s[..|sep|][0] == a[0];
      }
      assert s[1..] == a[1..] + sep + rest;
      SplitAfterPiece(a[1..], sep, rest);
      assert [a[0]] + a[1..] == a;
    }
  }

  lemma AppendAssoc<T>(a: seq<T>, b: seq<T>, c: seq<T>)
    ensures a + (b + c) == (a + b) + c
  {
  }

  /** A join starts with its first part. */
  lemma JoinHead(parts: seq<String>, sep: String)
    requires |parts| >= 1
    ensures |parts[0]| <= |Join(parts, sep)| && Join(parts, sep)[..|parts[0]|] == parts[0]
  {
  }

  /** A join is the join of a prefix, the separator, and the join of the rest. */
  lemma {:induction false} JoinSplitAt(parts: seq<String>, sep: String, k: nat)
    requires 1 <= k < |parts|
    ensures Join(parts, sep) == Join(parts[..k], sep) + sep + Join(parts[k..], sep)
    decreases k
  {
    if k > 1 {
      JoinSplitAt(parts[1..], sep, k - 1);
      assert parts[..k][1..] == parts[1..][..k - 1];
      assert parts[1..][k - 1..] == parts[k..];
    }
  }

  /** Joining after appending one part. */
  lemma JoinSnoc(parts: seq<String>, x: String, sep: String)
    ensures Join(parts + [x], sep) == if parts == [] then x else Join(parts, sep) + sep + x
  {
    if parts != [] {
      JoinSplitAt(parts + [x], sep, |parts|);
      assert (parts + [x])[..|parts|] == parts;
      assert (parts + [x])[|parts|..] == [x];
    }
  }

  /** `name.split('.').pop()`: the text after the last dot, or the whole name. */
  function AfterLastDot(name: String): (r: String)
    ensures '.' !in r
    ensures |r| <= |name| && r == name[|name| - |r|..]
    ensures |r| < |name| ==> name[|name| - |r| - 1] == '.'
  {
    if name == [] then []
    else if name[|name| - 1] == '.' then []
    else AfterLastDot(name[..|name| - 1]) + [name[|name| - 1]]
  }
}
