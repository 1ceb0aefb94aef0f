/** The string operations of Go's standard library that the modelled code uses, and the wildcard lookup. */
module Text {

  /** strings.Split with a one-character separator; the empty string splits into one empty piece. */
  function Split(s: string, sep: char): (r: seq<string>)
    ensures r != []
  {
    if s == "" then [""]
    else if s[0] == sep then [""] + Split(s[1..], sep)
    else
      var rest := Split(s[1..], sep);
      [[s[0]] + rest[0]] + rest[1..]
  }

  /** The pieces with separators between them. */
  function Joined(pieces: seq<string>, sep: char): string
    requires pieces != []
  {
    if |pieces| == 1 then pieces[0] else pieces[0] + [sep] + Joined(pieces[1..], sep)
  }

  /** Splitting cuts at every separator and nowhere else. */
  lemma {:induction false} SplitJoins(s: string, sep: char)
    ensures Joined(Split(s, sep), sep) == s
    ensures forall i :: 0 <= i < |Split(s, sep)| ==> sep !in Split(s, sep)[i]
  {
    if s != "" {
      var rest := Split(s[1..], sep);
      SplitJoins(s[1..], sep);
      if s[0] == sep {
        assert ([""] + rest)[1..] == rest;
      } else {
        assert ([[s[0]] + rest[0]] + rest[1..])[1..] == rest[1..];
      }
      assert s == [s[0]] + s[1..];
    }
  }

  lemma SplitOfPlain(s: string, sep: char)
    requires sep !in s
    ensures Split(s, sep) == [s]
  {
    if s != "" {
      SplitOfPlain(s[1..], sep);
      assert [s[0]] + s[1..] == s;
    }
  }

  predicate IsSpace(c: char) {
    '\t' <= c <= '\r' || c == ' ' || c == '\U{85}' || c == '\U{A0}' || c == '\U{1680}'
    || '\U{2000}' <= c <= '\U{200A}' || c == '\U{2028}' || c == '\U{2029}' || c == '\U{202F}'
    || c == '\U{205F}' || c == '\U{3000}'
  }

  /** strings.TrimSpace. */
  function TrimSpace(s: string): string
    decreases |s|
  {
    if s == "" then s
    else if IsSpace(s[0]) then TrimSpace(s[1..])
    else if IsSpace(s[|s| - 1]) then TrimSpace(s[..|s| - 1])
    else s
  }

  /** What is cut off on either side is all space, and what is left neither begins nor ends with one. */
  lemma {:induction false} TrimSpaceTrims(s: string) returns (i: nat, j: nat)
    ensures i <= j <= |s| && TrimSpace(s) == s[i..j]
    ensures forall k :: 0 <= k < i || j <= k < |s| ==> IsSpace(s[k])
    ensures i < j ==> !IsSpace(s[i]) && !IsSpace(s[j - 1])
    decreases |s|
  {
    if s != "" && IsSpace(s[0]) {
      var rest := s[1..];
      var k, l := TrimSpaceTrims(rest);
      i, j := k + 1, l + 1;
      assert rest[k..l] == s[i..j];
      assert forall m :: 0 < m < |s| ==> s[m] == rest[m - 1];
    } else if s != "" && IsSpace(s[|s| - 1]) {
      var rest := s[..|s| - 1];
      i, j := TrimSpaceTrims(rest);
      assert rest[i..j] == s[i..j];
    } else {
      i, j := 0, |s|;
    }
  }

  predicate HasPrefix(s: string, prefix: string) {
    prefix <= s
  }

  /** strings.HasSuffix(s, "*"). */
  predicate IsWildcard(s: string) {
    s != "" && s[|s| - 1] == '*'
  }

  /** strings.TrimRight(s, "*"). */
  function TrimStars(s: string): string
    decreases |s|
  {
    if IsWildcard(s) then TrimStars(s[..|s| - 1]) else s
  }

  predicate Matches(pattern: string, name: string) {
    HasPrefix(name, TrimStars(pattern))
  }

  /** From k on the pattern has nothing but stars, and k is the first such position. */
  predicate StarsFrom(pattern: string, k: nat) {
    k <= |pattern| && (forall i :: k <= i < |pattern| ==> pattern[i] == '*') && (k > 0 ==> pattern[k - 1] != '*')
  }

  /** The name begins with what stands before the pattern's closing stars. */
  ghost predicate CoversName(pattern: string, name: string) {
    exists k: nat :: StarsFrom(pattern, k) && |name| >= k && forall i :: 0 <= i < k ==> name[i] == pattern[i]
  }

  lemma {:induction false} StarsTrimmed(pattern: string, k: nat)
    requires StarsFrom(pattern, k)
    ensures TrimStars(pattern) == pattern[..k]
    decreases |pattern|
  {
    if k < |pattern| {
      StarsTrimmed(pattern[..|pattern| - 1], k);
    } else {
      assert pattern[..k] == pattern;
    }
  }

  lemma {:induction false} StarsBegin(pattern: string) returns (k: nat)
    ensures StarsFrom(pattern, k)
    decreases |pattern|
  {
    if IsWildcard(pattern) {
      k := StarsBegin(pattern[..|pattern| - 1]);
    } else {
      k := |pattern|;
    }
  }

  /** A pattern without closing stars, too, covers every name it begins. */
  lemma MatchesIff(pattern: string, name: string)
    ensures Matches(pattern, name) <==> CoversName(pattern, name)
  {
    var k := StarsBegin(pattern);
    StarsTrimmed(pattern, k);
    if CoversName(pattern, name) {
      var l: nat :| StarsFrom(pattern, l) && |name| >= l && forall i :: 0 <= i < l ==> name[i] == pattern[i];
      StarsTrimmed(pattern, l);
    }
  }

  /** The first entry of the list that covers the name, or the empty string if none does. */
  ghost predicate IsFirstCover(list: seq<string>, name: string, r: string) {
    || (exists i :: 0 <= i < |list| && list[i] == r && CoversName(list[i], name) && forall j :: 0 <= j < i ==> !CoversName(list[j], name))
    || (r == "" && forall i :: 0 <= i < |list| ==> !CoversName(list[i], name))
  }

  lemma {:induction false} FirstMatchIsFirstCover(patterns: seq<string>, name: string)
    ensures IsFirstCover(patterns, name, FirstMatch(patterns, name))
  {
    if patterns != [] {
      MatchesIff(patterns[0], name);
      if !Matches(patterns[0], name) {
        var rest := patterns[1..];
        FirstMatchIsFirstCover(rest, name);
        if i :| 0 <= i < |rest| && rest[i] == FirstMatch(rest, name) && CoversName(rest[i], name)
                && forall j :: 0 <= j < i ==> !CoversName(rest[j], name) {
          assert patterns[i + 1] == rest[i];
          assert forall j :: 0 < j < i + 1 ==> patterns[j] == rest[j - 1];
        } else {
          assert forall j :: 0 < j < |patterns| ==> patterns[j] == rest[j - 1];
        }
      }
    }
  }

  /** The first pattern of the list that matches, or the empty string. */
  function FirstMatch(patterns: seq<string>, name: string): (r: string)
    ensures r == "" || (r in patterns && Matches(r, name))
    ensures (exists p :: p in patterns && p != "" && Matches(p, name)) && "" !in patterns ==> r != ""
  {
    if patterns == [] then ""
    else if Matches(patterns[0], name) then patterns[0]
    else FirstMatch(patterns[1..], name)
  }

  /** utils.GetModelsWithMatch. */
  method GetModelsWithMatch(modelList: seq<string>, modelName: string) returns (r: string)
    ensures r == FirstMatch(modelList, modelName) && IsFirstCover(modelList, modelName, r)
  {
    FirstMatchIsFirstCover(modelList, modelName);
    for i := 0 to |modelList|
      invariant FirstMatch(modelList, modelName) == FirstMatch(modelList[i..], modelName)
    {
      if Matches(modelList[i], modelName) {
        return modelList[i];
      }
    }
    return "";
  }
}
