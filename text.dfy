/**
 * String helpers shared by every module: JavaScript's character classes
 * (`\s`, `\w`), ASCII case mapping, `trim`, `indexOf`/`includes`, `join`,
 * `split`, and the two global regular-expression scans the summariser uses
 * everywhere: `/[^.!?]+[.!?]+/g` (sentence matches) and `/\b[\w'-]+\b/g`
 * (word tokens).
 */
module Text {

  type String = seq<char>

  /** JavaScript's `\s`: white space and line terminators. */
  predicate IsSpace(c: char) {
    c == ' ' || c == '\t' || c == '\n' || c == '\r' || c == '\U{B}' || c == '\U{C}'
    || c == '\U{A0}' || c == '\U{1680}' || ('\U{2000}' <= c <= '\U{200A}')
    || c == '\U{2028}' || c == '\U{2029}' || c == '\U{202F}' || c == '\U{205F}'
    || c == '\U{3000}' || c == '\U{FEFF}'
  }

  /** JavaScript's `\w`: `[A-Za-z0-9_]`. */
  predicate IsWordChar(c: char) {
    ('a' <= c <= 'z') || ('A' <= c <= 'Z') || ('0' <= c <= '9') || c == '_'
  }

  /** A sentence terminator, `[.!?]`. */
  predicate IsTerminator(c: char) {
    c == '.' || c == '!' || c == '?'
  }

  predicate IsUpper(c: char) { 'A' <= c <= 'Z' }

  predicate IsLower(c: char) { 'a' <= c <= 'z' }

  function ToLowerChar(c: char): (r: char)
    ensures !IsUpper(r)
    ensures IsUpper(c) ==> IsLower(r)
    ensures !IsUpper(c) ==> r == c
  {
    if IsUpper(c) then (c as int + 32) as char else c
  }

  function ToUpperChar(c: char): (r: char)
    ensures !IsLower(r)
    ensures IsLower(c) ==> IsUpper(r)
    ensures !IsLower(c) ==> r == c
  {
    if IsLower(c) then (c as int - 32) as char else c
  }

  /** `s.toLowerCase()`, restricted to ASCII letters. */
  function Lower(s: String): (r: String)
    ensures |r| == |s|
    ensures forall i :: 0 <= i < |s| ==> r[i] == ToLowerChar(s[i])
  {
    seq(|s|, i requires 0 <= i < |s| => ToLowerChar(s[i]))
  }

  /** `s.charAt(0).toUpperCase() + s.slice(1)`. */
  function UpperFirst(s: String): (r: String)
    ensures |r| == |s|
    ensures |s| > 0 ==> r[0] == ToUpperChar(s[0]) && r[1..] == s[1..]
  {
    if s == [] then [] else [ToUpperChar(s[0])] + s[1..]
  }

  /** Upper-casing a first character that is not a lower-case letter changes nothing. */
  lemma UpperFirstOfNonLower(s: String)
    requires s == [] || !IsLower(s[0])
    ensures UpperFirst(s) == s
  {
    if s != [] {
      assert s == [s[0]] + s[1..];
    }
  }

  predicate NoSpace(s: String) {
    forall i :: 0 <= i < |s| ==> !IsSpace(s[i])
  }

  predicate AllSpace(s: String) {
    forall i :: 0 <= i < |s| ==> IsSpace(s[i])
  }

  /** Neither starts nor ends with white space. */
  predicate IsTrimmed(s: String) {
    s == [] || (!IsSpace(s[0]) && !IsSpace(s[|s| - 1]))
  }

  predicate IsInfix(r: String, s: String) {
    exists a, b :: 0 <= a <= b <= |s| && r == s[a..b]
  }

  function TrimStart(s: String): (r: String)
    ensures |r| <= |s| && r == s[|s| - |r|..]
    ensures AllSpace(s[..|s| - |r|])
    ensures r == [] || !IsSpace(r[0])
  {
    if s == [] || !IsSpace(s[0]) then s else TrimStart(s[1..])
  }

  function TrimEnd(s: String): (r: String)
    ensures |r| <= |s| && r == s[..|r|]
    ensures AllSpace(s[|r|..])
    ensures r == [] || !IsSpace(r[|r| - 1])
  {
    if s == [] || !IsSpace(s[|s| - 1]) then s else TrimEnd(s[..|s| - 1])
  }

  /** `s.trim()`: the infix left once leading and trailing white space are removed. */
  function Trim(s: String): (r: String)
    ensures IsTrimmed(r)
    ensures IsInfix(r, s)
    ensures r == [] <==> AllSpace(s)
  {
    var t := TrimStart(s);
    var r := TrimEnd(t);
    TrimParts(s, t, r);
    r
  }

  lemma TrimParts(s: String, t: String, r: String)
    requires |t| <= |s| && t == s[|s| - |t|..] && AllSpace(s[..|s| - |t|])
    requires |r| <= |t| && r == t[..|r|] && AllSpace(t[|r|..])
    ensures IsInfix(r, s)
    ensures r == [] ==> AllSpace(s)
  {
    assert r == s[|s| - |t|..|s| - |t| + |r|];
    if r == [] {
      forall i | 0 <= i < |s| ensures IsSpace(s[i]) {
        if i >= |s| - |t| { assert s[i] == t[i - (|s| - |t|)]; }
        else { assert s[i] == s[..|s| - |t|][i]; }
      }
    }
  }

  lemma {:induction false} TrimIdentity(s: String)
    requires IsTrimmed(s)
    ensures Trim(s) == s
  {
  }

  // ---------------------------------------------------------------------
  // Occurrences, indexOf and includes

  predicate OccursAt(text: String, sub: String, i: int) {
    0 <= i && i + |sub| <= |text| && text[i..i + |sub|] == sub
  }

  function IndexOfFrom(text: String, sub: String, i: nat): (r: int)
    requires i <= |text|
    ensures r == -1 || (i <= r && OccursAt(text, sub, r))
    ensures r == -1 ==> forall k :: i <= k <= |text| ==> !OccursAt(text, sub, k)
    ensures r >= 0 ==> forall k :: i <= k < r ==> !OccursAt(text, sub, k)
    decreases |text| - i
  {
    if OccursAt(text, sub, i) then i
    else if i == |text| then -1
    else IndexOfFrom(text, sub, i + 1)
  }

  /** `text.indexOf(sub)`: the first position where `sub` occurs, or -1. */
  function IndexOf(text: String, sub: String): (r: int)
    ensures r == -1 <==> forall k :: 0 <= k <= |text| ==> !OccursAt(text, sub, k)
    ensures r >= 0 ==> OccursAt(text, sub, r) && forall k :: 0 <= k < r ==> !OccursAt(text, sub, k)
  {
    IndexOfFrom(text, sub, 0)
  }

  /** `text.includes(sub)`. */
  predicate Contains(text: String, sub: String) {
    IndexOf(text, sub) >= 0
  }

  /** `s` starts with `phrase`, ignoring case (`phrase` is in lower case). */
  predicate PhraseAt(s: String, phrase: String) {
    |phrase| <= |s| && Lower(s[..|phrase|]) == phrase
  }

  /** `s.startsWith(prefix)`. */
  predicate StartsWith(s: String, prefix: String) {
    |prefix| <= |s| && s[..|prefix|] == prefix
  }

  /** `text.toLowerCase().includes(sub.toLowerCase())`. */
  predicate ContainsIgnoreCase(text: String, sub: String) {
    Contains(Lower(text), Lower(sub))
  }

  /**
   * How many of `subs` occur in `text`, ignoring case: the count a
   * `forEach` over `subs` builds with `text.toLowerCase().includes(...)`.
   */
  function CountContained(text: String, subs: seq<String>): (r: nat)
    ensures r <= |subs|
    ensures r == 0 <==> forall t :: t in subs ==> !ContainsIgnoreCase(text, t)
    ensures r == |subs| <==> forall t :: t in subs ==> ContainsIgnoreCase(text, t)
  {
    if subs == [] then 0
    else (if ContainsIgnoreCase(text, subs[0]) then 1 else 0) + CountContained(text, subs[1..])
  }

  // ---------------------------------------------------------------------
  // join and split

  /** `parts.join(sep)`. */
  function Join(parts: seq<String>, sep: String): (r: String)
    ensures parts == [] ==> r == []
    ensures |parts| == 1 ==> r == parts[0]
  {
    if parts == [] then []
    else if |parts| == 1 then parts[0]
    else parts[0] + sep + Join(parts[1..], sep)
  }

  function CountChar(s: String, c: char): nat {
    if s == [] then 0 else (if s[0] == c then 1 else 0) + CountChar(s[1..], c)
  }

  /** `s.split(c)` for a one-character separator. */
  function SplitOn(s: String, c: char): (r: seq<String>)
    ensures |r| == CountChar(s, c) + 1
    ensures forall i :: 0 <= i < |r| ==> c !in r[i]
    ensures Join(r, [c]) == s
  {
    if c !in s then
      assert CountChar(s, c) == 0 by { NoCharCount(s, c); }
      [s]
    else
      var i := FirstIndex(s, c);
      var rest := SplitOn(s[i + 1..], c);
      CountAfterFirst(s, c, i);
      JoinAtFirst(s, c, i, rest);
      FreePiecesCons(s[..i], rest, c);
      [s[..i]] + rest
  }

  lemma JoinAtFirst(s: String, c: char, i: nat, rest: seq<String>)
    requires i < |s| && s[i] == c && rest != [] && Join(rest, [c]) == s[i + 1..]
    ensures Join([s[..i]] + rest, [c]) == s
  {
    assert ([s[..i]] + rest)[1..] == rest;
    assert s == s[..i] + [c] + s[i + 1..];
  }

  lemma FreePiecesCons(head: String, rest: seq<String>, c: char)
    requires c !in head && forall q :: 0 <= q < |rest| ==> c !in rest[q]
    ensures forall q :: 0 <= q < |[head] + rest| ==> c !in ([head] + rest)[q]
  {
    forall q | 0 <= q < |[head] + rest| ensures c !in ([head] + rest)[q] {
      if q > 0 {
        assert ([head] + rest)[q] == rest[q - 1];
      }
    }
  }

  function FirstIndex(s: String, c: char): (i: nat)
    requires c in s
    ensures i < |s| && s[i] == c && c !in s[..i]
  {
    if s[0] == c then 0 else 1 + FirstIndex(s[1..], c)
  }

  lemma NoCharCount(s: String, c: char)
    requires c !in s
    ensures CountChar(s, c) == 0
  {
    if s != [] { NoCharCount(s[1..], c); }
  }

  lemma CountAfterFirst(s: String, c: char, i: nat)
    requires i < |s| && s[i] == c && c !in s[..i]
    ensures CountChar(s, c) == CountChar(s[i + 1..], c) + 1
  {
    if i > 0 {
      assert s[1..][..i - 1] == s[..i][1..];
      CountAfterFirst(s[1..], c, i - 1);
      assert s[1..][i..] == s[i + 1..];
    }
  }

  /** Length of the run of white space that starts `s`. */
  function SpaceRun(s: String): (n: nat)
    ensures n <= |s| && AllSpace(s[..n])
    ensures n < |s| ==> !IsSpace(s[n])
  {
    if s == [] || !IsSpace(s[0]) then 0 else 1 + SpaceRun(s[1..])
  }

  /** Length of the prefix of `s` free of white space. */
  function NonSpaceRun(s: String): (n: nat)
    ensures n <= |s| && NoSpace(s[..n])
    ensures n < |s| ==> IsSpace(s[n])
  {
    if s == [] || IsSpace(s[0]) then 0 else 1 + NonSpaceRun(s[1..])
  }

  /**
   * `s.split(/\s+/)`: the pieces between maximal runs of white space, with
   * an empty first (last) piece when `s` starts (ends) with white space.
   */
  function SplitWs(s: String): (r: seq<String>)
    ensures |r| >= 1
    ensures forall i :: 0 <= i < |r| ==> NoSpace(r[i])
    ensures NoSpace(s) ==> r == [s]
    ensures forall i :: 0 <= i < |r| ==> IsInfix(r[i], s)
    decreases |s|
  {
    var i := NonSpaceRun(s);
    if i == |s| then
      assert s == s[0..|s|];
      [s]
    else
      var j := i + SpaceRun(s[i..]);
      var rest := SplitWs(s[j..]);
      InfixShift(rest, s, j);
      assert s[..i] == s[0..i];
      PiecesCons(s[..i], rest, s);
      [s[..i]] + rest
  }

  lemma PiecesCons(p: String, rest: seq<String>, s: String)
    requires NoSpace(p) && IsInfix(p, s)
    requires forall i :: 0 <= i < |rest| ==> NoSpace(rest[i]) && IsInfix(rest[i], s)
    ensures forall i :: 0 <= i < |[p] + rest| ==> NoSpace(([p] + rest)[i]) && IsInfix(([p] + rest)[i], s)
  {
    forall i | 0 <= i < |[p] + rest| ensures NoSpace(([p] + rest)[i]) && IsInfix(([p] + rest)[i], s) {
      if i > 0 { assert ([p] + rest)[i] == rest[i - 1]; }
    }
  }

  // ---------------------------------------------------------------------
  // /[^.!?]+[.!?]+/g

  /** Length of the prefix of `s` free of sentence terminators. */
  function PlainRun(s: String): (n: nat)
    ensures n <= |s|
    ensures forall k :: 0 <= k < n ==> !IsTerminator(s[k])
    ensures n < |s| ==> IsTerminator(s[n])
  {
    if s == [] || IsTerminator(s[0]) then 0 else 1 + PlainRun(s[1..])
  }

  /** Length of the run of sentence terminators that starts `s`. */
  function TerminatorRun(s: String): (n: nat)
    ensures n <= |s|
    ensures forall k :: 0 <= k < n ==> IsTerminator(s[k])
    ensures n < |s| ==> !IsTerminator(s[n])
  {
    if s == [] || !IsTerminator(s[0]) then 0 else 1 + TerminatorRun(s[1..])
  }

  /** A match of `[^.!?]+[.!?]+`: some text without terminators, then terminators only. */
  predicate IsSentenceMatch(m: String) {
    var k := PlainRun(m);
    1 <= k < |m| && k + TerminatorRun(m[k..]) == |m|
  }

  /**
   * `s.match(/[^.!?]+[.!?]+/g) || []`. A match starts at a non-terminator,
   * takes the whole run of non-terminators and then the whole run of
   * terminators; trailing text with no terminator after it is not matched.
   */
  function SentenceMatches(s: String): (r: seq<String>)
    ensures forall i :: 0 <= i < |r| ==> IsSentenceMatch(r[i]) && IsInfix(r[i], s)
    ensures PlainRun(s) == |s| ==> r == []
    ensures |r| <= |s|
    decreases |s|
  {
    if s == [] then []
    else if IsTerminator(s[0]) then
      var rest := SentenceMatches(s[1..]);
      InfixShift(rest, s, 1);
      rest
    else
      var q := PlainRun(s);
      if q == |s| then []
      else
        var e := q + TerminatorRun(s[q..]);
        var rest := SentenceMatches(s[e..]);
        InfixShift(rest, s, e);
        FirstMatchShape(s, q, e);
        MatchesCons(s[..e], rest, s);
        [s[..e]] + rest
  }

  lemma MatchesCons(m: String, rest: seq<String>, s: String)
    requires IsSentenceMatch(m) && IsInfix(m, s)
    requires forall i :: 0 <= i < |rest| ==> IsSentenceMatch(rest[i]) && IsInfix(rest[i], s)
    ensures forall i :: 0 <= i < |[m] + rest| ==> IsSentenceMatch(([m] + rest)[i]) && IsInfix(([m] + rest)[i], s)
  {
    forall i | 0 <= i < |[m] + rest|
      ensures IsSentenceMatch(([m] + rest)[i]) && IsInfix(([m] + rest)[i], s)
    {
      if i > 0 { assert ([m] + rest)[i] == rest[i - 1]; }
    }
  }

  lemma FirstMatchShape(s: String, q: nat, e: nat)
    requires s != [] && !IsTerminator(s[0])
    requires q == PlainRun(s) && q < |s| && e == q + TerminatorRun(s[q..])
    ensures IsSentenceMatch(s[..e]) && IsInfix(s[..e], s)
  {
    var m := s[..e];
    assert IsInfix(m, s) by { assert m == s[0..e]; }
    assert 1 <= q < e;
    PlainRunPrefix(s, e);
    TerminatorRunInPrefix(s, q, e);
    RunsMakeMatch(m, q, e - q);
  }

  lemma TerminatorRunInPrefix(s: String, q: nat, e: nat)
    requires q <= e <= |s| && e - q == TerminatorRun(s[q..])
    ensures TerminatorRun(s[..e][q..]) == e - q
  {
    assert s[..e][q..] == s[q..][..e - q];
    TerminatorRunPrefix(s[q..], e - q);
  }

  lemma RunsMakeMatch(m: String, q: nat, t: nat)
    requires q == PlainRun(m) && 1 <= q < |m|
    requires t == TerminatorRun(m[q..]) && q + t == |m|
    ensures IsSentenceMatch(m)
  {
  }

  lemma PlainRunPrefix(s: String, e: nat)
    requires PlainRun(s) < e <= |s|
    ensures PlainRun(s[..e]) == PlainRun(s)
  {
    if s != [] && !IsTerminator(s[0]) {
      assert s[..e][1..] == s[1..][..e - 1];
      PlainRunPrefix(s[1..], e - 1);
    }
  }

  lemma TerminatorRunPrefix(s: String, e: nat)
    requires e == TerminatorRun(s)
    ensures TerminatorRun(s[..e]) == e
  {
    if e > 0 {
      assert s[..e][1..] == s[1..][..e - 1];
      TerminatorRunPrefix(s[1..], e - 1);
    }
  }

  lemma InfixShift(rest: seq<String>, s: String, e: nat)
    requires e <= |s|
    requires forall i :: 0 <= i < |rest| ==> IsInfix(rest[i], s[e..])
    ensures forall i :: 0 <= i < |rest| ==> IsInfix(rest[i], s)
  {
    forall i | 0 <= i < |rest| ensures IsInfix(rest[i], s) {
      var a, b :| 0 <= a <= b <= |s[e..]| && rest[i] == s[e..][a..b];
      assert rest[i] == s[e + a..e + b];
    }
  }

  // ---------------------------------------------------------------------
  // \b and /\b[\w'-]+\b/g

  /** `\b` at position `p` of `s`. */
  predicate BoundaryAt(s: String, p: int) {
    0 <= p <= |s| && ((p > 0 && IsWordChar(s[p - 1])) != (p < |s| && IsWordChar(s[p])))
  }

  /** A character of the class `[\w'-]`. */
  predicate IsTokenChar(c: char) {
    IsWordChar(c) || c == '\'' || c == '-'
  }

  function TokenRun(s: String): (n: nat)
    ensures n <= |s|
    ensures forall k :: 0 <= k < n ==> IsTokenChar(s[k])
    ensures n < |s| ==> !IsTokenChar(s[n])
  {
    if s == [] || !IsTokenChar(s[0]) then 0 else 1 + TokenRun(s[1..])
  }

  /** Drops the leading apostrophes and hyphens of a run of token characters. */
  function DropLeadingMarks(s: String): (r: String)
    ensures |r| <= |s| && r == s[|s| - |r|..]
    ensures r == [] || IsWordChar(r[0]) || !IsTokenChar(r[0])
  {
    if s == [] || !(s[0] == '\'' || s[0] == '-') then s else DropLeadingMarks(s[1..])
  }

  /** Drops the trailing apostrophes and hyphens of a run of token characters. */
  function DropTrailingMarks(s: String): (r: String)
    ensures |r| <= |s| && r == s[..|r|]
    ensures r == [] || IsWordChar(r[|r| - 1]) || !IsTokenChar(r[|r| - 1])
  {
    if s == [] || !(s[|s| - 1] == '\'' || s[|s| - 1] == '-') then s else DropTrailingMarks(s[..|s| - 1])
  }

  /** A token as the scan returns it: token characters, starting and ending with a `\w` character. */
  predicate IsToken(t: String) {
    |t| > 0 && IsWordChar(t[0]) && IsWordChar(t[|t| - 1])
    && forall k :: 0 <= k < |t| ==> IsTokenChar(t[k])
  }

  /**
   * `s.match(/\b[\w'-]+\b/g) || []`. Within every maximal run of `[\w'-]`
   * characters the match runs from its first `\w` character to its last one
   * (a `\b` needs a `\w` character on one side); a run without `\w`
   * characters yields nothing.
   */
  function WordTokens(s: String): (r: seq<String>)
    ensures forall i :: 0 <= i < |r| ==> IsToken(r[i])
    decreases |s|
  {
    if s == [] then []
    else if !IsTokenChar(s[0]) then WordTokens(s[1..])
    else
      var e := TokenRun(s);
      var t := DropTrailingMarks(DropLeadingMarks(s[..e]));
      if t == [] then WordTokens(s[e..])
      else
        TrimmedRunIsToken(s[..e], DropLeadingMarks(s[..e]), t);
        TokensCons(t, WordTokens(s[e..]));
        [t] + WordTokens(s[e..])
  }

  /**
   * A run of token characters cut to start (`d`) and then to end (`t`)
   * with a character that is not a mark is a token, unless empty.
   */
  lemma TrimmedRunIsToken(run: String, d: String, t: String)
    requires forall k :: 0 <= k < |run| ==> IsTokenChar(run[k])
    requires |d| <= |run| && d == run[|run| - |d|..] && (d == [] || IsWordChar(d[0]) || !IsTokenChar(d[0]))
    requires |t| <= |d| && t == d[..|t|] && (t == [] || IsWordChar(t[|t| - 1]) || !IsTokenChar(t[|t| - 1]))
    requires t != []
    ensures IsToken(t)
  {
    forall k | 0 <= k < |t| ensures t[k] == d[k] && IsTokenChar(t[k]) {
      assert t[k] == d[..|t|][k];
      assert d[k] == run[|run| - |d| + k];
    }
  }

  lemma TokensCons(t: String, rest: seq<String>)
    requires IsToken(t)
    requires forall i :: 0 <= i < |rest| ==> IsToken(rest[i])
    ensures forall i :: 0 <= i < |[t] + rest| ==> IsToken(([t] + rest)[i])
  {
    forall i | 0 <= i < |[t] + rest| ensures IsToken(([t] + rest)[i]) {
      if i > 0 { assert ([t] + rest)[i] == rest[i - 1]; }
    }
  }
}
