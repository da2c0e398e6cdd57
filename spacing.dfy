/**
 * The white-space clean-ups shared by the rewriter and the LLM helpers:
 * `s.replace(/\s+([,.;:])/g, '$1')`, `s.replace(/\s{2,}/g, ' ')` and
 * `s.replace(/\s+/g, ' ')`, and the shapes they leave behind.
 */
module Spacing {
  import opened Text

  /** The class `[,.;:]`. */
  predicate IsClausePunct(c: char) {
    c == ',' || c == '.' || c == ';' || c == ':'
  }

  /** No white space directly before , . ; or :. */
  predicate NoSpaceBeforePunct(s: String) {
    forall i :: 0 < i < |s| && IsClausePunct(s[i]) ==> !IsSpace(s[i - 1])
  }

  /** No two white-space characters in a row. */
  predicate NoDoubleSpace(s: String) {
    forall i :: 0 < i < |s| && IsSpace(s[i]) ==> !IsSpace(s[i - 1])
  }

  /** Every white-space character is a plain blank. */
  predicate SpacesAreBlank(s: String) {
    forall i :: 0 <= i < |s| && IsSpace(s[i]) ==> s[i] == ' '
  }

  /** The characters of `s` that are not white space, in order. */
  function NonSpaces(s: String): (r: String)
    ensures |r| <= |s|
  {
    if s == [] then [] else (if IsSpace(s[0]) then [] else [s[0]]) + NonSpaces(s[1..])
  }

  lemma {:induction false} NonSpacesAppend(a: String, b: String)
    ensures NonSpaces(a + b) == NonSpaces(a) + NonSpaces(b)
  {
    if a == [] {
      assert a + b == b;
    } else {
      assert (a + b)[1..] == a[1..] + b;
      NonSpacesAppend(a[1..], b);
    }
  }

  lemma {:induction false} NonSpacesOfSpaces(a: String)
    requires AllSpace(a)
    ensures NonSpaces(a) == []
  {
    if a != [] {
      NonSpacesOfSpaces(a[1..]);
    }
  }

  /** The three shapes hold of every infix of a string that has them. */
  lemma InfixKeepsShape(s: String, a: nat, b: nat)
    requires a <= b <= |s|
    ensures NoSpaceBeforePunct(s) ==> NoSpaceBeforePunct(s[a..b])
    ensures NoDoubleSpace(s) ==> NoDoubleSpace(s[a..b])
    ensures SpacesAreBlank(s) ==> SpacesAreBlank(s[a..b])
  {
    var t := s[a..b];
    forall i | 0 <= i < |t| ensures t[i] == s[a + i] {
    }
  }

  /** Two strings with a shape, glued where the shape is not broken, keep it. */
  lemma ConcatKeepsShape(a: String, b: String)
    ensures NoSpaceBeforePunct(a) && NoSpaceBeforePunct(b)
      && (a == [] || b == [] || !IsSpace(a[|a| - 1]) || !IsClausePunct(b[0]))
      ==> NoSpaceBeforePunct(a + b)
    ensures NoDoubleSpace(a) && NoDoubleSpace(b)
      && (a == [] || b == [] || !IsSpace(a[|a| - 1]) || !IsSpace(b[0]))
      ==> NoDoubleSpace(a + b)
    ensures SpacesAreBlank(a) && SpacesAreBlank(b) ==> SpacesAreBlank(a + b)
  {
    var s := a + b;
    forall i | 0 <= i < |s|
      ensures (i < |a| ==> s[i] == a[i]) && (i >= |a| ==> s[i] == b[i - |a|])
    {
    }
  }

  /**
   * `s.replace(/\s+([,.;:])/g, '$1')`: every maximal run of white space that
   * is followed by , . ; or : is deleted; every other run stays as it is.
   */
  function DropSpaceBeforePunct(s: String): (r: String)
    ensures |r| <= |s|
    ensures r == [] <==> s == []
    ensures s != [] && !IsSpace(s[0]) ==> r[0] == s[0]
    ensures s != [] ==> r[|r| - 1] == s[|s| - 1]
    ensures NoSpaceBeforePunct(r)
    decreases |s|
  {
    if s == [] then []
    else if !IsSpace(s[0]) then
      var rest := DropSpaceBeforePunct(s[1..]);
      ConcatKeepsShape([s[0]], rest);
      [s[0]] + rest
    else
      var n := SpaceRun(s);
      if n < |s| && IsClausePunct(s[n]) then DropSpaceBeforePunct(s[n..])
      else
        var rest := DropSpaceBeforePunct(s[n..]);
        assert NoSpaceBeforePunct(s[..n]);
        ConcatKeepsShape(s[..n], rest);
        s[..n] + rest
  }

  /** Dropping white space before punctuation keeps every other character. */
  lemma {:induction false} DropSpaceBeforePunctKeepsText(s: String)
    ensures NonSpaces(DropSpaceBeforePunct(s)) == NonSpaces(s)
    decreases |s|, 1
  {
    if s != [] && !IsSpace(s[0]) {
      DropSpaceBeforePunctKeepsText(s[1..]);
      KeepTextCons(s, DropSpaceBeforePunct(s[1..]));
    } else if s != [] {
      DropRunKeepsText(s);
    }
  }

  lemma {:induction false} DropRunKeepsText(s: String)
    requires s != [] && IsSpace(s[0])
    ensures NonSpaces(DropSpaceBeforePunct(s)) == NonSpaces(s)
    decreases |s|, 0
  {
    var n := SpaceRun(s);
    var d := DropSpaceBeforePunct(s[n..]);
    DropSpaceBeforePunctKeepsText(s[n..]);
    var run := if n < |s| && IsClausePunct(s[n]) then [] else s[..n];
    assert DropSpaceBeforePunct(s) == run + d;
    KeepTextRun(s, n, run, d);
  }

  /** A first character that is not white space, kept in front of the rest. */
  lemma KeepTextCons(s: String, d: String)
    requires s != [] && NonSpaces(d) == NonSpaces(s[1..])
    ensures NonSpaces([s[0]] + d) == NonSpaces(s)
  {
    assert s == [s[0]] + s[1..];
    NonSpacesAppend([s[0]], s[1..]);
    NonSpacesAppend([s[0]], d);
  }

  /** A leading run of white space, replaced by other white space. */
  lemma KeepTextRun(s: String, n: nat, run: String, d: String)
    requires n <= |s| && AllSpace(s[..n]) && AllSpace(run)
    requires NonSpaces(d) == NonSpaces(s[n..])
    ensures NonSpaces(run + d) == NonSpaces(s)
  {
    assert s == s[..n] + s[n..];
    NonSpacesAppend(s[..n], s[n..]);
    NonSpacesOfSpaces(s[..n]);
    NonSpacesAppend(run, d);
    NonSpacesOfSpaces(run);
  }

  /** Where no white space comes before punctuation there is nothing to drop. */
  lemma {:induction false} DropSpaceBeforePunctFixed(s: String)
    requires NoSpaceBeforePunct(s)
    ensures DropSpaceBeforePunct(s) == s
    decreases |s|, 1
  {
    if s != [] && !IsSpace(s[0]) {
      DropSpaceBeforePunctFixedWord(s);
    } else if s != [] {
      DropSpaceBeforePunctFixedRun(s);
    }
  }

  lemma {:induction false} DropSpaceBeforePunctFixedWord(s: String)
    requires NoSpaceBeforePunct(s) && s != [] && !IsSpace(s[0])
    ensures DropSpaceBeforePunct(s) == s
    decreases |s|, 0
  {
    InfixKeepsShape(s, 1, |s|);
    DropSpaceBeforePunctFixed(s[1..]);
    calc {
      DropSpaceBeforePunct(s);
      [s[0]] + DropSpaceBeforePunct(s[1..]);
      [s[0]] + s[1..];
      s;
    }
  }

  lemma {:induction false} DropSpaceBeforePunctFixedRun(s: String)
    requires NoSpaceBeforePunct(s) && s != [] && IsSpace(s[0])
    ensures DropSpaceBeforePunct(s) == s
    decreases |s|, 0
  {
    var n := SpaceRun(s);
    assert DropSpaceBeforePunct(s[n..]) == s[n..] by {
      InfixKeepsShape(s, n, |s|);
      DropSpaceBeforePunctFixed(s[n..]);
    }
    assert n < |s| ==> !IsClausePunct(s[n]) by {
      if n < |s| {
        NotPunctAfterRun(s, n);
      }
    }
    calc {
      DropSpaceBeforePunct(s);
      s[..n] + DropSpaceBeforePunct(s[n..]);
      s[..n] + s[n..];
      s;
    }
  }

  lemma NotPunctAfterRun(s: String, n: nat)
    requires 0 < n < |s| && AllSpace(s[..n]) && NoSpaceBeforePunct(s)
    ensures !IsClausePunct(s[n])
  {
    assert s[..n][n - 1] == s[n - 1];
  }

  /** Dropping white space before punctuation keeps runs single and blanks blank. */
  lemma DropSpaceBeforePunctKeepsShape(s: String)
    ensures NoDoubleSpace(s) ==> NoDoubleSpace(DropSpaceBeforePunct(s))
    ensures SpacesAreBlank(s) ==> SpacesAreBlank(DropSpaceBeforePunct(s))
  {
    if NoDoubleSpace(s) {
      DropKeepsSingleSpaces(s);
    }
    if SpacesAreBlank(s) {
      DropKeepsBlanks(s);
    }
  }

  lemma {:induction false} DropKeepsSingleSpaces(s: String)
    requires NoDoubleSpace(s)
    ensures NoDoubleSpace(DropSpaceBeforePunct(s))
    decreases |s|
  {
    if s != [] && !IsSpace(s[0]) {
      InfixKeepsShape(s, 1, |s|);
      DropKeepsSingleSpaces(s[1..]);
      ConcatKeepsShape([s[0]], DropSpaceBeforePunct(s[1..]));
    } else if s != [] {
      var n := SpaceRun(s);
      InfixKeepsShape(s, n, |s|);
      InfixKeepsShape(s, 0, n);
      DropKeepsSingleSpaces(s[n..]);
      if !(n < |s| && IsClausePunct(s[n])) {
        ConcatKeepsShape(s[..n], DropSpaceBeforePunct(s[n..]));
      }
    }
  }

  lemma {:induction false} DropKeepsBlanks(s: String)
    requires SpacesAreBlank(s)
    ensures SpacesAreBlank(DropSpaceBeforePunct(s))
    decreases |s|
  {
    if s != [] && !IsSpace(s[0]) {
      InfixKeepsShape(s, 1, |s|);
      DropKeepsBlanks(s[1..]);
      ConcatKeepsShape([s[0]], DropSpaceBeforePunct(s[1..]));
    } else if s != [] {
      var n := SpaceRun(s);
      InfixKeepsShape(s, n, |s|);
      InfixKeepsShape(s, 0, n);
      DropKeepsBlanks(s[n..]);
      if !(n < |s| && IsClausePunct(s[n])) {
        ConcatKeepsShape(s[..n], DropSpaceBeforePunct(s[n..]));
      }
    }
  }

  /**
   * `s.replace(/\s{k,}/g, ' ')` with `k` = `atLeast` (1 or 2): every maximal
   * run of at least `atLeast` white-space characters becomes one blank.
   */
  function ReplaceSpaceRuns(s: String, atLeast: nat): (r: String)
    requires 1 <= atLeast <= 2
    ensures |r| <= |s|
    ensures r == [] <==> s == []
    ensures s != [] && !IsSpace(s[0]) ==> r[0] == s[0]
    ensures NoDoubleSpace(r)
    ensures atLeast == 1 ==> SpacesAreBlank(r)
    decreases |s|
  {
    if s == [] then []
    else if !IsSpace(s[0]) then
      var rest := ReplaceSpaceRuns(s[1..], atLeast);
      ConcatKeepsShape([s[0]], rest);
      [s[0]] + rest
    else
      var n := SpaceRun(s);
      var run := if n >= atLeast then " " else s[..n];
      var rest := ReplaceSpaceRuns(s[n..], atLeast);
      assert |run| == 1 && IsSpace(run[0]);
      ConcatKeepsShape(run, rest);
      run + rest
  }

  /** Replacing runs keeps every character that is not white space. */
  lemma {:induction false} ReplaceSpaceRunsKeepsText(s: String, atLeast: nat)
    requires 1 <= atLeast <= 2
    ensures NonSpaces(ReplaceSpaceRuns(s, atLeast)) == NonSpaces(s)
    decreases |s|, 1
  {
    if s != [] && !IsSpace(s[0]) {
      ReplaceSpaceRunsKeepsText(s[1..], atLeast);
      KeepTextCons(s, ReplaceSpaceRuns(s[1..], atLeast));
    } else if s != [] {
      ReplaceRunKeepsText(s, atLeast);
    }
  }

  lemma {:induction false} ReplaceRunKeepsText(s: String, atLeast: nat)
    requires 1 <= atLeast <= 2
    requires s != [] && IsSpace(s[0])
    ensures NonSpaces(ReplaceSpaceRuns(s, atLeast)) == NonSpaces(s)
    decreases |s|, 0
  {
    var n := SpaceRun(s);
    var d := ReplaceSpaceRuns(s[n..], atLeast);
    ReplaceSpaceRunsKeepsText(s[n..], atLeast);
    var run := if n >= atLeast then " " else s[..n];
    assert ReplaceSpaceRuns(s, atLeast) == run + d;
    KeepTextRun(s, n, run, d);
  }

  /** Replacing runs puts no white space before punctuation. */
  lemma {:induction false} ReplaceSpaceRunsKeepsPunct(s: String, atLeast: nat)
    requires 1 <= atLeast <= 2
    requires NoSpaceBeforePunct(s)
    ensures NoSpaceBeforePunct(ReplaceSpaceRuns(s, atLeast))
    decreases |s|
  {
    if s == [] {
    } else if !IsSpace(s[0]) {
      InfixKeepsShape(s, 1, |s|);
      ReplaceSpaceRunsKeepsPunct(s[1..], atLeast);
      ConcatKeepsShape([s[0]], ReplaceSpaceRuns(s[1..], atLeast));
    } else {
      var n := SpaceRun(s);
      var run := if n >= atLeast then " " else s[..n];
      InfixKeepsShape(s, n, |s|);
      InfixKeepsShape(s, 0, n);
      ReplaceSpaceRunsKeepsPunct(s[n..], atLeast);
      if n < |s| {
        assert IsSpace(s[n - 1]);
      }
      ConcatKeepsShape(run, ReplaceSpaceRuns(s[n..], atLeast));
    }
  }

  /** A string whose runs are already single (and blank, when every run is replaced) is left alone. */
  lemma {:induction false} ReplaceSpaceRunsFixed(s: String, atLeast: nat)
    requires 1 <= atLeast <= 2
    requires NoDoubleSpace(s) && (atLeast == 2 || SpacesAreBlank(s))
    ensures ReplaceSpaceRuns(s, atLeast) == s
    decreases |s|
  {
    if s == [] {
    } else if !IsSpace(s[0]) {
      InfixKeepsShape(s, 1, |s|);
      ReplaceSpaceRunsFixed(s[1..], atLeast);
      calc {
        ReplaceSpaceRuns(s, atLeast);
        [s[0]] + ReplaceSpaceRuns(s[1..], atLeast);
        [s[0]] + s[1..];
        s;
      }
    } else {
      var n := SpaceRun(s);
      assert n == 1;
      InfixKeepsShape(s, 1, |s|);
      ReplaceSpaceRunsFixed(s[1..], atLeast);
      var run := if n >= atLeast then " " else s[..n];
      assert run == [s[0]];
      calc {
        ReplaceSpaceRuns(s, atLeast);
        run + ReplaceSpaceRuns(s[1..], atLeast);
        [s[0]] + s[1..];
        s;
      }
    }
  }

  /** Trimming removes white space only. */
  lemma TrimKeepsNonSpaces(s: String)
    ensures NonSpaces(Trim(s)) == NonSpaces(s)
  {
    TrimStartKeepsNonSpaces(s);
    TrimEndKeepsNonSpaces(TrimStart(s));
  }

  lemma {:induction false} TrimStartKeepsNonSpaces(s: String)
    ensures NonSpaces(TrimStart(s)) == NonSpaces(s)
  {
    if s != [] && IsSpace(s[0]) {
      TrimStartKeepsNonSpaces(s[1..]);
    }
  }

  lemma {:induction false} TrimEndKeepsNonSpaces(s: String)
    ensures NonSpaces(TrimEnd(s)) == NonSpaces(s)
  {
    if s != [] && IsSpace(s[|s| - 1]) {
      var init := s[..|s| - 1];
      TrimEndKeepsNonSpaces(init);
      assert s == init + [s[|s| - 1]];
      NonSpacesAppend(init, [s[|s| - 1]]);
    }
  }

  /** Trimming keeps the three shapes. */
  lemma TrimKeepsShape(s: String)
    ensures NoSpaceBeforePunct(s) ==> NoSpaceBeforePunct(Trim(s))
    ensures NoDoubleSpace(s) ==> NoDoubleSpace(Trim(s))
    ensures SpacesAreBlank(s) ==> SpacesAreBlank(Trim(s))
  {
    var a, b :| 0 <= a <= b <= |s| && Trim(s) == s[a..b];
    InfixKeepsShape(s, a, b);
  }

  /** Upper-casing the first character keeps the three shapes and trimming. */
  lemma UpperFirstKeepsShape(s: String)
    ensures NoSpaceBeforePunct(s) ==> NoSpaceBeforePunct(UpperFirst(s))
    ensures NoDoubleSpace(s) ==> NoDoubleSpace(UpperFirst(s))
    ensures SpacesAreBlank(s) ==> SpacesAreBlank(UpperFirst(s))
    ensures IsTrimmed(s) ==> IsTrimmed(UpperFirst(s))
  {
    var r := UpperFirst(s);
    forall i | 0 <= i < |s| ensures (IsSpace(r[i]) <==> IsSpace(s[i])) && (i > 0 ==> r[i] == s[i]) {
      if i > 0 {
        assert r[i] == r[1..][i - 1];
      }
    }
  }

  /** Upper-casing the first character commutes with dropping white space, when it is not white space. */
  lemma UpperFirstNonSpaces(t: String)
    requires t == [] || !IsSpace(t[0])
    ensures NonSpaces(UpperFirst(t)) == UpperFirst(NonSpaces(t))
  {
    if t != [] {
      assert t == [t[0]] + t[1..];
      assert UpperFirst(t) == [ToUpperChar(t[0])] + t[1..];
      NonSpacesAppend([t[0]], t[1..]);
      NonSpacesAppend([ToUpperChar(t[0])], t[1..]);
    }
  }
}
