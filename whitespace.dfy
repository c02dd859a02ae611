// The whitespace normalizer applied to the raw text buffer of the HTML
// extractor: a leading trim over the `isSpace` class, then every maximal run
// of regex-whitespace that contains a line break collapses to one "\n".

module Whitespace {

  /** The `isSpace` class: space, tab, newline, carriage return, form feed,
      vertical tab. */
  predicate IsSpace(c: char)
  {
    c == ' ' || c == '\t' || c == '\n' || c == '\r' || c == '\U{C}' || c == '\U{B}'
  }

  /** The class `\s` of the RE2 syntax: like IsSpace but WITHOUT the vertical
      tab. */
  predicate IsRegexSpace(c: char)
  {
    c == ' ' || c == '\t' || c == '\n' || c == '\r' || c == '\U{C}'
  }

  /** Leading IsSpace characters removed: the result is the longest suffix of
      `s` that does not start with an IsSpace character. */
  function TrimLeft(s: string): (r: string)
    ensures |r| <= |s| && r == s[|s| - |r|..]
    ensures forall i :: 0 <= i < |s| - |r| ==> IsSpace(s[i])
    ensures r == [] || !IsSpace(r[0])
  {
    if s == [] || !IsSpace(s[0]) then s else TrimLeft(s[1..])
  }

  /** A text made only of IsSpace characters trims to nothing. */
  lemma TrimLeftOfSpaces(s: string)
    ensures (forall i :: 0 <= i < |s| ==> IsSpace(s[i])) ==> TrimLeft(s) == []
  {
    var r := TrimLeft(s);
    if r != [] {
      assert r[0] == s[|s| - |r|];
    }
  }

  /** Length of the maximal run of regex-whitespace at the start of `s`. */
  function RunLength(s: string): (n: nat)
    ensures n <= |s|
    ensures forall i :: 0 <= i < n ==> IsRegexSpace(s[i])
    ensures n == |s| || !IsRegexSpace(s[n])
  {
    if s == [] || !IsRegexSpace(s[0]) then 0 else 1 + RunLength(s[1..])
  }

  /** The effect of replacing every match of `\s*\n+\s*` by "\n": a match
      always starts at the beginning of a maximal regex-whitespace run holding
      a '\n' and the greedy `\s*` carries it to the run's end, so such a run
      becomes "\n" and every other character is kept. */
  function Collapse(s: string): (r: string)
    ensures |r| <= |s|
    ensures s != [] && !IsRegexSpace(s[0]) ==> r != [] && r[0] == s[0]
    decreases |s|
  {
    if s == [] then []
    else if !IsRegexSpace(s[0]) then [s[0]] + Collapse(s[1..])
    else
      var n := RunLength(s);
      (if '\n' in s[..n] then "\n" else s[..n]) + Collapse(s[n..])
  }

  /** The normalization that ends `PlainText`. */
  function Normalize(s: string): string
  {
    Collapse(TrimLeft(s))
  }

  /** No '\n' has a regex-whitespace neighbour: the shape Collapse produces. */
  predicate Collapsed(u: string)
  {
    forall i :: 0 <= i < |u| && u[i] == '\n' ==>
      (i == 0 || !IsRegexSpace(u[i - 1])) && (i + 1 == |u| || !IsRegexSpace(u[i + 1]))
  }

  /** The characters outside the IsSpace class, in order. */
  function Visible(s: string): (r: string)
    ensures |r| <= |s|
  {
    if s == [] then [] else (if IsSpace(s[0]) then [] else [s[0]]) + Visible(s[1..])
  }

  /** The index loop of `PlainText` that finds where the leading trim ends. */
  method TrimIndex(s: string) returns (i: nat)
    ensures i <= |s| && s[i..] == TrimLeft(s)
  {
    i := 0;
    while i < |s|
      invariant i <= |s|
      invariant TrimLeft(s[i..]) == TrimLeft(s)
    {
      if !IsSpace(s[i]) {
        break;
      }
      assert s[i..][1..] == s[i + 1..];
      i := i + 1;
    }
  }

  lemma SplitAt(s: string, n: nat)
    requires n <= |s|
    ensures s == s[..n] + s[n..]
  {
  }

  lemma {:induction false} VisibleAppend(a: string, b: string)
    ensures Visible(a + b) == Visible(a) + Visible(b)
  {
    if a == [] {
      assert a + b == b;
    } else {
      assert (a + b)[0] == a[0] && (a + b)[1..] == a[1..] + b;
      VisibleAppend(a[1..], b);
    }
  }

  lemma {:induction false} VisibleOfRun(s: string, n: nat)
    requires n <= |s|
    requires forall i :: 0 <= i < n ==> IsSpace(s[i])
    ensures Visible(s[..n]) == []
  {
    if n > 0 {
      assert s[..n][1..] == s[1..][..n - 1];
      VisibleOfRun(s[1..], n - 1);
    }
  }

  /** Collapsing only removes whitespace: the visible text is unchanged. */
  lemma {:induction false} CollapseKeepsVisible(s: string)
    ensures Visible(Collapse(s)) == Visible(s)
    decreases |s|
  {
    if s == [] {
    } else if !IsRegexSpace(s[0]) {
      CollapseKeepsVisible(s[1..]);
      VisibleAppend([s[0]], Collapse(s[1..]));
    } else {
      var n := RunLength(s);
      var head := if '\n' in s[..n] then "\n" else s[..n];
      CollapseKeepsVisible(s[n..]);
      VisibleAppend(head, Collapse(s[n..]));
      VisibleOfRun(s, n);
      assert Visible(head) == [] by {
        if '\n' in s[..n] {
          assert Visible("\n") == [];
        }
      }
      SplitAt(s, n);
      VisibleAppend(s[..n], s[n..]);
    }
  }

  /** A text with no line break is left exactly as it is, so runs of spaces
      and tabs between words survive. */
  lemma {:induction false} CollapseWithoutNewline(s: string)
    requires '\n' !in s
    ensures Collapse(s) == s
    decreases |s|
  {
    if s == [] {
    } else if !IsRegexSpace(s[0]) {
      CollapseWithoutNewline(s[1..]);
    } else {
      var n := RunLength(s);
      assert '\n' !in s[..n];
      CollapseWithoutNewline(s[n..]);
      SplitAt(s, n);
    }
  }

  /** A whitespace run that stops inside `a` is not lengthened by what
      follows `a`. */
  lemma {:induction false} RunLengthOfAppend(a: string, b: string)
    requires RunLength(a) < |a|
    ensures RunLength(a + b) == RunLength(a)
    decreases |a|
  {
    if IsRegexSpace(a[0]) {
      assert (a + b)[1..] == a[1..] + b;
      RunLengthOfAppend(a[1..], b);
    }
  }

  /** Collapsing is local: text split right after a non-whitespace character
      collapses piece by piece, so a run without a line break between two
      words is kept wherever it stands. */
  lemma {:induction false} CollapseAppend(a: string, b: string)
    requires a == [] || !IsRegexSpace(a[|a| - 1])
    ensures Collapse(a + b) == Collapse(a) + Collapse(b)
    decreases |a|
  {
    if a == [] {
      assert a + b == b;
    } else if !IsRegexSpace(a[0]) {
      assert (a + b)[1..] == a[1..] + b;
      CollapseAppend(a[1..], b);
      AppendAssoc([a[0]], Collapse(a[1..]), Collapse(b));
    } else {
      var m := RunLength(a);
      assert m < |a|;
      RunLengthOfAppend(a, b);
      assert (a + b)[..m] == a[..m];
      assert (a + b)[m..] == a[m..] + b;
      CollapseAppend(a[m..], b);
      var head := if '\n' in a[..m] then "\n" else a[..m];
      AppendAssoc(head, Collapse(a[m..]), Collapse(b));
    }
  }

  lemma AppendAssoc(a: string, b: string, c: string)
    ensures (a + b) + c == a + (b + c)
  {
  }

  lemma AppendEmpty(s: string)
    ensures s + "" == s
  {
  }

  lemma PrefixOfAppend(a: string, b: string)
    ensures a <= a + b
  {
    assert (a + b)[..|a|] == a;
  }

  /** Every line break of the output stands alone between non-whitespace. */
  lemma {:induction false} CollapseIsCollapsed(s: string)
    ensures Collapsed(Collapse(s))
    decreases |s|
  {
    if s == [] {
    } else if !IsRegexSpace(s[0]) {
      var rest := Collapse(s[1..]);
      CollapseIsCollapsed(s[1..]);
      var u := [s[0]] + rest;
      forall i | 0 <= i < |u| && u[i] == '\n'
        ensures (i == 0 || !IsRegexSpace(u[i - 1])) && (i + 1 == |u| || !IsRegexSpace(u[i + 1]))
      {
        assert i > 0 && u[i] == rest[i - 1];
      }
    } else {
      var n := RunLength(s);
      var rest := Collapse(s[n..]);
      CollapseIsCollapsed(s[n..]);
      assert rest != [] ==> rest[0] == s[n];
      if '\n' in s[..n] {
        var u := "\n" + rest;
        forall i | 0 <= i < |u| && u[i] == '\n'
          ensures (i == 0 || !IsRegexSpace(u[i - 1])) && (i + 1 == |u| || !IsRegexSpace(u[i + 1]))
        {
          if i > 0 {
            assert u[i] == rest[i - 1];
          }
        }
      } else {
        var u := s[..n] + rest;
        forall i | 0 <= i < |u| && u[i] == '\n'
          ensures (i == 0 || !IsRegexSpace(u[i - 1])) && (i + 1 == |u| || !IsRegexSpace(u[i + 1]))
        {
          assert i >= n;
          assert u[i] == rest[i - n];
        }
      }
    }
  }

  /** A collapsed text is a fixed point of Collapse. */
  lemma {:induction false} CollapseFixesCollapsed(u: string)
    requires Collapsed(u)
    ensures Collapse(u) == u
    decreases |u|
  {
    if u == [] {
    } else if !IsRegexSpace(u[0]) {
      assert Collapsed(u[1..]) by {
        forall i | 0 <= i < |u[1..]| && u[1..][i] == '\n'
          ensures (i == 0 || !IsRegexSpace(u[1..][i - 1])) && (i + 1 == |u[1..]| || !IsRegexSpace(u[1..][i + 1]))
        {
          assert u[i + 1] == '\n';
        }
      }
      CollapseFixesCollapsed(u[1..]);
    } else {
      var n := RunLength(u);
      assert Collapsed(u[n..]) by {
        forall i | 0 <= i < |u[n..]| && u[n..][i] == '\n'
          ensures (i == 0 || !IsRegexSpace(u[n..][i - 1])) && (i + 1 == |u[n..]| || !IsRegexSpace(u[n..][i + 1]))
        {
          assert u[n + i] == '\n';
        }
      }
      CollapseFixesCollapsed(u[n..]);
      if '\n' in u[..n] {
        forall k | 1 <= k < n ensures u[k] != '\n' {
          assert IsRegexSpace(u[k - 1]);
        }
        assert u[0] == '\n';
        assert 1 == |u| || !IsRegexSpace(u[1]);
        assert u[..n] == "\n";
      }
      SplitAt(u, n);
    }
  }

  /** Collapsing twice is collapsing once. */
  lemma CollapseIdempotent(s: string)
    ensures Collapse(Collapse(s)) == Collapse(s)
  {
    CollapseIsCollapsed(s);
    CollapseFixesCollapsed(Collapse(s));
  }

  /** The normalized text never starts with an IsSpace character. */
  lemma NormalizeStartsVisible(s: string)
    ensures var r := Normalize(s); r == [] || !IsSpace(r[0])
  {
    var t := TrimLeft(s);
    if t != [] {
      assert !IsRegexSpace(t[0]);
    }
  }

  /** In the normalized text no '\n' touches a space, tab, '\r', '\f' or
      another '\n'. */
  lemma NormalizeIsCollapsed(s: string)
    ensures Collapsed(Normalize(s))
  {
    CollapseIsCollapsed(TrimLeft(s));
  }

  /** Normalization is idempotent. */
  lemma NormalizeIdempotent(s: string)
    ensures Normalize(Normalize(s)) == Normalize(s)
  {
    var r := Normalize(s);
    NormalizeStartsVisible(s);
    assert TrimLeft(r) == r;
    NormalizeIsCollapsed(s);
    CollapseFixesCollapsed(r);
  }

  /** A text without whitespace is left as it is. */
  lemma NormalizeWithoutSpace(s: string)
    requires forall i :: 0 <= i < |s| ==> !IsSpace(s[i])
    ensures Normalize(s) == s
  {
    assert TrimLeft(s) == s;
    CollapseWithoutNewline(s);
  }

  /** Normalization removes nothing but whitespace. */
  lemma NormalizeKeepsVisible(s: string)
    ensures Visible(Normalize(s)) == Visible(s)
  {
    var t := TrimLeft(s);
    CollapseKeepsVisible(t);
    var k := |s| - |t|;
    SplitAt(s, k);
    VisibleAppend(s[..k], t);
    VisibleOfRun(s, k);
  }
}
