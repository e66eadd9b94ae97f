/**
 * Text normalisation applied to every clinical note before it reaches the
 * crew and the judge (backend/app/utils/text_utils.py): a character filter,
 * two run-collapsing regular-expression substitutions and `strip()`.
 */
module TextUtils {
  import opened PyStr

  // ---------------------------------------------------------------------
  // Character classes and shape predicates
  // ---------------------------------------------------------------------

  /** The characters `clean_text` keeps: printable ASCII 0x20-0x7E, newline, carriage return, tab. */
  predicate Kept(c: char) {
    (0x20 <= c as int <= 0x7E) || c == '\n' || c == '\r' || c == '\t'
  }

  predicate AllKept(s: string) {
    forall k :: 0 <= k < |s| ==> Kept(s[k])
  }

  /** The characters of `[ \t]`. */
  predicate IsBlank(c: char) {
    c == ' ' || c == '\t'
  }

  predicate NoTab(s: string) {
    forall k :: 0 <= k < |s| ==> s[k] != '\t'
  }

  predicate NoDoubleSpace(s: string) {
    forall k :: 0 <= k < |s| - 1 ==> !(s[k] == ' ' && s[k + 1] == ' ')
  }

  predicate NoTripleNewline(s: string) {
    forall k :: 0 <= k < |s| - 2 ==> !(s[k] == '\n' && s[k + 1] == '\n' && s[k + 2] == '\n')
  }

  /** `r` can be obtained from `s` by deleting characters. */
  predicate IsSubsequence(r: string, s: string)
    decreases |s|
  {
    if s == [] then r == []
    else (r != [] && r[0] == s[0] && IsSubsequence(r[1..], s[1..])) || IsSubsequence(r, s[1..])
  }

  /** `s` with every space and tab removed. */
  function NonBlanks(s: string): string {
    if s == [] then "" else (if IsBlank(s[0]) then "" else [s[0]]) + NonBlanks(s[1..])
  }

  /** `s` with every newline removed. */
  function NonNewlines(s: string): string {
    if s == [] then "" else (if s[0] == '\n' then "" else [s[0]]) + NonNewlines(s[1..])
  }

  // ---------------------------------------------------------------------
  // clean_text
  // ---------------------------------------------------------------------

  /** `re.sub(r'[^\x20-\x7E\n\r\t]', '', text)`: drop every character outside the kept class. */
  function CleanText(s: string): (r: string)
    ensures AllKept(r)
    ensures |r| <= |s|
  {
    if s == [] then "" else (if Kept(s[0]) then [s[0]] else "") + CleanText(s[1..])
  }

  /** Each kept character occurs in the result exactly as often as in the input; no other character occurs. */
  lemma {:induction false} CleanTextCounts(s: string, c: char)
    ensures multiset(CleanText(s))[c] == if Kept(c) then multiset(s)[c] else 0
  {
    if s != [] {
      CleanTextCounts(s[1..], c);
      assert s == [s[0]] + s[1..];
    }
  }

  /** The kept characters keep their original order. */
  lemma {:induction false} CleanTextSubsequence(s: string)
    ensures IsSubsequence(CleanText(s), s)
  {
    if s != [] {
      CleanTextSubsequence(s[1..]);
      var r := CleanText(s);
      if Kept(s[0]) {
        assert r[0] == s[0] && r[1..] == CleanText(s[1..]);
        assert IsSubsequence(r[1..], s[1..]);
      } else {
        assert r == CleanText(s[1..]);
        assert IsSubsequence(r, s[1..]);
      }
    }
  }

  /** `clean_text` changes a string exactly when it holds a character outside the kept class. */
  lemma {:induction false} CleanTextFixpoint(s: string)
    ensures CleanText(s) == s <==> AllKept(s)
  {
    if s != [] {
      CleanTextFixpoint(s[1..]);
      if !Kept(s[0]) {
        assert |CleanText(s)| < |s| by {
          assert CleanText(s) == CleanText(s[1..]);
        }
      }
    }
  }

  lemma CleanTextIdempotent(s: string)
    ensures CleanText(CleanText(s)) == CleanText(s)
  {
    CleanTextFixpoint(CleanText(s));
  }

  /** `clean_text` works character by character, so it distributes over concatenation. */
  lemma {:induction false} CleanTextConcat(a: string, b: string)
    ensures CleanText(a + b) == CleanText(a) + CleanText(b)
  {
    if a != [] {
      assert (a + b)[1..] == a[1..] + b;
      CleanTextConcat(a[1..], b);
    } else {
      assert a + b == b;
    }
  }

  // ---------------------------------------------------------------------
  // Collapsing runs of spaces and tabs: re.sub(r'[ \t]+', ' ', text)
  // ---------------------------------------------------------------------

  /** Length of the run of spaces and tabs at the start of `s`. */
  function BlankRun(s: string): (n: nat)
    ensures n <= |s|
    ensures forall k :: 0 <= k < n ==> IsBlank(s[k])
    ensures n < |s| ==> !IsBlank(s[n])
  {
    if s != [] && IsBlank(s[0]) then 1 + BlankRun(s[1..]) else 0
  }

  /** Every maximal run of spaces and tabs becomes a single space. */
  function CollapseBlanks(s: string): (r: string)
    ensures s == [] <==> r == []
    ensures s != [] ==> r[0] == if IsBlank(s[0]) then ' ' else s[0]
    ensures forall k :: 0 <= k < |r| ==> r[k] == ' ' || r[k] in s
    decreases |s|
  {
    if s == [] then ""
    else if IsBlank(s[0]) then " " + CollapseBlanks(s[BlankRun(s)..])
    else [s[0]] + CollapseBlanks(s[1..])
  }

  lemma NoDoubleSpaceConcat(a: string, b: string)
    requires NoDoubleSpace(a) && NoDoubleSpace(b)
    requires !(a != [] && b != [] && a[|a| - 1] == ' ' && b[0] == ' ')
    ensures NoDoubleSpace(a + b)
  {
    var ab := a + b;
    forall k | 0 <= k < |ab| - 1
      ensures !(ab[k] == ' ' && ab[k + 1] == ' ')
    {
      if k + 1 < |a| {
        assert ab[k] == a[k] && ab[k + 1] == a[k + 1];
      } else if k >= |a| {
        assert ab[k] == b[k - |a|] && ab[k + 1] == b[k - |a| + 1];
      }
    }
  }

  /** After the substitution there is no tab and no two adjacent spaces. */
  lemma {:induction false} CollapseBlanksShape(s: string)
    ensures NoTab(CollapseBlanks(s)) && NoDoubleSpace(CollapseBlanks(s))
    decreases |s|
  {
    if s != [] {
      var r := CollapseBlanks(s);
      if IsBlank(s[0]) {
        var rest := s[BlankRun(s)..];
        CollapseBlanksShape(rest);
        var tail := CollapseBlanks(rest);
        assert r == " " + tail;
        assert tail != [] ==> tail[0] != ' ' && tail[0] != '\t';
        NoDoubleSpaceConcat(" ", tail);
      } else {
        CollapseBlanksShape(s[1..]);
        NoDoubleSpaceConcat([s[0]], CollapseBlanks(s[1..]));
      }
    }
  }

  /** The substitution leaves a string unchanged exactly when it has no tab and no two adjacent spaces. */
  lemma {:induction false} CollapseBlanksFixpoint(s: string)
    ensures CollapseBlanks(s) == s <==> NoTab(s) && NoDoubleSpace(s)
    decreases |s|
  {
    CollapseBlanksShape(s);
    if s != [] && NoTab(s) && NoDoubleSpace(s) {
      CollapseBlanksFixpoint(s[1..]);
      if IsBlank(s[0]) {
        assert BlankRun(s) == 1 by {
          assert s[0] == ' ';
          if |s| > 1 { assert !IsBlank(s[1]); }
        }
      }
    }
  }

  lemma {:induction false} NonBlanksConcat(a: string, b: string)
    ensures NonBlanks(a + b) == NonBlanks(a) + NonBlanks(b)
  {
    if a != [] {
      assert (a + b)[1..] == a[1..] + b;
      NonBlanksConcat(a[1..], b);
    } else {
      assert a + b == b;
    }
  }

  lemma {:induction false} NonBlanksSkipRun(s: string, n: nat)
    requires n <= |s|
    requires forall k :: 0 <= k < n ==> IsBlank(s[k])
    ensures NonBlanks(s) == NonBlanks(s[n..])
  {
    if n > 0 {
      NonBlanksSkipRun(s[1..], n - 1);
      assert s[1..][n - 1..] == s[n..];
    }
  }

  /** Every character other than space and tab survives, in order. */
  lemma {:induction false} CollapseBlanksKeepsText(s: string)
    ensures NonBlanks(CollapseBlanks(s)) == NonBlanks(s)
    decreases |s|
  {
    if s != [] {
      if IsBlank(s[0]) {
        var n := BlankRun(s);
        CollapseBlanksKeepsText(s[n..]);
        NonBlanksConcat(" ", CollapseBlanks(s[n..]));
        NonBlanksSkipRun(s, n);
      } else {
        CollapseBlanksKeepsText(s[1..]);
        NonBlanksConcat([s[0]], CollapseBlanks(s[1..]));
      }
    }
  }

  lemma {:induction false} BlankRunOfRun(w: string, b: string)
    requires forall k :: 0 <= k < |w| ==> IsBlank(w[k])
    requires b == [] || !IsBlank(b[0])
    ensures BlankRun(w + b) == |w|
    decreases |w|
  {
    if w != [] {
      assert (w + b)[1..] == w[1..] + b;
      BlankRunOfRun(w[1..], b);
    } else {
      assert w + b == b;
    }
  }

  lemma {:induction false} BlankRunPrefix(a: string, c: string)
    requires BlankRun(a) < |a|
    ensures BlankRun(a + c) == BlankRun(a)
    decreases |a|
  {
    if IsBlank(a[0]) {
      assert (a + c)[1..] == a[1..] + c;
      BlankRunPrefix(a[1..], c);
    }
  }

  /** Text that does not end in a space or tab is collapsed independently of what follows. */
  lemma {:induction false} CollapseBlanksSplit(a: string, c: string)
    requires a == [] || !IsBlank(a[|a| - 1])
    ensures CollapseBlanks(a + c) == CollapseBlanks(a) + CollapseBlanks(c)
    decreases |a|
  {
    if a == [] {
      assert a + c == c;
    } else if IsBlank(a[0]) {
      var n := BlankRun(a);
      assert !IsBlank(a[|a| - 1]);
      assert n < |a|;
      BlankRunPrefix(a, c);
      assert (a + c)[n..] == a[n..] + c;
      CollapseBlanksUnfold(a, n);
      CollapseBlanksUnfold(a + c, n);
      CollapseBlanksSplit(a[n..], c);
      ConcatAssoc(" ", CollapseBlanks(a[n..]), CollapseBlanks(c));
    } else {
      assert (a + c)[1..] == a[1..] + c;
      CollapseBlanksSplit(a[1..], c);
      ConcatAssoc([a[0]], CollapseBlanks(a[1..]), CollapseBlanks(c));
    }
  }

  /**
   * Each maximal run of spaces and tabs, whatever its length and mix,
   * becomes exactly one space, and the text around it is collapsed on its
   * own.
   */
  lemma CollapseBlanksRun(a: string, w: string, b: string)
    requires a == [] || !IsBlank(a[|a| - 1])
    requires w != [] && forall k :: 0 <= k < |w| ==> IsBlank(w[k])
    requires b == [] || !IsBlank(b[0])
    ensures CollapseBlanks(a + w + b) == CollapseBlanks(a) + " " + CollapseBlanks(b)
  {
    ConcatAssoc(a, w, b);
    CollapseBlanksSplit(a, w + b);
    BlankRunOfRun(w, b);
    assert (w + b)[0] == w[0];
    assert (w + b)[|w|..] == b;
    CollapseBlanksUnfold(w + b, |w|);
    ConcatAssoc(CollapseBlanks(a), " ", CollapseBlanks(b));
  }

  /** One step of `CollapseBlanks` over a leading run of `n` blanks. */
  lemma CollapseBlanksUnfold(s: string, n: nat)
    requires s != [] && IsBlank(s[0]) && n == BlankRun(s)
    ensures CollapseBlanks(s) == " " + CollapseBlanks(s[n..])
  {
  }

  // ---------------------------------------------------------------------
  // Collapsing runs of newlines: re.sub(r'\n{3,}', '\n\n', text)
  // ---------------------------------------------------------------------

  /** Length of the run of newlines at the start of `s`. */
  function NewlineRun(s: string): (n: nat)
    ensures n <= |s|
    ensures forall k :: 0 <= k < n ==> s[k] == '\n'
    ensures n < |s| ==> s[n] != '\n'
  {
    if s != [] && s[0] == '\n' then 1 + NewlineRun(s[1..]) else 0
  }

  /** Every maximal run of three or more newlines becomes exactly two; shorter runs stay. */
  function CollapseNewlines(s: string): (r: string)
    ensures s == [] <==> r == []
    ensures s != [] ==> r[0] == s[0]
    decreases |s|
  {
    if s == [] then ""
    else if s[0] == '\n' then
      var n := NewlineRun(s);
      (if n >= 3 then "\n\n" else s[..n]) + CollapseNewlines(s[n..])
    else [s[0]] + CollapseNewlines(s[1..])
  }

  lemma {:induction false} SubsequenceSkip(r: string, s: string, n: nat)
    requires n <= |s|
    requires IsSubsequence(r, s[n..])
    ensures IsSubsequence(r, s)
  {
    if n > 0 {
      assert s[1..][n - 1..] == s[n..];
      SubsequenceSkip(r, s[1..], n - 1);
    }
  }

  lemma {:induction false} SubsequencePrefix(p: string, r: string, s: string)
    requires |p| <= |s| && s[..|p|] == p
    requires IsSubsequence(r, s[|p|..])
    ensures IsSubsequence(p + r, s)
  {
    if p != [] {
      assert (p + r)[0] == s[0];
      assert (p + r)[1..] == p[1..] + r;
      assert s[1..][..|p| - 1] == p[1..];
      assert s[1..][|p| - 1..] == s[|p|..];
      SubsequencePrefix(p[1..], r, s[1..]);
    } else {
      assert p + r == r;
    }
  }

  /** Only newlines are removed: the result is a subsequence of the input. */
  lemma {:induction false} CollapseNewlinesSubsequence(s: string)
    ensures IsSubsequence(CollapseNewlines(s), s)
    decreases |s|
  {
    if s != [] {
      if s[0] == '\n' {
        var n := NewlineRun(s);
        CollapseNewlinesSubsequence(s[n..]);
        var tail := CollapseNewlines(s[n..]);
        if n >= 3 {
          assert s[2..][n - 2..] == s[n..];
          SubsequenceSkip(tail, s[2..], n - 2);
          assert s[..2] == "\n\n";
          SubsequencePrefix("\n\n", tail, s);
        } else {
          SubsequencePrefix(s[..n], tail, s);
        }
      } else {
        CollapseNewlinesSubsequence(s[1..]);
        SubsequencePrefix([s[0]], CollapseNewlines(s[1..]), s);
      }
    }
  }

  lemma SubsequenceChars(r: string, s: string)
    requires IsSubsequence(r, s)
    ensures forall k :: 0 <= k < |r| ==> r[k] in s
    decreases |s|
  {
    if s != [] {
      if r != [] && r[0] == s[0] && IsSubsequence(r[1..], s[1..]) {
        SubsequenceChars(r[1..], s[1..]);
        forall k | 1 <= k < |r| ensures r[k] in s {
          assert r[k] == r[1..][k - 1];
        }
      } else {
        SubsequenceChars(r, s[1..]);
      }
    }
  }

  lemma NoTripleNewlineConcat(a: string, b: string)
    requires NoTripleNewline(a) && NoTripleNewline(b)
    requires !(a != [] && b != [] && a[|a| - 1] == '\n' && b[0] == '\n')
    ensures NoTripleNewline(a + b)
  {
    var ab := a + b;
    forall k | 0 <= k < |ab| - 2
      ensures !(ab[k] == '\n' && ab[k + 1] == '\n' && ab[k + 2] == '\n')
    {
      if k + 2 < |a| {
        assert ab[k] == a[k] && ab[k + 1] == a[k + 1] && ab[k + 2] == a[k + 2];
      } else if k >= |a| {
        assert ab[k] == b[k - |a|] && ab[k + 1] == b[k - |a| + 1] && ab[k + 2] == b[k - |a| + 2];
      } else if k + 1 == |a| {
        assert ab[k] == a[|a| - 1] && ab[k + 1] == b[0];
      } else {
        assert ab[k + 1] == a[|a| - 1] && ab[k + 2] == b[0];
      }
    }
  }

  /** After the substitution no three newlines are adjacent. */
  lemma {:induction false} CollapseNewlinesShape(s: string)
    ensures NoTripleNewline(CollapseNewlines(s))
    decreases |s|
  {
    if s != [] {
      if s[0] == '\n' {
        var n := NewlineRun(s);
        CollapseNewlinesShape(s[n..]);
        var piece: string := if n >= 3 then "\n\n" else s[..n];
        assert |piece| <= 2;
        NoTripleNewlineConcat(piece, CollapseNewlines(s[n..]));
      } else {
        CollapseNewlinesShape(s[1..]);
        NoTripleNewlineConcat([s[0]], CollapseNewlines(s[1..]));
      }
    }
  }

  /** The substitution leaves a string unchanged exactly when no three newlines are adjacent. */
  lemma CollapseNewlinesFixpoint(s: string)
    ensures CollapseNewlines(s) == s <==> NoTripleNewline(s)
  {
    CollapseNewlinesShape(s);
    if NoTripleNewline(s) {
      CollapseNewlinesIdentity(s);
    }
  }

  lemma {:induction false} CollapseNewlinesIdentity(s: string)
    requires NoTripleNewline(s)
    ensures CollapseNewlines(s) == s
    decreases |s|
  {
    if s != [] {
      if s[0] == '\n' {
        var n := NewlineRun(s);
        assert |s| > 2 ==> !(s[0] == '\n' && s[1] == '\n' && s[2] == '\n');
        assert n < 3;
        NoTripleNewlineSuffix(s, n);
        CollapseNewlinesIdentity(s[n..]);
        CollapseNewlinesUnfold(s, n, s[..n]);
        assert s == s[..n] + s[n..];
      } else {
        NoTripleNewlineSuffix(s, 1);
        CollapseNewlinesIdentity(s[1..]);
        assert s == [s[0]] + s[1..];
      }
    }
  }

  lemma NoTripleNewlineSuffix(s: string, n: nat)
    requires n <= |s| && NoTripleNewline(s)
    ensures NoTripleNewline(s[n..])
  {
    forall k | 0 <= k < |s[n..]| - 2
      ensures !(s[n..][k] == '\n' && s[n..][k + 1] == '\n' && s[n..][k + 2] == '\n')
    {
      assert s[n..][k] == s[n + k] && s[n..][k + 1] == s[n + k + 1] && s[n..][k + 2] == s[n + k + 2];
    }
  }

  /** Collapsing newline runs cannot make two spaces adjacent. */
  lemma {:induction false} CollapseNewlinesKeepsSingleSpaces(s: string)
    requires NoDoubleSpace(s)
    ensures NoDoubleSpace(CollapseNewlines(s))
    decreases |s|
  {
    if s != [] {
      if s[0] == '\n' {
        var n := NewlineRun(s);
        CollapseNewlinesKeepsSingleSpaces(s[n..]);
        var piece: string := if n >= 3 then "\n\n" else s[..n];
        assert forall k :: 0 <= k < |piece| ==> piece[k] == '\n';
        NoDoubleSpaceConcat(piece, CollapseNewlines(s[n..]));
      } else {
        CollapseNewlinesKeepsSingleSpaces(s[1..]);
        NoDoubleSpaceConcat([s[0]], CollapseNewlines(s[1..]));
      }
    }
  }

  lemma {:induction false} NonNewlinesConcat(a: string, b: string)
    ensures NonNewlines(a + b) == NonNewlines(a) + NonNewlines(b)
  {
    if a != [] {
      assert (a + b)[1..] == a[1..] + b;
      NonNewlinesConcat(a[1..], b);
    } else {
      assert a + b == b;
    }
  }

  lemma {:induction false} NonNewlinesOfNewlines(s: string)
    requires forall k :: 0 <= k < |s| ==> s[k] == '\n'
    ensures NonNewlines(s) == ""
  {
    if s != [] {
      NonNewlinesOfNewlines(s[1..]);
    }
  }

  /** Every character other than newline survives, in order. */
  lemma {:induction false} CollapseNewlinesKeepsText(s: string)
    ensures NonNewlines(CollapseNewlines(s)) == NonNewlines(s)
    decreases |s|
  {
    if s != [] {
      if s[0] == '\n' {
        var n := NewlineRun(s);
        CollapseNewlinesKeepsText(s[n..]);
        var piece: string := if n >= 3 then "\n\n" else s[..n];
        NonNewlinesConcat(piece, CollapseNewlines(s[n..]));
        NonNewlinesOfNewlines(piece);
        NonNewlinesOfNewlines(s[..n]);
        assert s == s[..n] + s[n..];
        NonNewlinesConcat(s[..n], s[n..]);
      } else {
        CollapseNewlinesKeepsText(s[1..]);
        NonNewlinesConcat([s[0]], CollapseNewlines(s[1..]));
      }
    }
  }

  lemma {:induction false} NewlineRunOfRun(nl: string, b: string)
    requires forall k :: 0 <= k < |nl| ==> nl[k] == '\n'
    requires b == [] || b[0] != '\n'
    ensures NewlineRun(nl + b) == |nl|
    decreases |nl|
  {
    if nl != [] {
      assert (nl + b)[1..] == nl[1..] + b;
      NewlineRunOfRun(nl[1..], b);
    } else {
      assert nl + b == b;
    }
  }

  lemma {:induction false} NewlineRunPrefix(a: string, c: string)
    requires NewlineRun(a) < |a|
    ensures NewlineRun(a + c) == NewlineRun(a)
    decreases |a|
  {
    if a[0] == '\n' {
      assert (a + c)[1..] == a[1..] + c;
      NewlineRunPrefix(a[1..], c);
    }
  }

  /** Text that does not end in a newline is collapsed independently of what follows. */
  lemma {:induction false} CollapseNewlinesSplit(a: string, c: string)
    requires a == [] || a[|a| - 1] != '\n'
    ensures CollapseNewlines(a + c) == CollapseNewlines(a) + CollapseNewlines(c)
    decreases |a|, 1
  {
    if a == [] {
      assert a + c == c;
    } else if a[0] == '\n' {
      CollapseNewlinesSplitRun(a, c);
    } else {
      assert (a + c)[1..] == a[1..] + c;
      CollapseNewlinesSplit(a[1..], c);
      ConcatAssoc([a[0]], CollapseNewlines(a[1..]), CollapseNewlines(c));
    }
  }

  /** The case of `CollapseNewlinesSplit` where the text opens with a newline run. */
  lemma {:induction false} CollapseNewlinesSplitRun(a: string, c: string)
    requires a != [] && a[0] == '\n' && a[|a| - 1] != '\n'
    ensures CollapseNewlines(a + c) == CollapseNewlines(a) + CollapseNewlines(c)
    decreases |a|, 0
  {
    var n := NewlineRun(a);
    assert n < |a|;
    NewlineRunPrefix(a, c);
    assert (a + c)[n..] == a[n..] + c;
    assert (a + c)[..n] == a[..n];
    var piece: string := if n >= 3 then "\n\n" else a[..n];
    CollapseNewlinesUnfold(a, n, piece);
    CollapseNewlinesUnfold(a + c, n, piece);
    CollapseNewlinesSplit(a[n..], c);
    ConcatAssoc(piece, CollapseNewlines(a[n..]), CollapseNewlines(c));
  }

  lemma ConcatAssoc(x: string, y: string, z: string)
    ensures x + (y + z) == (x + y) + z
  {
  }

  /** One step of `CollapseNewlines` over a leading run of `n` newlines. */
  lemma CollapseNewlinesUnfold(s: string, n: nat, piece: string)
    requires s != [] && s[0] == '\n' && n == NewlineRun(s)
    requires piece == if n >= 3 then "\n\n" else s[..n]
    ensures CollapseNewlines(s) == piece + CollapseNewlines(s[n..])
  {
  }

  /**
   * Each maximal run of three or more newlines becomes exactly "\n\n", a
   * run of one or two newlines stays as it is, and the text around it is
   * collapsed on its own.
   */
  lemma CollapseNewlinesRun(a: string, nl: string, b: string)
    requires a == [] || a[|a| - 1] != '\n'
    requires nl != [] && forall k :: 0 <= k < |nl| ==> nl[k] == '\n'
    requires b == [] || b[0] != '\n'
    ensures CollapseNewlines(a + nl + b) == CollapseNewlines(a) + (if |nl| >= 3 then "\n\n" else nl) + CollapseNewlines(b)
  {
    assert a + nl + b == a + (nl + b);
    CollapseNewlinesSplit(a, nl + b);
    NewlineRunOfRun(nl, b);
    assert (nl + b)[0] == nl[0];
    assert (nl + b)[|nl|..] == b;
    assert (nl + b)[..|nl|] == nl;
    var piece: string := if |nl| >= 3 then "\n\n" else nl;
    CollapseNewlinesUnfold(nl + b, |nl|, piece);
    ConcatAssoc(CollapseNewlines(a), piece, CollapseNewlines(b));
  }

  // ---------------------------------------------------------------------
  // normalize_whitespace and preprocess_medical_text
  // ---------------------------------------------------------------------

  /** `normalize_whitespace`: collapse space/tab runs, then newline runs, then `strip()`. */
  function NormalizeWhitespace(s: string): string {
    Strip(CollapseNewlines(CollapseBlanks(s)))
  }

  /** `preprocess_medical_text`. */
  function PreprocessMedicalText(s: string): string {
    NormalizeWhitespace(CleanText(s))
  }

  /** Each shape predicate survives taking an infix, which is what `strip()` does. */
  lemma InfixKeepsShape(s: string, i: nat, j: nat)
    requires i <= j <= |s|
    ensures NoTab(s) ==> NoTab(s[i..j])
    ensures NoDoubleSpace(s) ==> NoDoubleSpace(s[i..j])
    ensures NoTripleNewline(s) ==> NoTripleNewline(s[i..j])
    ensures AllKept(s) ==> AllKept(s[i..j])
  {
    var t := s[i..j];
    assert forall k :: 0 <= k < |t| ==> t[k] == s[i + k];
  }

  /** The shape `normalize_whitespace` guarantees for any input. */
  predicate Normalized(s: string) {
    NoTab(s) && NoDoubleSpace(s) && NoTripleNewline(s) && Trimmed(s)
  }

  /**
   * `normalize_whitespace` yields no tab, no two adjacent spaces, no three
   * adjacent newlines, and no leading or trailing whitespace.
   */
  lemma NormalizeWhitespaceShape(s: string)
    ensures Normalized(NormalizeWhitespace(s))
  {
    var b := CollapseBlanks(s);
    CollapseBlanksShape(s);
    CollapseNewlinesShape(b);
    CollapseNewlinesKeepsSingleSpaces(b);
    CollapseNewlinesSubsequence(b);
    var c := CollapseNewlines(b);
    SubsequenceChars(c, b);
    assert NoTab(c);
    InfixKeepsShape(c, StripBounds(c).0, StripBounds(c).1);
  }

  /** On an already normalised string `normalize_whitespace` is the identity. */
  lemma NormalizeWhitespaceFixpoint(s: string)
    requires Normalized(s)
    ensures NormalizeWhitespace(s) == s
  {
    CollapseBlanksFixpoint(s);
    CollapseNewlinesFixpoint(s);
    StripFixpoint(s);
  }

  lemma NormalizeWhitespaceIdempotent(s: string)
    ensures NormalizeWhitespace(NormalizeWhitespace(s)) == NormalizeWhitespace(s)
  {
    NormalizeWhitespaceShape(s);
    NormalizeWhitespaceFixpoint(NormalizeWhitespace(s));
  }

  /** Normalising an all-kept string keeps it all-kept: only spaces are introduced. */
  lemma NormalizeWhitespaceKeepsKept(s: string)
    requires AllKept(s)
    ensures AllKept(NormalizeWhitespace(s))
  {
    var b := CollapseBlanks(s);
    assert AllKept(b);
    CollapseNewlinesSubsequence(b);
    var c := CollapseNewlines(b);
    SubsequenceChars(c, b);
    assert AllKept(c);
    InfixKeepsShape(c, StripBounds(c).0, StripBounds(c).1);
  }

  /**
   * The preprocessed text holds only printable ASCII, newline and carriage
   * return, and has the normalised shape.
   */
  lemma PreprocessMedicalTextShape(s: string)
    ensures var r := PreprocessMedicalText(s);
      (forall k :: 0 <= k < |r| ==> (0x20 <= r[k] as int <= 0x7E) || r[k] == '\n' || r[k] == '\r')
      && Normalized(r)
  {
    NormalizeWhitespaceShape(CleanText(s));
    NormalizeWhitespaceKeepsKept(CleanText(s));
  }

  /** Preprocessing twice is the same as preprocessing once. */
  lemma PreprocessMedicalTextIdempotent(s: string)
    ensures PreprocessMedicalText(PreprocessMedicalText(s)) == PreprocessMedicalText(s)
  {
    var r := PreprocessMedicalText(s);
    PreprocessMedicalTextShape(s);
    NormalizeWhitespaceKeepsKept(CleanText(s));
    CleanTextFixpoint(r);
    NormalizeWhitespaceFixpoint(r);
  }
}
