/** String operations the handlers perform with regular expressions and
    `String.prototype` methods, written out over `seq<char>`. */
module Text {

  /** The characters matched by `\s` in a JavaScript regular expression; the
      same set is removed by `String.prototype.trim`. */
  predicate IsSpace(c: char) {
    || c == ' ' || c == '\t' || c == '\n' || c == '\U{0B}' || c == '\U{0C}' || c == '\r'
    || c == '\U{A0}' || c == '\U{1680}' || ('\U{2000}' <= c <= '\U{200A}')
    || c == '\U{2028}' || c == '\U{2029}' || c == '\U{202F}' || c == '\U{205F}'
    || c == '\U{3000}' || c == '\U{FEFF}'
  }

  /** The characters of the class `[\r\n]`. */
  predicate IsLineBreak(c: char) {
    c == '\r' || c == '\n'
  }

  /** The two character classes whose runs the handlers replace by one space. */
  datatype CharClass = Whitespace | LineBreak

  predicate In(c: char, cls: CharClass) {
    match cls
    case Whitespace => IsSpace(c)
    case LineBreak => IsLineBreak(c)
  }

  function Min(a: int, b: int): int {
    if a <= b then a else b
  }

  /** `s.slice(0, n)`: the first `n` characters, or all of `s` when shorter. */
  function Take(s: string, n: nat): (r: string)
    ensures |r| == Min(n, |s|)
    ensures |r| <= n && |r| <= |s|
    ensures r == s[..|r|]
    ensures |s| <= n ==> r == s
  {
    s[..Min(n, |s|)]
  }

  predicate StartsWith(s: string, prefix: string) {
    |prefix| <= |s| && s[..|prefix|] == prefix
  }

  /** The length of the leading run of characters of class `cls`. */
  function LeadingRun(s: string, cls: CharClass): (n: nat)
    ensures n <= |s|
    ensures forall i :: 0 <= i < n ==> In(s[i], cls)
    ensures n == |s| || !In(s[n], cls)
  {
    if s != [] && In(s[0], cls) then 1 + LeadingRun(s[1..], cls) else 0
  }

  /** The length of `s` without its trailing run of characters of class `cls`. */
  function KeptBeforeTrailingRun(s: string, cls: CharClass): (n: nat)
    ensures n <= |s|
    ensures forall i :: n <= i < |s| ==> In(s[i], cls)
    ensures n == 0 || !In(s[n - 1], cls)
  {
    if s != [] && In(s[|s| - 1], cls) then KeptBeforeTrailingRun(s[..|s| - 1], cls) else |s|
  }

  /** Removes the leading run of characters of class `cls`
      (`trimStart` when the class is whitespace). */
  function DropLeading(s: string, cls: CharClass): (r: string)
    ensures |r| <= |s| && r == s[|s| - |r|..]
    ensures r == [] || !In(r[0], cls)
    ensures forall i :: 0 <= i < |s| - |r| ==> In(s[i], cls)
  {
    s[LeadingRun(s, cls)..]
  }

  /** Removes the trailing run of characters of class `cls`. */
  function DropTrailing(s: string, cls: CharClass): (r: string)
    ensures |r| <= |s| && r == s[..|r|]
    ensures r == [] || !In(r[|r| - 1], cls)
    ensures forall i :: |r| <= i < |s| ==> In(s[i], cls)
  {
    s[..KeptBeforeTrailingRun(s, cls)]
  }

  /** `s.trim()`. */
  function Trim(s: string): (r: string)
    ensures r == [] || (!IsSpace(r[0]) && !IsSpace(r[|r| - 1]))
    ensures exists lo, hi ::
      && 0 <= lo <= hi <= |s| && r == s[lo..hi]
      && (forall i :: 0 <= i < lo ==> IsSpace(s[i]))
      && (forall i :: hi <= i < |s| ==> IsSpace(s[i]))
  {
    var lead := DropLeading(s, Whitespace);
    var r := DropTrailing(lead, Whitespace);
    var lo := |s| - |lead|;
    assert lead == s[lo..] && r == s[lo..lo + |r|];
    assert forall i :: lo + |r| <= i < |s| ==> s[i] == lead[i - lo];
    r
  }

  /** No two neighbouring characters are both of class `cls`. */
  ghost predicate NoAdjacent(s: string, cls: CharClass) {
    forall i, j :: 0 <= i && j == i + 1 && j < |s| ==> !(In(s[i], cls) && In(s[j], cls))
  }

  /** Every character of class `cls` is a plain space. */
  predicate OnlySpaces(s: string, cls: CharClass) {
    forall i :: 0 <= i < |s| && In(s[i], cls) ==> s[i] == ' '
  }

  /** A trimmed and cut text is a slice of the original, starting at `lo`. */
  lemma TrimmedIsSlice(s: string, n: nat) returns (lo: nat)
    ensures lo + |Take(Trim(s), n)| <= |s|
    ensures Take(Trim(s), n) == s[lo..lo + |Take(Trim(s), n)|]
  {
    var lead := DropLeading(s, Whitespace);
    var t := DropTrailing(lead, Whitespace);
    var m := Take(t, n);
    lo := |s| - |lead|;
    assert lead == s[lo..];
    assert t == s[lo..lo + |t|];
    assert m == s[lo..lo + |m|];
  }

  /** `s.replace(/X+/g, " ")` for the class X: every maximal run of class
      characters becomes a single space, every other character is kept. */
  function Collapse(s: string, cls: CharClass): (r: string)
    ensures |r| <= |s|
    ensures r == [] <==> s == []
    ensures s != [] ==> r[0] == (if In(s[0], cls) then ' ' else s[0])
    ensures OnlySpaces(r, cls) && NoAdjacent(r, cls)
    decreases |s|
  {
    if s == [] then []
    else if In(s[0], cls) then [' '] + Collapse(DropLeading(s, cls), cls)
    else [s[0]] + Collapse(s[1..], cls)
  }


  /** The leading run is the one ending at the first non-class character. */
  lemma LeadingRunIs(s: string, cls: CharClass, n: nat)
    requires n <= |s| && forall i :: 0 <= i < n ==> In(s[i], cls)
    requires n == |s| || !In(s[n], cls)
    ensures LeadingRun(s, cls) == n
  {
  }

  /** The kept part is the one ending at the last non-class character. */
  lemma KeptBeforeTrailingRunIs(s: string, cls: CharClass, n: nat)
    requires n <= |s| && forall i :: n <= i < |s| ==> In(s[i], cls)
    requires n == 0 || !In(s[n - 1], cls)
    ensures KeptBeforeTrailingRun(s, cls) == n
  {
  }

  /** A leading run stops at the first non-class character of `a`, whatever
      follows `a`. */
  lemma DropLeadingConcat(a: string, b: string, cls: CharClass)
    requires a != [] && !In(a[|a| - 1], cls)
    ensures DropLeading(a + b, cls) == DropLeading(a, cls) + b
  {
    var n := LeadingRun(a, cls);
    assert n < |a|;
    assert (a + b)[n] == a[n];
    assert forall i :: 0 <= i < n ==> (a + b)[i] == a[i];
    LeadingRunIs(a + b, cls, n);
    assert (a + b)[n..] == a[n..] + b;
  }

  /** A trailing run stops at the last non-class character of `b`, whatever
      precedes `b`. */
  lemma DropTrailingConcat(a: string, b: string, cls: CharClass)
    requires b != [] && !In(b[0], cls)
    ensures DropTrailing(a + b, cls) == a + DropTrailing(b, cls)
  {
    var n := KeptBeforeTrailingRun(b, cls);
    assert n > 0;
    assert (a + b)[|a| + n - 1] == b[n - 1];
    assert forall i :: |a| + n <= i < |a| + |b| ==> (a + b)[i] == b[i - |a|];
    KeptBeforeTrailingRunIs(a + b, cls, |a| + n);
    assert (a + b)[..|a| + n] == a + b[..n];
  }

  /** A text without class characters is left as it is. */
  lemma {:induction false} CollapseClassFree(s: string, cls: CharClass)
    requires forall i :: 0 <= i < |s| ==> !In(s[i], cls)
    ensures Collapse(s, cls) == s
    decreases |s|
  {
    if s != [] {
      CollapseClassFree(s[1..], cls);
      assert [s[0]] + s[1..] == s;
    }
  }

  /** A run of class characters, up to the next other character, becomes
      exactly one space. */
  lemma CollapseRunThen(w: string, b: string, cls: CharClass)
    requires w != [] && forall i :: 0 <= i < |w| ==> In(w[i], cls)
    requires b == [] || !In(b[0], cls)
    ensures Collapse(w + b, cls) == [' '] + Collapse(b, cls)
  {
    var s := w + b;
    assert s[0] == w[0];
    assert forall i :: 0 <= i < |w| ==> s[i] == w[i];
    assert |w| < |s| ==> s[|w|] == b[0];
    LeadingRunIs(s, cls, |w|);
    assert s[|w|..] == b;
  }

  /** Collapsing distributes over a split just after a non-class character. */
  lemma {:induction false} CollapseConcat(a: string, b: string, cls: CharClass)
    requires a == [] || !In(a[|a| - 1], cls)
    ensures Collapse(a + b, cls) == Collapse(a, cls) + Collapse(b, cls)
    decreases |a|
  {
    if a == [] {
      assert a + b == b;
    } else if In(a[0], cls) {
      var rest := DropLeading(a, cls);
      DropLeadingConcat(a, b, cls);
      assert rest != [] && rest[|rest| - 1] == a[|a| - 1];
      assert |rest| < |a|;
      CollapseConcat(rest, b, cls);
      assert (a + b)[0] == a[0];
      assert Collapse(a + b, cls) == [' '] + Collapse(rest + b, cls);
      Associative([' '], Collapse(rest, cls), Collapse(b, cls));
    } else {
      assert (a + b)[1..] == a[1..] + b;
      CollapseConcat(a[1..], b, cls);
      assert (a + b)[0] == a[0];
      assert Collapse(a + b, cls) == [a[0]] + Collapse(a[1..] + b, cls);
      Associative([a[0]], Collapse(a[1..], cls), Collapse(b, cls));
    }
  }

  /** A text ending in a non-class character keeps that last character. */
  lemma {:induction false} CollapseKeepsLast(s: string, cls: CharClass)
    requires s != [] && !In(s[|s| - 1], cls)
    ensures Collapse(s, cls) != [] && Collapse(s, cls)[|Collapse(s, cls)| - 1] == s[|s| - 1]
    decreases |s|
  {
    if In(s[0], cls) {
      var rest := DropLeading(s, cls);
      assert rest != [] && rest[|rest| - 1] == s[|s| - 1];
      assert |rest| < |s|;
      CollapseKeepsLast(rest, cls);
    } else if |s| > 1 {
      CollapseKeepsLast(s[1..], cls);
    }
  }

  /** Every maximal run of class characters becomes exactly one space: the
      text before it and the text after it collapse on their own. */
  lemma RunBecomesOneSpace(a: string, w: string, b: string, cls: CharClass)
    requires a == [] || !In(a[|a| - 1], cls)
    requires w != [] && forall i :: 0 <= i < |w| ==> In(w[i], cls)
    requires b == [] || !In(b[0], cls)
    ensures Collapse(a + w + b, cls) == Collapse(a, cls) + [' '] + Collapse(b, cls)
  {
    var t := w + b;
    CollapseConcat(a, t, cls);
    CollapseRunThen(w, b, cls);
    Associative(a, w, b);
    Associative(Collapse(a, cls), [' '], Collapse(b, cls));
  }

  lemma Associative(x: string, y: string, z: string)
    ensures x + (y + z) == x + y + z
  {
  }

  /** `s.replace(/\s+/g, " ").trim()`. */
  function Squeeze(s: string): string {
    Trim(Collapse(s, Whitespace))
  }

  /** A text free of whitespace squeezes to itself. */
  lemma SqueezeClassFree(s: string)
    requires forall i :: 0 <= i < |s| ==> !IsSpace(s[i])
    ensures Squeeze(s) == s
  {
    assert forall i :: 0 <= i < |s| ==> !In(s[i], Whitespace);
    CollapseClassFree(s, Whitespace);
    assert DropLeading(s, Whitespace) == s;
  }

  /** Two pieces separated by whitespace squeeze to their own squeezed
      forms joined by exactly one space. */
  lemma SqueezeJoins(a: string, w: string, b: string)
    requires a != [] && !IsSpace(a[|a| - 1])
    requires w != [] && forall i :: 0 <= i < |w| ==> IsSpace(w[i])
    requires b != [] && !IsSpace(b[0])
    ensures Squeeze(a + w + b) == Squeeze(a) + [' '] + Squeeze(b)
  {
    var ca := Collapse(a, Whitespace);
    var cb := Collapse(b, Whitespace);
    assert forall i :: 0 <= i < |w| ==> In(w[i], Whitespace);
    RunBecomesOneSpace(a, w, b, Whitespace);
    CollapseKeepsLast(a, Whitespace);
    assert cb != [] && cb[0] == b[0];
    var la := DropLeading(ca, Whitespace);
    Associative(ca, [' '], cb);
    DropLeadingConcat(ca, [' '] + cb, Whitespace);
    assert la != [] && la[|la| - 1] == ca[|ca| - 1];
    Associative(la, [' '], cb);
    DropTrailingConcat(la + [' '], cb, Whitespace);
    assert DropTrailing(la, Whitespace) == la;
    assert DropLeading(cb, Whitespace) == cb;
  }

  /** A character that the replacements above neither remove nor insert. */
  predicate Visible(c: char, cls: CharClass) {
    !In(c, cls) && c != ' '
  }

  /** The visible characters of `s`, in order: what every collapse keeps. */
  function VisibleText(s: string, cls: CharClass): string {
    if s == [] then [] else (if Visible(s[0], cls) then [s[0]] else []) + VisibleText(s[1..], cls)
  }

  lemma {:induction false} VisibleTextConcat(a: string, b: string, cls: CharClass)
    ensures VisibleText(a + b, cls) == VisibleText(a, cls) + VisibleText(b, cls)
  {
    if a == [] {
      assert a + b == b;
    } else {
      assert (a + b)[1..] == a[1..] + b;
      VisibleTextConcat(a[1..], b, cls);
    }
  }

  lemma {:induction false} VisibleTextOfClassRun(s: string, cls: CharClass)
    requires forall i :: 0 <= i < |s| ==> In(s[i], cls)
    ensures VisibleText(s, cls) == []
  {
    if s != [] {
      VisibleTextOfClassRun(s[1..], cls);
    }
  }

  /** Dropping a leading run of class characters keeps the visible text. */
  lemma DropLeadingKeepsVisible(s: string, cls: CharClass)
    ensures VisibleText(DropLeading(s, cls), cls) == VisibleText(s, cls)
  {
    var lead := DropLeading(s, cls);
    var run := s[..|s| - |lead|];
    assert s == run + lead;
    assert forall i :: 0 <= i < |run| ==> In(run[i], cls);
    VisibleTextOfClassRun(run, cls);
    VisibleTextConcat(run, lead, cls);
  }

  /** Dropping a trailing run of class characters keeps the visible text. */
  lemma DropTrailingKeepsVisible(s: string, cls: CharClass)
    ensures VisibleText(DropTrailing(s, cls), cls) == VisibleText(s, cls)
  {
    var trail := DropTrailing(s, cls);
    var run := s[|trail|..];
    assert s == trail + run;
    assert forall i :: 0 <= i < |run| ==> In(run[i], cls);
    VisibleTextOfClassRun(run, cls);
    VisibleTextConcat(trail, run, cls);
  }

  /** Collapsing runs changes no visible character: the text with all class
      characters and spaces removed is exactly that of the input. */
  lemma {:induction false} CollapseKeepsVisible(s: string, cls: CharClass)
    ensures VisibleText(Collapse(s, cls), cls) == VisibleText(s, cls)
    decreases |s|
  {
    if s == [] {
    } else if In(s[0], cls) {
      var rest := DropLeading(s, cls);
      CollapseKeepsVisible(rest, cls);
      DropLeadingKeepsVisible(s, cls);
      VisibleTextConcat([' '], Collapse(rest, cls), cls);
    } else {
      CollapseKeepsVisible(s[1..], cls);
      VisibleTextConcat([s[0]], Collapse(s[1..], cls), cls);
    }
  }

  /** The visible text of a prefix is a prefix of the visible text. */
  lemma TakeVisiblePrefix(s: string, n: nat)
    ensures VisibleText(Take(s, n), Whitespace) <= VisibleText(s, Whitespace)
    ensures VisibleText(Take(s, n), LineBreak) <= VisibleText(s, LineBreak)
  {
    var t := Take(s, n);
    assert s == t + s[|t|..];
    VisibleTextConcat(t, s[|t|..], Whitespace);
    VisibleTextConcat(t, s[|t|..], LineBreak);
  }

  /** ASCII lower-casing: the case folding a `/…/i` test applies when the
      pattern is plain ASCII letters. */
  function Lower(c: char): char {
    if 'A' <= c <= 'Z' then (c as int + 32) as char else c
  }

  function LowerAll(s: string): (r: string)
    ensures |r| == |s|
    ensures forall i :: 0 <= i < |s| ==> r[i] == Lower(s[i])
  {
    seq(|s|, i requires 0 <= i < |s| => Lower(s[i]))
  }

  /** `word` (lower case) occurs in `text` at position `i`, ignoring ASCII case. */
  predicate MatchesAt(text: string, word: string, i: int) {
    0 <= i && i + |word| <= |text| && LowerAll(text[i..i + |word|]) == word
  }

  /** The `/word/i.test(text)` scan, one start position after another. */
  function ContainsIgnoringCase(text: string, word: string): bool
    decreases |text|
  {
    if |text| < |word| then false
    else MatchesAt(text, word, 0) || ContainsIgnoringCase(text[1..], word)
  }

  /** The scan answers true exactly when the word occurs somewhere. */
  lemma {:induction false} ContainsIgnoringCaseIff(text: string, word: string)
    ensures ContainsIgnoringCase(text, word) <==> exists i :: MatchesAt(text, word, i)
    decreases |text|
  {
    if |text| >= |word| && !MatchesAt(text, word, 0) {
      assert text != [];
      ContainsIgnoringCaseIff(text[1..], word);
      if ContainsIgnoringCase(text, word) {
        var j :| MatchesAt(text[1..], word, j);
        assert text[1..][j..j + |word|] == text[j + 1..j + 1 + |word|];
        assert MatchesAt(text, word, j + 1);
      }
      if i :| MatchesAt(text, word, i) {
        if i > 0 {
          assert text[1..][i - 1..i - 1 + |word|] == text[i..i + |word|];
          assert MatchesAt(text[1..], word, i - 1);
        }
      }
    }
  }
}
