/** String orders and searches used across the project. */
module Strings {

  // Byte-wise lexicographic order, as Go, CEL and ClickHouse compare strings.
  predicate StrLess(a: string, b: string) {
    if b == [] then false
    else if a == [] then true
    else a[0] < b[0] || (a[0] == b[0] && StrLess(a[1..], b[1..]))
  }

  // The strings agree up to some place, where the first one ends or has the
  // smaller character.
  ghost predicate DiffersAt(a: string, b: string, k: nat) {
    k <= |a| && k < |b| && a[..k] == b[..k] && (k == |a| || a[k] < b[k])
  }

  lemma {:induction false} StrLessMeans(a: string, b: string)
    ensures StrLess(a, b) <==> exists k: nat :: DiffersAt(a, b, k)
  {
    if b != [] {
      if a == [] {
        assert DiffersAt(a, b, 0);
      } else {
        StrLessMeans(a[1..], b[1..]);
        if a[0] < b[0] {
          assert DiffersAt(a, b, 0);
        }
        if a[0] == b[0] && StrLess(a[1..], b[1..]) {
          var k: nat :| DiffersAt(a[1..], b[1..], k);
          assert a[..k + 1] == [a[0]] + a[1..][..k] && b[..k + 1] == [b[0]] + b[1..][..k];
          assert DiffersAt(a, b, k + 1);
        }
        if k: nat :| DiffersAt(a, b, k) {
          if k > 0 {
            assert a[..k][0] == b[..k][0];
            assert a[1..][..k - 1] == a[..k][1..] && b[1..][..k - 1] == b[..k][1..];
            assert DiffersAt(a[1..], b[1..], k - 1);
          }
        }
      }
    }
  }

  lemma {:induction false} StrLessTotal(a: string, b: string)
    ensures StrLess(a, b) || a == b || StrLess(b, a)
  {
    if a != [] && b != [] && a[0] == b[0] {
      StrLessTotal(a[1..], b[1..]);
      if a[1..] == b[1..] {
        assert a == [a[0]] + a[1..] && b == [b[0]] + b[1..];
      }
    }
  }

  lemma {:induction false} StrLessAsymmetric(a: string, b: string)
    ensures !(StrLess(a, b) && StrLess(b, a))
  {
    if a != [] && b != [] && a[0] == b[0] {
      StrLessAsymmetric(a[1..], b[1..]);
    }
  }

  lemma {:induction false} StrLessTransitive(a: string, b: string, c: string)
    requires StrLess(a, b) && StrLess(b, c)
    ensures StrLess(a, c)
  {
    if a != [] && a[0] == b[0] && b[0] == c[0] {
      StrLessTransitive(a[1..], b[1..], c[1..]);
    }
  }

  predicate OccursAt(s: string, p: string, i: int) {
    0 <= i <= |s| - |p| && s[i..i + |p|] == p
  }

  predicate Contains(s: string, p: string) {
    exists i :: 0 <= i <= |s| && OccursAt(s, p, i)
  }

  predicate HasSuffix(s: string, p: string) {
    |p| <= |s| && s[|s| - |p|..] == p
  }

  function Lower(s: string): string {
    seq(|s|, i requires 0 <= i < |s| => if 'A' <= s[i] <= 'Z' then s[i] - 'A' + 'a' else s[i])
  }

  predicate IsSpace(c: char) {
    c == ' ' || '\t' <= c <= '\r'
  }

  // The maximal runs of characters that are not white space.
  function Fields(s: string): seq<string> {
    FieldsFrom(s, "")
  }

  function FieldsFrom(s: string, word: string): seq<string>
    decreases s
  {
    if s == "" then Word(word)
    else if IsSpace(s[0]) then Word(word) + FieldsFrom(s[1..], "")
    else FieldsFrom(s[1..], word + [s[0]])
  }

  function Word(w: string): seq<string> {
    if w == "" then [] else [w]
  }

  // A word: not empty, and nothing in it is white space.
  predicate IsWord(w: string) {
    w != "" && forall i :: 0 <= i < |w| ==> w[i] !in [' ', '\t', '\n', '\U{000B}', '\U{000C}', '\r']
  }

  // Words written with a blank after each are the fields of the text.
  lemma {:induction false} FieldsOfWords(words: seq<string>)
    requires forall i :: 0 <= i < |words| ==> IsWord(words[i])
    ensures Fields(Spaced(words)) == words
  {
    if words != [] {
      FieldsOfWords(words[1..]);
      FieldsAfterWord("", words[0], " " + Spaced(words[1..]));
      assert "" + words[0] == words[0];
      assert (" " + Spaced(words[1..]))[1..] == Spaced(words[1..]);
      assert words == [words[0]] + words[1..];
    }
  }

  function Spaced(words: seq<string>): string {
    if words == [] then "" else words[0] + (" " + Spaced(words[1..]))
  }

  lemma {:induction false} FieldsAfterWord(begun: string, w: string, rest: string)
    requires forall i :: 0 <= i < |w| ==> w[i] !in [' ', '\t', '\n', '\U{000B}', '\U{000C}', '\r']
    ensures FieldsFrom(w + rest, begun) == FieldsFrom(rest, begun + w)
    decreases w
  {
    if w == "" {
      assert w + rest == rest && begun + w == begun;
    } else {
      assert (w + rest)[0] == w[0] && (w + rest)[1..] == w[1..] + rest;
      FieldsAfterWord(begun + [w[0]], w[1..], rest);
      assert begun + [w[0]] + w[1..] == begun + w;
    }
  }

  function Join(xs: seq<string>, sep: string): string {
    if xs == [] then "" else if |xs| == 1 then xs[0] else xs[0] + sep + Join(xs[1..], sep)
  }

  // ---------------------------------------------------------------------
  // Splitting
  // ---------------------------------------------------------------------

  function Split(s: string, sep: char): (ts: seq<string>)
    ensures ts != []
  {
    if s == "" then [""]
    else if s[0] == sep then [""] + Split(s[1..], sep)
    else Extend(s[0], Split(s[1..], sep))
  }

  function Extend(c: char, ts: seq<string>): (r: seq<string>)
    requires ts != []
    ensures r != []
  {
    [[c] + ts[0]] + ts[1..]
  }

  // A character in front joins the first part or starts a new one.
  lemma SplitMore(c: char, s: string, a: string, rest: seq<string>, sep: char)
    requires Split(s, sep) == Split(a, sep) + rest
    ensures Split([c] + s, sep) == Split([c] + a, sep) + rest
  {
    assert ([c] + s)[1..] == s && ([c] + a)[1..] == a;
    if c == sep {
      assert [""] + (Split(a, sep) + rest) == [""] + Split(a, sep) + rest;
    }
  }

  lemma {:induction false} SplitJoined(a: string, sep: char, b: string)
    ensures Split(a + [sep] + b, sep) == Split(a, sep) + Split(b, sep)
  {
    var s := a + [sep] + b;
    if a == "" {
      assert s == [sep] + b && s[1..] == b;
    } else {
      assert s[0] == a[0] && s[1..] == a[1..] + [sep] + b;
      SplitJoined(a[1..], sep, b);
      SplitMore(a[0], s[1..], a[1..], Split(b, sep), sep);
      assert s == [a[0]] + s[1..] && a == [a[0]] + a[1..];
    }
  }

  predicate Without(s: string, c: char) {
    forall i :: 0 <= i < |s| ==> s[i] != c
  }

  lemma {:induction false} SplitFree(s: string, sep: char)
    requires Without(s, sep)
    ensures Split(s, sep) == [s]
  {
    if s != "" {
      SplitFree(s[1..], sep);
      assert [s[0]] + s[1..] == s;
    }
  }

  lemma {:induction false} SplitParts(s: string, sep: char)
    ensures forall i :: 0 <= i < |Split(s, sep)| ==> Without(Split(s, sep)[i], sep)
  {
    if s != "" {
      SplitParts(s[1..], sep);
    }
  }

  lemma {:induction false} SplitOfJoin(xs: seq<string>, sep: char)
    requires xs != [] && forall i :: 0 <= i < |xs| ==> Without(xs[i], sep)
    ensures Split(Join(xs, [sep]), sep) == xs
  {
    SplitFree(xs[0], sep);
    if |xs| > 1 {
      SplitOfJoin(xs[1..], sep);
      SplitJoined(xs[0], sep, Join(xs[1..], [sep]));
    }
  }

  // ---------------------------------------------------------------------
  // Trimming and searching
  // ---------------------------------------------------------------------

  function TrimLeft(s: string): string {
    if s == "" || !IsSpace(s[0]) then s else TrimLeft(s[1..])
  }

  function TrimRight(s: string): string {
    if s == "" || !IsSpace(s[|s| - 1]) then s else TrimRight(s[..|s| - 1])
  }

  function TrimSpace(s: string): string {
    TrimLeft(TrimRight(s))
  }

  lemma {:induction false} TrimRightAfter(a: string, b: string)
    requires a != "" && !IsSpace(a[|a| - 1])
    ensures TrimRight(a + b) == a + TrimRight(b)
  {
    if b == "" {
      assert a + b == a;
    } else if IsSpace(b[|b| - 1]) {
      TrimRightAfter(a, b[..|b| - 1]);
      assert (a + b)[..|a + b| - 1] == a + b[..|b| - 1];
    }
  }

  lemma {:induction false} TrimRightShape(s: string)
    ensures |TrimRight(s)| <= |s| && TrimRight(s) == s[..|TrimRight(s)|]
    ensures TrimRight(s) == "" || !IsSpace(TrimRight(s)[|TrimRight(s)| - 1])
    ensures TrimRight(TrimRight(s)) == TrimRight(s)
  {
    if s != "" && IsSpace(s[|s| - 1]) {
      TrimRightShape(s[..|s| - 1]);
    }
  }

  lemma {:induction false} TrimLeftShape(s: string)
    ensures |TrimLeft(s)| <= |s| && TrimLeft(s) == s[|s| - |TrimLeft(s)|..]
  {
    if s != "" && IsSpace(s[0]) {
      TrimLeftShape(s[1..]);
    }
  }

  lemma TrimSpaceShape(s: string)
    ensures |TrimSpace(s)| <= |s|
    ensures TrimSpace(TrimRight(s)) == TrimSpace(s)
  {
    TrimRightShape(s);
    TrimLeftShape(TrimRight(s));
  }

  lemma {:induction false} TrimRightWithout(s: string, c: char)
    requires Without(s, c)
    ensures Without(TrimRight(s), c)
  {
    if s != "" && IsSpace(s[|s| - 1]) {
      TrimRightWithout(s[..|s| - 1], c);
    }
  }

  lemma {:induction false} TrimLeftWithout(s: string, c: char)
    requires Without(s, c)
    ensures Without(TrimLeft(s), c)
  {
    if s != "" && IsSpace(s[0]) {
      TrimLeftWithout(s[1..], c);
    }
  }

  lemma TrimKeepsWithout(s: string, c: char)
    requires Without(s, c)
    ensures Without(TrimSpace(s), c)
  {
    TrimRightWithout(s, c);
    TrimLeftWithout(TrimRight(s), c);
  }

  // strings.Index
  function Index(s: string, p: string): (i: int)
    ensures -1 <= i && (i != -1 ==> i + |p| <= |s|)
  {
    IndexFrom(s, p, 0)
  }

  function IndexFrom(s: string, p: string, from: nat): (i: int)
    ensures i == -1 || (from <= i && i + |p| <= |s|)
    decreases |s| - from
  {
    if from > |s| then -1 else if OccursAt(s, p, from) then from else IndexFrom(s, p, from + 1)
  }

  // The first occurrence, if there is one.
  ghost predicate IsFirst(s: string, p: string, i: int) {
    (i == -1 || OccursAt(s, p, i)) &&
    (forall j :: 0 <= j < i ==> !OccursAt(s, p, j)) &&
    (i == -1 ==> forall j :: 0 <= j <= |s| ==> !OccursAt(s, p, j))
  }

  lemma {:induction false} IndexFromFacts(s: string, p: string, from: nat)
    requires forall j :: 0 <= j < from ==> !OccursAt(s, p, j)
    ensures IsFirst(s, p, IndexFrom(s, p, from))
    decreases |s| - from
  {
    if from <= |s| && !OccursAt(s, p, from) {
      IndexFromFacts(s, p, from + 1);
    }
  }

  lemma IndexIsFirst(s: string, p: string)
    ensures IsFirst(s, p, Index(s, p))
  {
    IndexFromFacts(s, p, 0);
  }

}
