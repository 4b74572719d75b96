/**
 * The few Python string operations the chatbots use, restricted to ASCII:
 * `str.lower()`, `str.split()` with no argument, the substring test `p in s`,
 * `any(k in s for k in ks)` and `sep.join(parts)`.
 */
module Text {

  /** `str.isspace()` on the ASCII range: space, \t \n \v \f \r and the
      separators \x1c-\x1f, which `str.split()` also treats as whitespace. */
  predicate IsSpace(c: char) {
    c == ' ' || ('\t' <= c <= '\r') || ('\U{1C}' <= c <= '\U{1F}')
  }

  predicate NoSpace(s: string) {
    forall i :: 0 <= i < |s| ==> !IsSpace(s[i])
  }

  predicate AllSpace(s: string) {
    forall i :: 0 <= i < |s| ==> IsSpace(s[i])
  }

  predicate IsUpper(c: char) { 'A' <= c <= 'Z' }

  function LowerChar(c: char): char {
    if IsUpper(c) then (c as int - 'A' as int + 'a' as int) as char else c
  }

  /** `s.lower()` for ASCII text. */
  function Lower(s: string): (r: string)
    ensures |r| == |s|
    ensures forall i :: 0 <= i < |s| ==> r[i] == LowerChar(s[i])
  {
    if s == [] then [] else [LowerChar(s[0])] + Lower(s[1..])
  }

  /** Lower-casing twice is lower-casing once, and the result has no upper-case letter. */
  lemma LowerIdempotent(s: string)
    ensures Lower(Lower(s)) == Lower(s)
    ensures forall i :: 0 <= i < |s| ==> !IsUpper(Lower(s)[i])
  {
  }

  // ---------------------------------------------------------------------
  // str.split()

  /** The longest prefix of the input that holds no whitespace. */
  function WordPrefix(s: string): (w: string)
    ensures |w| <= |s| && w == s[..|w|]
    ensures NoSpace(w)
    ensures |w| == |s| || IsSpace(s[|w|])
  {
    if s == [] || IsSpace(s[0]) then [] else [s[0]] + WordPrefix(s[1..])
  }

  /** `s.split()`: the maximal runs of non-whitespace characters, in order. */
  function Words(s: string): (ws: seq<string>)
    ensures forall i :: 0 <= i < |ws| ==> ws[i] != [] && NoSpace(ws[i])
    decreases |s|
  {
    if s == [] then []
    else if IsSpace(s[0]) then Words(s[1..])
    else
      var w := WordPrefix(s);
      [w] + Words(s[|w|..])
  }

  /** A string splits into no words exactly when it is all whitespace. */
  lemma {:induction false} WordsEmpty(s: string)
    ensures Words(s) == [] <==> AllSpace(s)
    decreases |s|
  {
    if s != [] && IsSpace(s[0]) {
      WordsEmpty(s[1..]);
      assert AllSpace(s) <==> AllSpace(s[1..]) by {
        assert forall i :: 1 <= i < |s| ==> s[i] == s[1..][i - 1];
      }
    }
  }

  lemma {:induction false} WordPrefixOf(w: string, rest: string)
    requires NoSpace(w)
    requires rest == [] || IsSpace(rest[0])
    ensures WordPrefix(w + rest) == w
  {
    if w != [] {
      assert (w + rest)[1..] == w[1..] + rest;
      WordPrefixOf(w[1..], rest);
    }
  }

  lemma {:induction false} WordsLeadingSpace(c: char, rest: string)
    requires IsSpace(c)
    ensures Words([c] + rest) == Words(rest)
  {
    assert ([c] + rest)[1..] == rest;
  }

  /** Splitting a word followed by whitespace and more text. */
  lemma {:induction false} WordsCons(w: string, c: char, rest: string)
    requires w != [] && NoSpace(w) && IsSpace(c)
    ensures Words(w + [c] + rest) == [w] + Words(rest)
  {
    var s := w + [c] + rest;
    assert s == w + ([c] + rest);
    WordPrefixOf(w, [c] + rest);
    assert s[|w|..] == [c] + rest;
    WordsLeadingSpace(c, rest);
  }

  /** A word, a space and text that is not all whitespace make more than one word. */
  lemma SeveralWords(w: string, rest: string)
    requires w != [] && NoSpace(w)
    requires rest != [] && !IsSpace(rest[0])
    ensures |Words(w + " " + rest)| > 1
  {
    assert w + " " + rest == w + [' '] + rest;
    WordsCons(w, ' ', rest);
    WordsEmpty(rest);
  }

  /** Splitting text followed by whitespace and one more word: that word
      comes last, after the words of the text. */
  lemma {:induction false} WordsSnoc(a: string, c: char, w: string)
    requires IsSpace(c) && w != [] && NoSpace(w)
    ensures Words(a + [c] + w) == Words(a) + [w]
    decreases |a|
  {
    WordsSingle(w);
    if a == [] {
      assert a + [c] + w == [c] + w;
      WordsLeadingSpace(c, w);
    } else if IsSpace(a[0]) {
      assert (a + [c] + w)[1..] == a[1..] + [c] + w;
      WordsSnoc(a[1..], c, w);
    } else {
      var p := WordPrefix(a);
      var t := a[|p|..];
      assert a == p + t;
      if t == [] {
        WordsSingle(a);
        WordsCons(a, c, w);
      } else {
        assert a + [c] + w == p + (t + [c] + w);
        WordPrefixOf(p, t + [c] + w);
        assert (a + [c] + w)[|p|..] == t + [c] + w;
        WordsSnoc(t, c, w);
        assert [p] + (Words(t) + [w]) == [p] + Words(t) + [w];
      }
    }
  }

  /** A non-empty string without whitespace is a single word. */
  lemma {:induction false} WordsSingle(w: string)
    requires w != [] && NoSpace(w)
    ensures Words(w) == [w]
  {
    WordPrefixOf(w, []);
    assert w + [] == w;
    assert w[|w|..] == [];
  }

  // ---------------------------------------------------------------------
  // Substring test

  /** `p` occurs in `s` at index `i`. */
  predicate OccursAt(s: string, p: string, i: int) {
    0 <= i <= |s| - |p| && s[i..i + |p|] == p
  }

  /** `p in s` for strings. */
  function Contains(s: string, p: string): (b: bool)
    ensures b <==> exists i :: OccursAt(s, p, i)
    decreases |s|
  {
    if |p| <= |s| && s[..|p|] == p then
      assert OccursAt(s, p, 0);
      true
    else if s == [] then
      false
    else
      var r := Contains(s[1..], p);
      assert r ==> exists i :: OccursAt(s, p, i) by {
        if r {
          var i :| OccursAt(s[1..], p, i);
          assert s[i + 1..i + 1 + |p|] == s[1..][i..i + |p|];
          assert OccursAt(s, p, i + 1);
        }
      }
      assert (exists i :: OccursAt(s, p, i)) ==> r by {
        if exists i :: OccursAt(s, p, i) {
          var i :| OccursAt(s, p, i);
          assert i != 0;
          assert s[1..][i - 1..i - 1 + |p|] == s[i..i + |p|];
          assert OccursAt(s[1..], p, i - 1);
        }
      }
      r
  }

  /** Whatever occurs in the middle of a string is contained in it. */
  lemma ContainsWithin(a: string, m: string, b: string, p: string)
    requires Contains(m, p)
    ensures Contains(a + m + b, p)
  {
    var i :| OccursAt(m, p, i);
    assert (a + m + b)[|a| + i..|a| + i + |p|] == m[i..i + |p|];
    assert OccursAt(a + m + b, p, |a| + i);
  }

  /** A string contains itself. */
  lemma ContainsSelf(p: string)
    ensures Contains(p, p)
  {
    assert OccursAt(p, p, 0);
  }

  /** `any(k in s for k in ks)`. */
  function ContainsAny(s: string, ks: seq<string>): (b: bool)
    ensures b <==> exists j :: 0 <= j < |ks| && Contains(s, ks[j])
  {
    if ks == [] then false
    else if Contains(s, ks[0]) then true
    else
      var r := ContainsAny(s, ks[1..]);
      assert forall j :: 1 <= j < |ks| ==> ks[j] == ks[1..][j - 1];
      r
  }

  // ---------------------------------------------------------------------
  // str.join

  /** `sep.join(parts)`: nothing for no parts, the part itself for one, and
      otherwise the parts in order with the separator between each pair; it
      starts with the first part and ends with the last. */
  function Join(parts: seq<string>, sep: string): (r: string)
    ensures parts == [] ==> r == ""
    ensures |parts| == 1 ==> r == parts[0]
    ensures parts != [] ==> parts[0] <= r
    ensures parts != [] ==> |parts[|parts| - 1]| <= |r| && r[|r| - |parts[|parts| - 1]|..] == parts[|parts| - 1]
  {
    if parts == [] then ""
    else if |parts| == 1 then parts[0]
    else
      var tail := Join(parts[1..], sep);
      var r := parts[0] + sep + tail;
      var last := parts[|parts| - 1];
      assert last == parts[1..][|parts[1..]| - 1];
      assert r[|r| - |last|..] == tail[|tail| - |last|..];
      r
  }

  /** Joining three parts. */
  lemma JoinThree(a: string, b: string, c: string, sep: string)
    ensures Join([a, b, c], sep) == a + sep + (b + sep + c)
  {
    assert [a, b, c][1..] == [b, c];
    assert [b, c][1..] == [c];
    assert Join([b, c], sep) == b + sep + c;
  }

  /** Every part occurs in the joined string. */
  lemma {:induction false} JoinContains(parts: seq<string>, sep: string, j: int)
    requires 0 <= j < |parts|
    ensures Contains(Join(parts, sep), parts[j])
  {
    if |parts| == 1 {
      assert Join(parts, sep) == parts[0];
      ContainsSelf(parts[0]);
    } else if j == 0 {
      ContainsSelf(parts[0]);
      JoinSplit(parts, sep, "", parts[0], sep + Join(parts[1..], sep), parts[0]);
    } else {
      JoinContains(parts[1..], sep, j - 1);
      assert parts[1..][j - 1] == parts[j];
      JoinSplit(parts, sep, parts[0] + sep, Join(parts[1..], sep), "", parts[j]);
    }
  }

  /** Containment in a joined string of several parts, read off one of its
      splits. */
  lemma JoinSplit(parts: seq<string>, sep: string, a: string, m: string, b: string, p: string)
    requires |parts| > 1 && a + m + b == parts[0] + sep + Join(parts[1..], sep)
    requires Contains(m, p)
    ensures Contains(Join(parts, sep), p)
  {
    ContainsWithin(a, m, b, p);
  }


}
