/** String facts the dispatch function relies on: JavaScript's
    `String.prototype.includes`, suffix tests, and a line splitter used to
    read a composed mail body back. */
module Strings {

  /** `t` occurs in `s` starting at index `i`. */
  predicate OccursAt(s: string, t: string, i: int) {
    0 <= i && i + |t| <= |s| && s[i..i + |t|] == t
  }

  /** `t` is a substring of `s`: the meaning of `s.includes(t)`. */
  ghost predicate Occurs(s: string, t: string) {
    exists i :: OccursAt(s, t, i)
  }

  /** `s` ends with `t`. */
  predicate EndsWith(s: string, t: string) {
    |t| <= |s| && s[|s| - |t|..] == t
  }

  /** An occurrence in a non-empty string is either at its head or in its tail. */
  lemma OccursHeadOrTail(s: string, t: string)
    requires |s| > 0
    ensures Occurs(s, t) <==> OccursAt(s, t, 0) || Occurs(s[1..], t)
  {
    if Occurs(s, t) {
      var i :| OccursAt(s, t, i);
      if i > 0 {
        assert s[1..][i - 1..i - 1 + |t|] == s[i..i + |t|];
        assert OccursAt(s[1..], t, i - 1);
      }
    }
    if Occurs(s[1..], t) {
      var j :| OccursAt(s[1..], t, j);
      assert s[j + 1..j + 1 + |t|] == s[1..][j..j + |t|];
      assert OccursAt(s, t, j + 1);
    }
  }

  /** Executable substring search: JavaScript's `s.includes(t)`. */
  function Includes(s: string, t: string): (r: bool)
    ensures r <==> Occurs(s, t)
    decreases |s|
  {
    if |t| > |s| then
      false
    else if s[..|t|] == t then
      assert OccursAt(s, t, 0);
      true
    else
      OccursHeadOrTail(s, t);
      Includes(s[1..], t)
  }

  /** A prefix that does not contain the first character of `t` cannot take
      part in an occurrence of `t`: occurrences in `p + m` are exactly the
      occurrences in `m`. */
  lemma OccursAfterForeignPrefix(p: string, m: string, t: string)
    requires |t| > 0 && t[0] !in p
    ensures Occurs(p + m, t) <==> Occurs(m, t)
  {
    if Occurs(p + m, t) {
      var i :| OccursAt(p + m, t, i);
      assert (p + m)[i] == t[0];
      assert m[i - |p|..i - |p| + |t|] == (p + m)[i..i + |t|];
      assert OccursAt(m, t, i - |p|);
    }
    if Occurs(m, t) {
      var j :| OccursAt(m, t, j);
      assert (p + m)[j + |p|..j + |p| + |t|] == m[j..j + |t|];
      assert OccursAt(p + m, t, j + |p|);
    }
  }

  /** A string without the first character of `t` does not contain `t`. */
  lemma NoOccurrenceWithoutFirstChar(s: string, t: string)
    requires |t| > 0 && t[0] !in s
    ensures !Occurs(s, t)
  {
    OccursAfterForeignPrefix(s, "", t);
    assert s + "" == s;
  }

  /** Splits a string at every `sep`: the line splitter behind reading a
      mail body back. The pieces between separators, always at least one,
      none containing `sep`. */
  function Split(s: string, sep: char): (r: seq<string>)
    ensures |r| >= 1
    ensures forall k :: 0 <= k < |r| ==> sep !in r[k]
  {
    if |s| == 0 then
      [""]
    else
      var rest := Split(s[1..], sep);
      if s[0] == sep then [""] + rest
      else [[s[0]] + rest[0]] + rest[1..]
  }

  /** A separator-free line followed by `sep` splits off as the first piece. */
  lemma {:induction false} SplitLine(a: string, b: string, sep: char)
    requires sep !in a
    ensures Split(a + [sep] + b, sep) == [a] + Split(b, sep)
  {
    var s := a + [sep] + b;
    if |a| == 0 {
      assert s == [sep] + b;
      assert s[1..] == b;
    } else {
      assert s[0] == a[0];
      assert s[1..] == a[1..] + [sep] + b;
      SplitLine(a[1..], b, sep);
      assert [a[0]] + a[1..] == a;
    }
  }
}
