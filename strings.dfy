/** `String.prototype.split` on a one-character separator, with `Join` as
    its inverse: the pieces are the unique separator-free list that joins
    back to the input. */
module Strings {

  /** The pieces put back together, one separator between neighbours. */
  function Join(pieces: seq<string>, sep: char): string
    requires |pieces| >= 1
    decreases |pieces|
  {
    if |pieces| == 1 then pieces[0] else pieces[0] + [sep] + Join(pieces[1..], sep)
  }

  predicate FreeOf(pieces: seq<string>, sep: char)
  {
    forall k | 0 <= k < |pieces| :: sep !in pieces[k]
  }

  /** `s.split(sep)`. */
  function Split(s: string, sep: char): (pieces: seq<string>)
    ensures |pieces| >= 1
    ensures FreeOf(pieces, sep)
    ensures Join(pieces, sep) == s
    decreases |s|
  {
    if s == [] then [[]]
    else
      var rest := Split(s[1..], sep);
      if s[0] == sep then
        assert ([[]] + rest)[1..] == rest;
        [[]] + rest
      else
        var pieces := [[s[0]] + rest[0]] + rest[1..];
        assert s == [s[0]] + s[1..];
        if |rest| == 1 then pieces
        else
          assert pieces[1..] == rest[1..];
          assert Join(rest, sep) == rest[0] + [sep] + Join(rest[1..], sep);
          pieces
  }

  /** Two separator-free lists that join to the same text are the same list. */
  lemma {:induction false} JoinInjective(p: seq<string>, q: seq<string>, sep: char)
    requires |p| >= 1 && |q| >= 1
    requires FreeOf(p, sep) && FreeOf(q, sep)
    requires Join(p, sep) == Join(q, sep)
    ensures p == q
    decreases |p|
  {
    if |p| > 1 && |q| > 1 {
      var s := Join(p, sep);
      assert s == p[0] + [sep] + Join(p[1..], sep);
      assert s == q[0] + [sep] + Join(q[1..], sep);
      FirstSeparatorAt(p[0], sep, Join(p[1..], sep));
      FirstSeparatorAt(q[0], sep, Join(q[1..], sep));
      assert |p[0]| == |q[0]|;
      assert p[0] == s[..|p[0]|] == q[0];
      assert Join(p[1..], sep) == s[|p[0]| + 1..] == Join(q[1..], sep);
      JoinInjective(p[1..], q[1..], sep);
      assert p == [p[0]] + p[1..] && q == [q[0]] + q[1..];
    }
  }

  /** In `a + [sep] + b` with `a` free of `sep`, the first separator is at `|a|`. */
  lemma FirstSeparatorAt(a: string, sep: char, b: string)
    ensures sep !in a ==> (a + [sep] + b)[|a|] == sep
    ensures sep !in a ==> forall k | 0 <= k < |a| :: (a + [sep] + b)[k] != sep
  {
  }

  /** Splitting undoes joining. */
  lemma SplitJoin(pieces: seq<string>, sep: char)
    requires |pieces| >= 1 && FreeOf(pieces, sep)
    ensures Split(Join(pieces, sep), sep) == pieces
  {
    JoinInjective(Split(Join(pieces, sep), sep), pieces, sep);
  }

  /** The first piece is the text before the first separator, or all of it. */
  lemma SplitHead(s: string, sep: char)
    ensures var p := Split(s, sep)[0];
      && p == s[..|p|]
      && sep !in p
      && (|p| < |s| ==> s[|p|] == sep)
  {
    var pieces := Split(s, sep);
    if |pieces| > 1 {
      assert s == pieces[0] + [sep] + Join(pieces[1..], sep);
    }
  }

  /** The separator-free text equals its only piece, and only such text has one piece. */
  lemma SplitSingle(s: string, sep: char)
    ensures |Split(s, sep)| == 1 <==> sep !in s
  {
    var pieces := Split(s, sep);
    if |pieces| > 1 {
      assert s == pieces[0] + [sep] + Join(pieces[1..], sep);
      assert s[|pieces[0]|] == sep;
    }
  }

  /** Joining peels off at the back as well as at the front. */
  lemma {:induction false} JoinLast(pieces: seq<string>, sep: char)
    requires |pieces| >= 2
    ensures Join(pieces, sep) == Join(pieces[..|pieces| - 1], sep) + [sep] + pieces[|pieces| - 1]
    decreases |pieces|
  {
    var n := |pieces|;
    if n > 2 {
      JoinLast(pieces[1..], sep);
      assert pieces[1..][..n - 2] == pieces[..n - 1][1..];
    }
  }

  /** The last piece (`s.split(sep).pop()`) is the text after the last
      separator, or all of it. */
  lemma SplitTail(s: string, sep: char)
    ensures var pieces := Split(s, sep);
      var p := pieces[|pieces| - 1];
      && |p| <= |s| && p == s[|s| - |p|..]
      && sep !in p
      && (|p| < |s| ==> s[|s| - |p| - 1] == sep)
  {
    var pieces := Split(s, sep);
    if |pieces| >= 2 {
      JoinLast(pieces, sep);
    }
  }
}
