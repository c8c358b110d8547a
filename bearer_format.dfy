/** The header shape test `/^Bearer [^ .]+.[^ .]+.[^ ]+$/.test(h)`.

    The pattern is taken as written, over the header's characters: its
    two unescaped `.` match any character but a line terminator, a space
    and a dot included, so the three parts of a token need not be
    separated by dots at all.

    `MatchesBearer` runs the pattern as a six-state automaton over the text
    after "Bearer "; `InBearerLanguage` says what the pattern means, by the
    positions of the two separator characters; `ReachIsStates` proves that
    the two agree. */
module BearerFormat {

  const Prefix := "Bearer "

  /** Characters a `.` does not match (no `s` flag). */
  predicate IsLineTerminator(c: char)
  {
    c == '\n' || c == '\r' || c == '\U{2028}' || c == '\U{2029}'
  }

  /** `.` */
  predicate AnyChar(c: char) { !IsLineTerminator(c) }

  /** `[^ .]` */
  predicate NotSpaceOrDot(c: char) { c != ' ' && c != '.' }

  /** `[^ ]` */
  predicate NotSpace(c: char) { c != ' ' }

  ghost predicate NoSpaceOrDotIn(r: string, lo: int, hi: int)
    requires 0 <= lo <= hi <= |r|
  {
    forall k | lo <= k < hi :: NotSpaceOrDot(r[k])
  }

  ghost predicate NoSpaceIn(r: string, lo: int, hi: int)
    requires 0 <= lo <= hi <= |r|
  {
    forall k | lo <= k < hi :: NotSpace(r[k])
  }

  /** `r[..i+1]` is `[^ .]+.`: a non-empty run without space or dot, then
      the first separator at `i`. */
  ghost predicate FirstPart(r: string, i: int)
  {
    1 <= i < |r| && NoSpaceOrDotIn(r, 0, i) && AnyChar(r[i])
  }

  /** `r[..j+1]` is `[^ .]+.[^ .]+.`, the separators at `i` and `j`. */
  ghost predicate TwoParts(r: string, i: int, j: int)
  {
    FirstPart(r, i) && i + 1 < j < |r| && NoSpaceOrDotIn(r, i + 1, j) && AnyChar(r[j])
  }

  /** `r[..n]` is `[^ .]+.[^ .]+.[^ ]+`, the separators at `i` and `j`. */
  ghost predicate Decomposes(r: string, n: int, i: int, j: int)
  {
    TwoParts(r, i, j) && j + 1 < n <= |r| && NoSpaceIn(r, j + 1, n)
  }

  /** Some choice of separators makes `r[..n]` decompose. */
  ghost predicate DecomposesUpTo(r: string, n: int)
  {
    exists i, j :: Decomposes(r, n, i, j)
  }

  /** What the pattern accepts: "Bearer ", then text that decomposes. */
  ghost predicate InBearerLanguage(h: string)
  {
    && |h| >= |Prefix| && h[..|Prefix|] == Prefix
    && DecomposesUpTo(h[|Prefix|..], |h| - |Prefix|)
  }

  /** One step of the automaton. State 0: nothing read; 1: inside the first
      part; 2: just past the first separator; 3: inside the second part;
      4: just past the second separator; 5: inside the last part (accepting). */
  function Step(states: set<nat>, c: char): set<nat>
  {
    (if (0 in states || 1 in states) && NotSpaceOrDot(c) then {1} else {})
    + (if 1 in states && AnyChar(c) then {2} else {})
    + (if (2 in states || 3 in states) && NotSpaceOrDot(c) then {3} else {})
    + (if 3 in states && AnyChar(c) then {4} else {})
    + (if (4 in states || 5 in states) && NotSpace(c) then {5} else {})
  }

  /** The states reached after reading `r[..n]`. */
  function Reach(r: string, n: nat): set<nat>
    requires n <= |r|
    decreases n
  {
    if n == 0 then {0} else Step(Reach(r, n - 1), r[n - 1])
  }

  // What reading `r[..n]` into each state means.

  ghost predicate InFirst(r: string, n: int)
    requires 0 <= n <= |r|
  {
    1 <= n && NoSpaceOrDotIn(r, 0, n)
  }

  ghost predicate InSecond(r: string, n: int)
    requires 0 <= n <= |r|
  {
    exists i :: FirstPart(r, i) && i + 1 < n && NoSpaceOrDotIn(r, i + 1, n)
  }

  ghost predicate SecondSeparatorAt(r: string, j: int)
  {
    exists i :: TwoParts(r, i, j)
  }

  ghost predicate InState(r: string, n: nat, q: nat)
    requires n <= |r|
  {
    if q == 0 then n == 0
    else if q == 1 then InFirst(r, n)
    else if q == 2 then 1 <= n && FirstPart(r, n - 1)
    else if q == 3 then InSecond(r, n)
    else if q == 4 then 1 <= n && SecondSeparatorAt(r, n - 1)
    else if q == 5 then DecomposesUpTo(r, n)
    else false
  }

  lemma StepFirst(r: string, n: nat)
    requires 1 <= n <= |r|
    requires 0 in Reach(r, n - 1) <==> n - 1 == 0
    requires 1 in Reach(r, n - 1) <==> InFirst(r, n - 1)
    ensures 1 in Reach(r, n) <==> InFirst(r, n)
    ensures 2 in Reach(r, n) <==> FirstPart(r, n - 1)
  {
  }

  lemma StepSecond(r: string, n: nat)
    requires 1 <= n <= |r|
    requires 2 in Reach(r, n - 1) <==> 1 <= n - 1 && FirstPart(r, n - 2)
    requires 3 in Reach(r, n - 1) <==> InSecond(r, n - 1)
    ensures 3 in Reach(r, n) <==> InSecond(r, n)
    ensures 4 in Reach(r, n) <==> SecondSeparatorAt(r, n - 1)
  {
    var m := n - 1;
    var before := Reach(r, m);
    if InSecond(r, n) {
      var i :| FirstPart(r, i) && i + 1 < n && NoSpaceOrDotIn(r, i + 1, n);
      assert NotSpaceOrDot(r[m]);
      if i + 1 < m {
        assert NoSpaceOrDotIn(r, i + 1, m);
        assert InSecond(r, m);
      }
    }
    if 2 in before && NotSpaceOrDot(r[m]) {
      assert FirstPart(r, m - 1) && NoSpaceOrDotIn(r, m, n);
    }
    if 3 in before && NotSpaceOrDot(r[m]) {
      var i :| FirstPart(r, i) && i + 1 < m && NoSpaceOrDotIn(r, i + 1, m);
      assert NoSpaceOrDotIn(r, i + 1, n);
    }
    if SecondSeparatorAt(r, m) {
      var i :| TwoParts(r, i, m);
      assert InSecond(r, m);
    }
    if 3 in before && AnyChar(r[m]) {
      var i :| FirstPart(r, i) && i + 1 < m && NoSpaceOrDotIn(r, i + 1, m);
      assert TwoParts(r, i, m);
    }
  }

  lemma StepLast(r: string, n: nat)
    requires 1 <= n <= |r|
    requires 4 in Reach(r, n - 1) <==> 1 <= n - 1 && SecondSeparatorAt(r, n - 2)
    requires 5 in Reach(r, n - 1) <==> DecomposesUpTo(r, n - 1)
    ensures 5 in Reach(r, n) <==> DecomposesUpTo(r, n)
  {
    var m := n - 1;
    var before := Reach(r, m);
    if DecomposesUpTo(r, n) {
      var i, j :| Decomposes(r, n, i, j);
      assert NotSpace(r[m]);
      if j + 1 < m {
        assert Decomposes(r, m, i, j);
      } else {
        assert TwoParts(r, i, m - 1);
      }
    }
    if 4 in before && NotSpace(r[m]) {
      var i :| TwoParts(r, i, m - 1);
      assert Decomposes(r, n, i, m - 1);
    }
    if 5 in before && NotSpace(r[m]) {
      var i, j :| Decomposes(r, m, i, j);
      assert Decomposes(r, n, i, j);
    }
  }

  /** The automaton is in exactly the states whose meaning holds of what it has read. */
  lemma {:induction false} ReachIsStates(r: string, n: nat)
    requires n <= |r|
    ensures forall q :: q in Reach(r, n) <==> InState(r, n, q)
    decreases n
  {
    if n > 0 {
      ReachIsStates(r, n - 1);
      assert InState(r, n - 1, 0) <==> n - 1 == 0;
      assert InState(r, n - 1, 1) <==> InFirst(r, n - 1);
      StepFirst(r, n);
      StepSecond(r, n);
      StepLast(r, n);
      forall q | q > 5 ensures q !in Reach(r, n) {
      }
    }
  }

  /** `/^Bearer [^ .]+.[^ .]+.[^ ]+$/.test(h)`. */
  function MatchesBearer(h: string): (matched: bool)
    ensures matched <==> InBearerLanguage(h)
  {
    if |h| < |Prefix| || h[..|Prefix|] != Prefix then false
    else
      var r := h[|Prefix|..];
      ReachIsStates(r, |r|);
      5 in Reach(r, |r|)
  }

  /** Every accepted header starts with "Bearer ", ends with a character
      other than a space, and has at least five characters after the prefix. */
  lemma AcceptedShape(h: string)
    requires MatchesBearer(h)
    ensures |h| >= |Prefix| + 5 && h[..|Prefix|] == Prefix
    ensures h[|h| - 1] != ' '
  {
    var r := h[|Prefix|..];
    assert DecomposesUpTo(r, |r|);
    var i, j :| Decomposes(r, |r|, i, j);
    assert NotSpace(r[|r| - 1]);
  }

  /** The separators need not be dots: spaces pass, as does any other
      character that is not a line terminator; a line feed does not. */
  lemma SeparatorsAreAnyCharacter()
    ensures MatchesBearer("Bearer a b c")
    ensures MatchesBearer("Bearer aXbYc")
    ensures !MatchesBearer("Bearer a\nb\nc")
  {
    var r := "a b c";
    assert "Bearer a b c"[|Prefix|..] == r;
    assert Decomposes(r, |r|, 1, 3);
    var r' := "aXbYc";
    assert "Bearer aXbYc"[|Prefix|..] == r';
    assert Decomposes(r', |r'|, 1, 3);
    assert "Bearer a\nb\nc"[|Prefix|..] == "a\nb\nc";
  }
}
