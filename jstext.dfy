/** The JavaScript string built-ins that the extension relies on, written out over
    `string` (a sequence of characters): the `\s` class and `.trim()`, the line
    terminators that `.` refuses and that multiline `^`/`$` anchor on, `.startsWith`,
    `.includes`, the whitespace cleanup `.replace(/\s+/g, ' ').trim()` shared by
    popup.js and content.js, and the newline-to-`<br>` rewrite shared by popup.js and
    summary.js. */
module JsText {

  /** The four characters a JavaScript regular expression treats as line terminators. */
  predicate IsLineTerminator(c: char)
  {
    c == '\n' || c == '\r' || c == '\U{2028}' || c == '\U{2029}'
  }

  /** Membership in JavaScript's `\s` class; `String.prototype.trim` strips the same set. */
  predicate IsWhitespace(c: char)
  {
    || IsLineTerminator(c)
    || c == '\t' || c == '\U{000B}' || c == '\U{000C}' || c == ' '
    || c == '\U{00A0}' || c == '\U{1680}' || ('\U{2000}' <= c <= '\U{200A}')
    || c == '\U{202F}' || c == '\U{205F}' || c == '\U{3000}' || c == '\U{FEFF}'
  }

  predicate NoTerminator(s: string)
  {
    forall i | 0 <= i < |s| :: !IsLineTerminator(s[i])
  }

  predicate AllWhitespace(s: string)
  {
    forall i | 0 <= i < |s| :: IsWhitespace(s[i])
  }

  /** `s.startsWith(p)` */
  predicate HasPrefix(s: string, p: string)
  {
    |p| <= |s| && s[..|p|] == p
  }

  /** `t` occurs in `s` starting at index `i`. */
  predicate OccursAt(s: string, t: string, i: int)
  {
    0 <= i <= |s| - |t| && s[i..i + |t|] == t
  }

  /** `s.includes(t)`, scanning from the left. */
  function Contains(s: string, t: string): (b: bool)
    ensures b <==> exists i :: OccursAt(s, t, i)
    decreases |s|
  {
    if HasPrefix(s, t) then
      assert OccursAt(s, t, 0);
      true
    else if |s| == 0 then
      false
    else
      var b := Contains(s[1..], t);
      assert b ==> exists i :: OccursAt(s, t, i) by {
        if b {
          var i :| OccursAt(s[1..], t, i);
          assert s[1..][i..i + |t|] == s[i + 1..i + 1 + |t|];
          assert OccursAt(s, t, i + 1);
        }
      }
      assert (exists i :: OccursAt(s, t, i)) ==> b by {
        if exists i :: OccursAt(s, t, i) {
          var i :| OccursAt(s, t, i);
          assert i != 0;
          assert s[1..][i - 1..i - 1 + |t|] == s[i..i + |t|];
          assert OccursAt(s[1..], t, i - 1);
        }
      }
      b
  }

  /** The length of the whitespace run that opens `s`. */
  function LeadingSpace(s: string): (n: nat)
    ensures n <= |s| && AllWhitespace(s[..n])
    ensures n < |s| ==> !IsWhitespace(s[n])
    decreases |s|
  {
    if |s| > 0 && IsWhitespace(s[0]) then 1 + LeadingSpace(s[1..]) else 0
  }

  /** The length of the whitespace run that closes `s`. */
  function TrailingSpace(s: string): (n: nat)
    ensures n <= |s| && AllWhitespace(s[|s| - n..])
    ensures n < |s| ==> !IsWhitespace(s[|s| - n - 1])
    decreases |s|
  {
    if |s| > 0 && IsWhitespace(s[|s| - 1]) then
      var p := s[..|s| - 1];
      var m := TrailingSpace(p);
      assert s[|s| - (m + 1)..] == p[|p| - m..] + [s[|s| - 1]];
      1 + m
    else
      0
  }

  /** `s.trim()` */
  function Trim(s: string): (r: string)
  {
    var t := s[LeadingSpace(s)..];
    t[..|t| - TrailingSpace(t)]
  }

  /** What `.trim()` promises: a middle slice of `s` with only whitespace cut off, and
      whitespace at neither end of what is left. */
  lemma TrimSlice(s: string)
    ensures exists i, j :: 0 <= i <= j <= |s| && Trim(s) == s[i..j]
                           && AllWhitespace(s[..i]) && AllWhitespace(s[j..])
    ensures Trim(s) == [] || (!IsWhitespace(Trim(s)[0]) && !IsWhitespace(Trim(s)[|Trim(s)| - 1]))
  {
    var i := LeadingSpace(s);
    var t := s[i..];
    var m := TrailingSpace(t);
    var j := i + |t| - m;
    assert Trim(s) == s[i..j];
    assert s[j..] == t[|t| - m..];
    if Trim(s) != [] {
      assert Trim(s)[0] == s[i];
      assert Trim(s)[|Trim(s)| - 1] == t[|t| - m - 1];
    }
  }

  /** Trimming removes exactly the whitespace around a text that neither starts nor ends
      with whitespace. */
  lemma TrimOfPadded(x: string, m: string, y: string)
    requires AllWhitespace(x) && AllWhitespace(y)
    requires m != [] && !IsWhitespace(m[0]) && !IsWhitespace(m[|m| - 1])
    ensures Trim(x + m + y) == m
  {
    Associative(x, m, y);
    LeadingSpaceBefore(x, m + y);
    PartsOfAppend(x, m + y);
    TrailingSpaceAfter(m, y);
    PartsOfAppend(m, y);
  }

  lemma {:induction false} LeadingSpaceBefore(x: string, r: string)
    requires AllWhitespace(x) && r != [] && !IsWhitespace(r[0])
    ensures LeadingSpace(x + r) == |x|
    decreases |x|
  {
    if x == [] {
      assert x + r == r;
    } else {
      assert (x + r)[0] == x[0];
      assert (x + r)[1..] == x[1..] + r;
      LeadingSpaceBefore(x[1..], r);
    }
  }

  lemma {:induction false} TrailingSpaceAfter(m: string, y: string)
    requires AllWhitespace(y) && m != [] && !IsWhitespace(m[|m| - 1])
    ensures TrailingSpace(m + y) == |y|
    decreases |y|
  {
    if y == [] {
      assert m + y == m;
    } else {
      var s := m + y;
      assert s[|s| - 1] == y[|y| - 1];
      assert s[..|s| - 1] == m + y[..|y| - 1];
      TrailingSpaceAfter(m, y[..|y| - 1]);
    }
  }

  /** A text of whitespace only trims to nothing. */
  lemma TrimOfWhitespace(s: string)
    requires AllWhitespace(s)
    ensures Trim(s) == ""
  {
    LeadingSpaceOfWhitespace(s);
  }

  lemma {:induction false} LeadingSpaceOfWhitespace(s: string)
    requires AllWhitespace(s)
    ensures LeadingSpace(s) == |s|
    decreases |s|
  {
    if |s| > 0 {
      LeadingSpaceOfWhitespace(s[1..]);
    }
  }

  /** `s.replace(/\s+/g, ' ')`: every maximal whitespace run becomes one space. */
  function CollapseWhitespace(s: string): (r: string)
    ensures |s| > 0 ==> |r| > 0 && r[0] == (if IsWhitespace(s[0]) then ' ' else s[0])
    ensures Spaced(r)
    decreases |s|
  {
    if |s| == 0 then
      []
    else if IsWhitespace(s[0]) then
      var n := LeadingSpace(s);
      [' '] + CollapseWhitespace(s[n..])
    else
      [s[0]] + CollapseWhitespace(s[1..])
  }

  /** Its only whitespace is the plain space, never two in a row. */
  predicate Spaced(s: string)
  {
    && (forall i | 0 <= i < |s| && IsWhitespace(s[i]) :: s[i] == ' ')
    && (forall i | 0 <= i < |s| - 1 :: !(IsWhitespace(s[i]) && IsWhitespace(s[i + 1])))
  }

  /** A slice of a spaced string is spaced. */
  lemma SpacedSlice(c: string, i: nat, j: nat)
    requires i <= j <= |c| && Spaced(c)
    ensures Spaced(c[i..j])
  {
    var r := c[i..j];
    forall k | 0 <= k < |r| && IsWhitespace(r[k]) ensures r[k] == ' ' {
      assert r[k] == c[i + k];
    }
    forall k | 0 <= k < |r| - 1 ensures !(IsWhitespace(r[k]) && IsWhitespace(r[k + 1])) {
      assert r[k] == c[i + k] && r[k + 1] == c[i + k + 1];
    }
  }

  /** A string as the cleanup leaves it: spaced, and no whitespace at either end. */
  predicate IsClean(s: string)
  {
    Spaced(s) && (s == [] || (!IsWhitespace(s[0]) && !IsWhitespace(s[|s| - 1])))
  }

  /** `s.replace(/\s+/g, ' ').trim()` (popup.js:317, content.js:84-87). */
  function Cleanup(s: string): (r: string)
    ensures IsClean(r)
    ensures '\n' !in r
  {
    TrimOfSpaced(CollapseWhitespace(s));
    Trim(CollapseWhitespace(s))
  }

  /** Trimming a spaced text leaves a clean one. */
  lemma TrimOfSpaced(c: string)
    requires Spaced(c)
    ensures IsClean(Trim(c)) && '\n' !in Trim(c)
  {
    var t := c[LeadingSpace(c)..];
    SpacedSlice(c, LeadingSpace(c), |c|);
    assert c[LeadingSpace(c)..|c|] == t;
    var m := |t| - TrailingSpace(t);
    SpacedSlice(t, 0, m);
    assert t[0..m] == t[..m];
    var r := t[..m];
    if r != [] {
      assert r[0] == t[0] && r[|r| - 1] == t[m - 1];
    }
  }

  /** No character of `s` is whitespace. */
  predicate NoWhitespace(s: string)
  {
    forall i | 0 <= i < |s| :: !IsWhitespace(s[i])
  }

  /** The length of the run of non-whitespace characters that opens `s`. */
  function WordLength(s: string): (n: nat)
    ensures n <= |s| && NoWhitespace(s[..n])
    ensures n < |s| ==> IsWhitespace(s[n])
    decreases |s|
  {
    if |s| > 0 && !IsWhitespace(s[0]) then 1 + WordLength(s[1..]) else 0
  }

  /** The words of `s`: its maximal runs of non-whitespace characters, in order. */
  function Tokens(s: string): seq<string>
    decreases |s|
  {
    var t := s[LeadingSpace(s)..];
    if t == [] then []
    else
      var n := WordLength(t);
      [t[..n]] + Tokens(t[n..])
  }

  /** Each word is non-empty and holds no whitespace. */
  lemma {:induction false} TokensAreWords(s: string)
    ensures forall k | 0 <= k < |Tokens(s)| :: Tokens(s)[k] != [] && NoWhitespace(Tokens(s)[k])
    decreases |s|
  {
    var t := s[LeadingSpace(s)..];
    if t != [] {
      assert t[0] == s[LeadingSpace(s)];
      var n := WordLength(t);
      var rest := Tokens(t[n..]);
      TokensAreWords(t[n..]);
      assert Tokens(s) == [t[..n]] + rest;
      forall k | 0 <= k < |Tokens(s)| ensures Tokens(s)[k] != [] && NoWhitespace(Tokens(s)[k]) {
        if k > 0 {
          assert Tokens(s)[k] == rest[k - 1];
        }
      }
    }
  }

  /** `words.join(' ')` */
  function Join(words: seq<string>): string
    decreases |words|
  {
    if |words| == 0 then [] else if |words| == 1 then words[0] else words[0] + " " + Join(words[1..])
  }

  /** A whitespace character in front adds no word. */
  lemma TokensSpaceCons(c: char, r: string)
    requires IsWhitespace(c)
    ensures Tokens([c] + r) == Tokens(r)
  {
    var s := [c] + r;
    assert s[1..] == r;
    assert LeadingSpace(s) == 1 + LeadingSpace(r);
    assert s[LeadingSpace(s)..] == r[LeadingSpace(r)..];
  }

  /** A non-whitespace character in front starts a new first word when `r` opens with
      whitespace (or is empty), and joins the first word of `r` otherwise. */
  lemma TokensWordCons(c: char, r: string)
    requires !IsWhitespace(c)
    ensures r == [] || IsWhitespace(r[0]) ==> Tokens([c] + r) == [[c]] + Tokens(r)
    ensures r != [] && !IsWhitespace(r[0]) ==>
              Tokens(r) != [] && Tokens([c] + r) == [[c] + Tokens(r)[0]] + Tokens(r)[1..]
  {
    var s := [c] + r;
    assert s[1..] == r;
    assert LeadingSpace(s) == 0;
    assert s[0..] == s;
    if r == [] || IsWhitespace(r[0]) {
      assert WordLength(s) == 1;
      assert s[..1] == [c] && s[1..] == r;
    } else {
      var m := WordLength(r);
      assert WordLength(s) == 1 + m;
      assert LeadingSpace(r) == 0;
      assert r[0..] == r;
      assert s[..1 + m] == [c] + r[..m];
      assert s[1 + m..] == r[m..];
    }
  }

  lemma {:induction false} TokensOfWhitespace(s: string)
    requires AllWhitespace(s)
    ensures Tokens(s) == []
  {
    LeadingSpaceOfWhitespace(s);
  }

  /** Whitespace at the end adds no word. */
  lemma {:induction false} TokensSpaceAfter(m: string, z: string)
    requires AllWhitespace(z)
    ensures Tokens(m + z) == Tokens(m)
    decreases |m|
  {
    if m == [] {
      assert m + z == z;
      TokensOfWhitespace(z);
    } else {
      var c, rest := m[0], m[1..];
      assert m == [c] + rest;
      assert m + z == [c] + (rest + z);
      TokensSpaceAfter(rest, z);
      if IsWhitespace(c) {
        TokensSpaceCons(c, rest + z);
        TokensSpaceCons(c, rest);
      } else {
        TokensWordCons(c, rest + z);
        TokensWordCons(c, rest);
        if rest == [] {
          assert rest + z == z;
        } else {
          assert (rest + z)[0] == rest[0];
        }
      }
    }
  }

  /** Whitespace at the start adds no word. */
  lemma {:induction false} TokensSpaceBefore(a: string, m: string)
    requires AllWhitespace(a)
    ensures Tokens(a + m) == Tokens(m)
    decreases |a|
  {
    if a != [] {
      assert a + m == [a[0]] + (a[1..] + m);
      TokensSpaceCons(a[0], a[1..] + m);
      TokensSpaceBefore(a[1..], m);
    } else {
      assert a + m == m;
    }
  }

  /** Collapsing whitespace runs keeps the words. */
  lemma {:induction false} CollapseKeepsTokens(s: string)
    ensures Tokens(CollapseWhitespace(s)) == Tokens(s)
    decreases |s|
  {
    if |s| > 0 {
      if IsWhitespace(s[0]) {
        CollapseKeepsTokens(s[LeadingSpace(s)..]);
        CollapseSpaceStep(s);
      } else {
        CollapseKeepsTokens(s[1..]);
        CollapseWordStep(s);
      }
    }
  }

  lemma CollapseSpaceStep(s: string)
    requires |s| > 0 && IsWhitespace(s[0])
    requires Tokens(CollapseWhitespace(s[LeadingSpace(s)..])) == Tokens(s[LeadingSpace(s)..])
    ensures Tokens(CollapseWhitespace(s)) == Tokens(s)
  {
    var n := LeadingSpace(s);
    TokensSpaceCons(' ', CollapseWhitespace(s[n..]));
    SplitAt(s, n);
    TokensSpaceBefore(s[..n], s[n..]);
  }

  lemma CollapseWordStep(s: string)
    requires |s| > 0 && !IsWhitespace(s[0])
    requires Tokens(CollapseWhitespace(s[1..])) == Tokens(s[1..])
    ensures Tokens(CollapseWhitespace(s)) == Tokens(s)
  {
    var rest := s[1..];
    assert s == [s[0]] + rest;
    TokensWordCons(s[0], CollapseWhitespace(rest));
    TokensWordCons(s[0], rest);
  }

  /** Cutting whitespace off both ends keeps the words. */
  lemma TrimKeepsTokens(c: string)
    ensures Tokens(Trim(c)) == Tokens(c)
  {
    var t := c[LeadingSpace(c)..];
    var m := |t| - TrailingSpace(t);
    SplitAt(c, LeadingSpace(c));
    TokensSpaceBefore(c[..LeadingSpace(c)], t);
    SplitAt(t, m);
    TokensSpaceAfter(t[..m], t[m..]);
  }

  /** A text that opens with a word: that word, then the words of the rest. */
  lemma TokensOfWordStart(r: string)
    requires r != [] && !IsWhitespace(r[0])
    ensures WordLength(r) >= 1
    ensures Tokens(r) == [r[..WordLength(r)]] + Tokens(r[WordLength(r)..])
  {
    assert LeadingSpace(r) == 0;
    assert r[0..] == r;
  }

  /** Past its first word, a clean text holds one space and then a clean text. */
  lemma CleanRest(r: string, n: nat)
    requires IsClean(r) && r != [] && n == WordLength(r) < |r|
    ensures n + 1 < |r| && r[n] == ' ' && !IsWhitespace(r[n + 1])
    ensures IsClean(r[n + 1..])
  {
    SpaceAfterWord(r, n);
    SpacedSlice(r, n + 1, |r|);
    CleanSuffix(r, n + 1);
  }

  lemma SplitAtSpace(r: string, n: nat)
    requires n < |r| && r[n] == ' '
    ensures r == r[..n] + " " + r[n + 1..]
  {
    assert r == r[..n] + r[n..];
    assert r[n..] == [r[n]] + r[n + 1..];
  }

  lemma SpaceAfterWord(r: string, n: nat)
    requires Spaced(r) && r != [] && !IsWhitespace(r[|r| - 1]) && n < |r| && IsWhitespace(r[n])
    ensures n + 1 < |r| && r[n] == ' ' && !IsWhitespace(r[n + 1])
  {
  }

  lemma CleanSuffix(r: string, k: nat)
    requires 0 < k < |r| && Spaced(r[k..|r|]) && !IsWhitespace(r[k]) && !IsWhitespace(r[|r| - 1])
    ensures IsClean(r[k..])
  {
    assert r[k..|r|] == r[k..];
  }

  lemma JoinCons(w: string, rest: seq<string>)
    requires rest != []
    ensures Join([w] + rest) == w + " " + Join(rest)
  {
    assert ([w] + rest)[1..] == rest;
  }

  /** A clean text is its words joined by single spaces. */
  lemma {:induction false} CleanIsJoin(r: string)
    requires IsClean(r)
    ensures r == Join(Tokens(r))
    decreases |r|
  {
    if r != [] {
      var n := WordLength(r);
      if n < |r| {
        CleanRest(r, n);
        CleanIsJoin(r[n + 1..]);
        JoinAfterSpace(r[..n], r[n + 1..]);
        SplitAtSpace(r, n);
      } else {
        JoinOfOneWord(r);
      }
    }
  }

  /** A word, one space, and a rest that is the join of its own words. */
  lemma JoinAfterSpace(w: string, rest: string)
    requires w != [] && NoWhitespace(w)
    requires rest == Join(Tokens(rest)) && rest != [] && !IsWhitespace(rest[0])
    ensures w + " " + rest == Join(Tokens(w + " " + rest))
  {
    Associative(w, " ", rest);
    TokensWordThen(w, " " + rest);
    TokensSpaceCons(' ', rest);
    TokensOfWordStart(rest);
    JoinCons(w, Tokens(rest));
  }

  /** A text that is one word. */
  lemma JoinOfOneWord(r: string)
    requires r != [] && !IsWhitespace(r[0]) && WordLength(r) == |r|
    ensures r == Join(Tokens(r))
  {
    TokensOfWordStart(r);
    assert r[..|r|] == r;
    assert r[|r|..] == [];
  }

  /** `s.replace(/\s+/g, ' ').trim()` is the words of `s` joined by single spaces, so it
      keeps every word, in order, and the boundaries between them. */
  lemma CleanupJoinsTokens(s: string)
    ensures Cleanup(s) == Join(Tokens(s))
    ensures Tokens(Cleanup(s)) == Tokens(s)
  {
    CollapseKeepsTokens(s);
    TrimKeepsTokens(CollapseWhitespace(s));
    CleanIsJoin(Cleanup(s));
  }

  /** A word followed by whitespace (or by nothing) is the first word. */
  lemma TokensWordThen(x: string, r: string)
    requires x != [] && NoWhitespace(x) && (r == [] || IsWhitespace(r[0]))
    ensures Tokens(x + r) == [x] + Tokens(r)
  {
    var s := x + r;
    assert s[0] == x[0];
    TokensOfWordStart(s);
    WordLengthOfWordThen(x, r);
    PartsOfAppend(x, r);
  }

  lemma {:induction false} WordLengthOfWordThen(x: string, r: string)
    requires NoWhitespace(x) && (r == [] || IsWhitespace(r[0]))
    ensures WordLength(x + r) == |x|
    decreases |x|
  {
    if x == [] {
      assert x + r == r;
    } else {
      var s := x + r;
      assert s[0] == x[0] && s[1..] == x[1..] + r;
      WordLengthOfWordThen(x[1..], r);
    }
  }

  /** Cleanup keeps the boundary between two words: whatever whitespace separates them
      becomes one space, and none is dropped. */
  lemma CleanupKeepsBoundary(a: string, x: string, w: string, y: string, z: string)
    requires AllWhitespace(a) && AllWhitespace(w) && AllWhitespace(z) && w != []
    requires x != [] && y != [] && NoWhitespace(x) && NoWhitespace(y)
    ensures Cleanup(a + x + w + y + z) == x + " " + y
  {
    var s := a + x + w + y + z;
    Associative(a + x + w, y, z);
    Associative(a + x, w, y + z);
    Associative(a, x, w + (y + z));
    CleanupJoinsTokens(s);
    TokensOfTwoWords(a, x, w, y, z);
    JoinCons(x, [y]);
  }

  lemma TokensOfTwoWords(a: string, x: string, w: string, y: string, z: string)
    requires AllWhitespace(a) && AllWhitespace(w) && AllWhitespace(z) && w != []
    requires x != [] && y != [] && NoWhitespace(x) && NoWhitespace(y)
    ensures Tokens(a + (x + (w + (y + z)))) == [x, y]
  {
    TokensSpaceBefore(a, x + (w + (y + z)));
    TokensWordThen(x, w + (y + z));
    TokensSpaceBefore(w, y + z);
    TokensSpaceAfter(y, z);
    assert y + [] == y;
    TokensWordThen(y, []);
    TokensOfWhitespace([]);
  }

  lemma {:induction false} CollapseFixesSpaced(s: string)
    requires Spaced(s)
    ensures CollapseWhitespace(s) == s
    decreases |s|
  {
    if |s| > 0 {
      SpacedSlice(s, 1, |s|);
      assert s[1..|s|] == s[1..];
      CollapseFixesSpaced(s[1..]);
      if IsWhitespace(s[0]) {
        SpaceRunIsOne(s);
      }
      assert [s[0]] + s[1..] == s;
    }
  }

  /** In a spaced text a whitespace run is one plain space. */
  lemma SpaceRunIsOne(s: string)
    requires Spaced(s) && |s| > 0 && IsWhitespace(s[0])
    ensures LeadingSpace(s) == 1 && s[0] == ' '
  {
    if |s| > 1 {
      assert !IsWhitespace(s[1]);
      assert LeadingSpace(s[1..]) == 0;
    }
  }

  /** Cleanup is idempotent: a cleaned string is its own cleanup. */
  lemma CleanupIdempotent(s: string)
    ensures Cleanup(Cleanup(s)) == Cleanup(s)
  {
    var r := Cleanup(s);
    CollapseFixesSpaced(r);
    TrimOfClean(r);
  }

  lemma TrimOfClean(r: string)
    requires IsClean(r)
    ensures Trim(r) == r
  {
    if r != [] {
      assert [] + r + [] == r;
      TrimOfPadded([], r, []);
    }
  }

  lemma Associative(a: string, b: string, c: string)
    ensures a + b + c == a + (b + c)
  {
  }

  lemma SplitAt(s: string, k: nat)
    requires k <= |s|
    ensures s == s[..k] + s[k..]
  {
  }

  lemma PartsOfAppend(a: string, b: string)
    ensures (a + b)[..|a|] == a && (a + b)[|a|..] == b
  {
  }

  /** `t` does not start with `p` when they differ at position `k`. */
  lemma PrefixDiffers(t: string, p: string, k: nat)
    requires k < |p| && (k >= |t| || t[k] != p[k])
    ensures !HasPrefix(t, p)
  {
    assert |p| > |t| || t[..|p|][k] == t[k];
  }

  /** A slice holds only characters of the whole. */
  lemma SliceAvoids(s: string, i: nat, j: nat, z: char)
    requires i <= j <= |s| && z !in s
    ensures z !in s[i..j]
  {
    forall k | 0 <= k < j - i ensures s[i..j][k] != z {
      assert s[i..j][k] == s[i + k];
    }
  }

  lemma DropAvoids(s: string, n: nat, z: char)
    requires n <= |s| && z !in s
    ensures z !in s[n..]
  {
    SliceAvoids(s, n, |s|, z);
    assert s[n..|s|] == s[n..];
  }

  /** `s.replace(/\n/g, '<br>')` */
  function ReplaceNewlines(s: string): (r: string)
    ensures '\n' !in r
    decreases |s|
  {
    if |s| == 0 then
      []
    else
      (if s[0] == '\n' then "<br>" else [s[0]]) + ReplaceNewlines(s[1..])
  }

  /** Each newline becomes four characters, every other character stays one. */
  lemma {:induction false} ReplaceNewlinesLength(s: string)
    ensures |ReplaceNewlines(s)| == |s| + 3 * multiset(s)['\n']
    decreases |s|
  {
    if |s| > 0 {
      ReplaceNewlinesLength(s[1..]);
      assert s == [s[0]] + s[1..];
      assert multiset(s) == multiset([s[0]]) + multiset(s[1..]);
      ReplaceNewlinesCons(s[0], s[1..]);
    }
  }

  /** Only the characters of `<br>` are added. */
  lemma {:induction false} ReplaceNewlinesAvoids(s: string, z: char)
    requires z !in s && z !in "<br>"
    ensures z !in ReplaceNewlines(s)
    decreases |s|
  {
    if |s| > 0 {
      assert s[0] in s;
      DropAvoids(s, 1, z);
      ReplaceNewlinesAvoids(s[1..], z);
    }
  }

  lemma {:induction false} ReplaceNewlinesAppend(a: string, b: string)
    ensures ReplaceNewlines(a + b) == ReplaceNewlines(a) + ReplaceNewlines(b)
    decreases |a|
  {
    if a == [] {
      assert a + b == b;
    } else {
      var head := if a[0] == '\n' then "<br>" else [a[0]];
      assert (a + b)[0] == a[0];
      assert (a + b)[1..] == a[1..] + b;
      ReplaceNewlinesAppend(a[1..], b);
      Associative(head, ReplaceNewlines(a[1..]), ReplaceNewlines(b));
    }
  }

  lemma {:induction false} ReplaceNewlinesFree(a: string)
    requires '\n' !in a
    ensures ReplaceNewlines(a) == a
    decreases |a|
  {
    if a != [] {
      assert a[0] in a;
      ReplaceNewlinesFree(a[1..]);
      assert [a[0]] + a[1..] == a;
    }
  }

  lemma ReplaceNewlinesCons(c: char, t: string)
    ensures ReplaceNewlines([c] + t) == (if c == '\n' then "<br>" else [c]) + ReplaceNewlines(t)
  {
    assert ([c] + t)[0] == c;
    assert ([c] + t)[1..] == t;
  }

  /** Text without a newline passes through, whatever follows it. */
  lemma {:induction false} ReplaceNewlinesPrefixFree(a: string, t: string)
    requires '\n' !in a
    ensures ReplaceNewlines(a + t) == a + ReplaceNewlines(t)
    decreases |a|
  {
    if a == [] {
      assert a + t == t;
    } else {
      assert a[0] in a;
      assert a + t == [a[0]] + (a[1..] + t);
      ReplaceNewlinesCons(a[0], a[1..] + t);
      ReplaceNewlinesPrefixFree(a[1..], t);
      assert [a[0]] + (a[1..] + ReplaceNewlines(t)) == a + ReplaceNewlines(t);
    }
  }

  /** `String(n)` for a non-negative integer: its decimal digits, without leading zeros. */
  function NatToString(n: nat): (r: string)
    ensures |r| > 0
    ensures forall i | 0 <= i < |r| :: '0' <= r[i] <= '9'
    ensures r[0] == '0' ==> n == 0
    decreases n
  {
    if n < 10 then [DigitChar(n)] else NatToString(n / 10) + [DigitChar(n % 10)]
  }

  function DigitChar(d: nat): (c: char)
    requires d < 10
    ensures '0' <= c <= '9'
  {
    (48 + d) as char
  }
}
