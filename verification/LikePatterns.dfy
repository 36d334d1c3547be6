/** The LIKE patterns built for job search and the board filter, against SQLite's LIKE with ESCAPE '\'. */
module LikePatterns {

  // ---- the matcher ---------------------------------------------------------------------------

  /** LIKE ignores case for ASCII letters only. */
  function Fold(c: char): char {
    if 'A' <= c <= 'Z' then (c as int + 32) as char else c
  }

  predicate Same(a: char, b: char) { Fold(a) == Fold(b) }

  /** `h LIKE p ESCAPE '\'`; a pattern that ends in the escape character matches nothing. */
  predicate Like(p: string, h: string)
    decreases |p| + |h|
  {
    if p == [] then h == []
    else if p[0] == '%' then Like(p[1..], h) || (h != [] && Like(p, h[1..]))
    else if h == [] then false
    else if p[0] == '_' then Like(p[1..], h[1..])
    else if p[0] == '\\' then |p| > 1 && Same(p[1], h[0]) && Like(p[2..], h[1..])
    else Same(p[0], h[0]) && Like(p[1..], h[1..])
  }

  /** Two characters are the same exactly if they are equal or the two cases of one ASCII letter. */
  lemma SameMeaning(a: char, b: char)
    ensures Same(a, b) <==> a == b || ('A' <= a <= 'Z' && b as int == a as int + 32) || ('A' <= b <= 'Z' && a as int == b as int + 32)
  {}

  predicate Special(c: char) { c == '%' || c == '_' || c == '\\' }

  function Escape(c: char): string { if Special(c) then ['\\', c] else [c] }

  // ---- the compilers ---------------------------------------------------------------------------

  function Escaped(s: string): string {
    if s == [] then [] else Escaped(s[..|s| - 1]) + Escape(s[|s| - 1])
  }

  function Subsequence(q: string): string {
    if q == [] then "%" else Subsequence(q[..|q| - 1]) + (Escape(q[|q| - 1]) + "%")
  }

  /** `escape_like`. */
  method EscapeLike(s: string) returns (out: string)
    ensures out == Escaped(s)
  {
    out := "";
    for i := 0 to |s|
      invariant out == Escaped(s[..i])
    {
      assert s[..i + 1][..i] == s[..i];
      var c := s[i];
      if c == '%' || c == '_' || c == '\\' { out := out + ['\\']; }
      out := out + [c];
    }
    assert s[..|s|] == s;
  }

  /** `subsequence_pattern`. */
  method SubsequencePattern(query: string) returns (p: string)
    ensures p == Subsequence(query)
  {
    p := "%";
    for i := 0 to |query|
      invariant p == Subsequence(query[..i])
    {
      assert query[..i + 1][..i] == query[..i];
      var c := query[i];
      if c == '%' || c == '_' || c == '\\' { p := p + ['\\']; }
      p := p + [c];
      p := p + "%";
    }
    assert query[..|query|] == query;
  }

  // ---- what they mean ----------------------------------------------------------------------------

  /** The characters of q sit, in order, at these places of h. */
  predicate Embeds(q: string, h: string, at: seq<nat>) {
    && |at| == |q|
    && (forall i | 0 <= i < |q| :: at[i] < |h| && Same(q[i], h[at[i]]))
    && (forall i, j | 0 <= i < j < |q| :: at[i] < at[j])
  }

  ghost predicate IsSubsequence(q: string, h: string) { exists at :: Embeds(q, h, at) }

  predicate OccursAt(q: string, h: string, k: nat) {
    k + |q| <= |h| && forall i | 0 <= i < |q| :: Same(q[i], h[k + i])
  }

  predicate Contains(h: string, q: string) { exists k :: 0 <= k <= |h| && OccursAt(q, h, k) }

  // ---- unfolding from the front ---------------------------------------------------------------------

  lemma {:induction false} EscapedCons(c: char, s: string)
    ensures Escaped([c] + s) == Escape(c) + Escaped(s)
    decreases |s|
  {
    hide Escape;
    if s == [] {
      assert [c] + s == [c] && [c][..0] == [];
    } else {
      var init, last := s[..|s| - 1], s[|s| - 1];
      assert ([c] + s)[..|s|] == [c] + init;
      EscapedCons(c, init);
      assert (Escape(c) + Escaped(init)) + Escape(last) == Escape(c) + (Escaped(init) + Escape(last));
    }
  }

  lemma {:induction false} SubsequenceCons(c: char, q: string)
    ensures Subsequence([c] + q) == "%" + Escape(c) + Subsequence(q)
    decreases |q|
  {
    hide Escape;
    if q == [] {
      assert [c] + q == [c] && [c][..0] == [];
    } else {
      var init, tail := q[..|q| - 1], Escape(q[|q| - 1]) + "%";
      assert ([c] + q)[..|q|] == [c] + init;
      SubsequenceCons(c, init);
      assert ("%" + Escape(c) + Subsequence(init)) + tail == "%" + Escape(c) + (Subsequence(init) + tail);
    }
  }

  /** An escaped character matches exactly itself, up to case. */
  lemma LikeEscape(c: char, p: string, h: string)
    ensures Like(Escape(c) + p, h) <==> h != [] && Same(c, h[0]) && Like(p, h[1..])
  {
    var e := Escape(c) + p;
    if Special(c) {
      assert e[0] == '\\' && e[1] == c && e[2..] == p;
    } else {
      assert e[0] == c && e[1..] == p;
    }
  }

  lemma LikePercent(p: string, h: string)
    ensures Like("%" + p, h) <==> Like(p, h) || (h != [] && Like("%" + p, h[1..]))
  {
    assert ("%" + p)[1..] == p;
  }

  // ---- subsequence ------------------------------------------------------------------------------------

  /** The first character either matches q's first, or is skipped. */
  lemma SubsequenceStep(q: string, h: string)
    requires q != []
    ensures IsSubsequence(q, h) <==>
            h != [] && ((Same(q[0], h[0]) && IsSubsequence(q[1..], h[1..])) || IsSubsequence(q, h[1..]))
  {
    if at :| Embeds(q, h, at) { EmbeddingShrinks(q, h, at); }
    if h != [] && Same(q[0], h[0]) && IsSubsequence(q[1..], h[1..]) {
      var at :| Embeds(q[1..], h[1..], at);
      EmbeddingGrows(q, h, at);
    }
    if h != [] && IsSubsequence(q, h[1..]) {
      var at :| Embeds(q, h[1..], at);
      EmbeddingShifts(q, h, at);
    }
  }

  lemma EmbeddingGrows(q: string, h: string, at: seq<nat>)
    requires q != [] && h != [] && Same(q[0], h[0]) && Embeds(q[1..], h[1..], at)
    ensures IsSubsequence(q, h)
  {
    hide Same;
    var more: seq<nat> := [0] + seq(|at|, i requires 0 <= i < |at| => at[i] + 1);
    assert Embeds(q, h, more);
  }

  lemma EmbeddingShifts(q: string, h: string, at: seq<nat>)
    requires h != [] && Embeds(q, h[1..], at)
    ensures IsSubsequence(q, h)
  {
    hide Same;
    assert Embeds(q, h, seq(|at|, i requires 0 <= i < |at| => at[i] + 1));
  }

  lemma EmbeddingShrinks(q: string, h: string, at: seq<nat>)
    requires q != [] && Embeds(q, h, at)
    ensures h != [] && ((Same(q[0], h[0]) && IsSubsequence(q[1..], h[1..])) || IsSubsequence(q, h[1..]))
  {
    assert at[0] < |h|;
    if at[0] == 0 {
      var less := seq(|q| - 1, i requires 0 <= i < |q| - 1 => at[i + 1] - 1) ;
      assert Embeds(q[1..], h[1..], less);
    } else {
      var less := seq(|q|, i requires 0 <= i < |q| => at[i] - 1);
      assert Embeds(q, h[1..], less);
    }
  }

  lemma {:induction false} PercentMatchesAll(h: string)
    ensures Like("%", h)
  {
    assert "%" == "%" + "";
    LikePercent("", h);
    if h != [] { PercentMatchesAll(h[1..]); }
  }

  /** Search membership: a haystack matches the compiled pattern exactly if the query is a subsequence of it,
      whatever characters the query contains. */
  lemma {:induction false} SubsequencePatternMeaning(q: string, h: string)
    ensures Like(Subsequence(q), h) <==> IsSubsequence(q, h)
    decreases |q| + |h|
  {
    if q == [] {
      PercentMatchesAll(h);
      assert Embeds(q, h, []);
    } else {
      assert [q[0]] + q[1..] == q;
      SubsequenceCons(q[0], q[1..]);
      var body := Escape(q[0]) + Subsequence(q[1..]);
      assert Subsequence(q) == "%" + body;
      LikePercent(body, h);
      LikeEscape(q[0], Subsequence(q[1..]), h);
      SubsequenceStep(q, h);
      if h != [] {
        SubsequencePatternMeaning(q, h[1..]);
        SubsequencePatternMeaning(q[1..], h[1..]);
      }
    }
  }

  // ---- substring ----------------------------------------------------------------------------------------

  lemma {:induction false} EscapedPrefixMeaning(q: string, h: string)
    ensures Like(Escaped(q) + "%", h) <==> OccursAt(q, h, 0)
    decreases |q|
  {
    if q == [] {
      PercentMatchesAll(h);
      assert Escaped(q) + "%" == "%";
    } else {
      assert [q[0]] + q[1..] == q;
      EscapedCons(q[0], q[1..]);
      assert Escaped(q) + "%" == Escape(q[0]) + (Escaped(q[1..]) + "%");
      LikeEscape(q[0], Escaped(q[1..]) + "%", h);
      if h != [] {
        EscapedPrefixMeaning(q[1..], h[1..]);
        assert OccursAt(q, h, 0) ==> OccursAt(q[1..], h[1..], 0);
      }
    }
  }

  lemma ContainsStep(h: string, q: string)
    ensures Contains(h, q) <==> OccursAt(q, h, 0) || (h != [] && Contains(h[1..], q))
  {
    if k :| 0 <= k <= |h| && OccursAt(q, h, k) {
      if k > 0 { assert OccursAt(q, h[1..], k - 1); }
    }
    if h != [] {
      if k :| 0 <= k <= |h[1..]| && OccursAt(q, h[1..], k) { assert OccursAt(q, h, k + 1); }
    }
  }

  /** The board filter: a name matches `%` + escaped + `%` exactly if the text occurs in it, literally, up to case. */
  lemma {:induction false} ContainsPatternMeaning(q: string, h: string)
    ensures Like("%" + (Escaped(q) + "%"), h) <==> Contains(h, q)
    decreases |h|
  {
    LikePercent(Escaped(q) + "%", h);
    EscapedPrefixMeaning(q, h);
    ContainsStep(h, q);
    if h != [] { ContainsPatternMeaning(q, h[1..]); }
  }
}
