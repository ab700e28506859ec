/**
 * The crawler's URL filter: a small glob matcher over URL paths and the
 * include/exclude decision built on it.
 */
module Crawler {
  import opened Wrappers
  import opened Strings

  /** A `**` starts at index `i` of `p`. */
  predicate DoubleStarAt(p: string, i: int) {
    0 <= i && i + 1 < |p| && p[i] == '*' && p[i + 1] == '*'
  }

  /** The first `**` of `p` at or after `from`, if there is one. */
  function FirstDoubleStar(p: string, from: nat): (r: Option<nat>)
    ensures r.Some? ==>
      from <= r.value && DoubleStarAt(p, r.value) && forall j :: from <= j < r.value ==> !DoubleStarAt(p, j)
    ensures r.None? ==> forall j :: from <= j ==> !DoubleStarAt(p, j)
    decreases |p| - from
  {
    if from + 1 >= |p| then None
    else if DoubleStarAt(p, from) then Some(from)
    else FirstDoubleStar(p, from + 1)
  }

  /** The suffix that marks a tree pattern: a slash and two stars. */
  const TreeSuffix: string := "/**"

  // `_matches_pattern`: a pattern ending in a slash and two stars matches the
  // paths that start with the pattern less those three characters; a pattern
  // holding `**` elsewhere is split at its first `**` and matches the paths
  // that start with the part before and end with the part after; any other
  // pattern matches itself, and, when it ends in `*`, every path that starts
  // with the rest.
  function MatchesPattern(path: string, pattern: string): bool {
    if EndsWith(pattern, TreeSuffix) then StartsWith(path, pattern[..|pattern| - 3])
    else match FirstDoubleStar(pattern, 0)
      case Some(i) => StartsWith(path, pattern[..i]) && EndsWith(path, pattern[i + 2..])
      case None =>
        path == pattern || (EndsWith(pattern, "*") && StartsWith(path, pattern[..|pattern| - 1]))
  }

  /**
   * `base + TreeSuffix` matches exactly the paths that start with `base`: the
   * slash is dropped along with the stars.
   */
  lemma MatchesTree(path: string, base: string)
    ensures MatchesPattern(path, base + TreeSuffix) <==> StartsWith(path, base)
  {
    var p := base + TreeSuffix;
    assert p[|p| - 3..] == TreeSuffix;
    assert p[..|p| - 3] == base;
  }

  /** So a tree pattern also matches a sibling whose name extends the base. */
  lemma MatchesTreeSibling()
    ensures MatchesPattern("/docsearch", "/docs" + TreeSuffix)
  {
    MatchesTree("/docsearch", "/docs");
    assert "/docsearch"[..5] == "/docs";
  }

  /**
   * A pattern `pre + "**" + suf` whose first `**` is the one after `pre`, and
   * which is not a tree pattern, matches exactly the paths that start with
   * `pre` and end with `suf`.
   */
  lemma MatchesDoubleStar(path: string, pre: string, suf: string)
    requires forall j :: 0 <= j < |pre| ==> !DoubleStarAt(pre + "**" + suf, j)
    requires !EndsWith(pre + "**" + suf, TreeSuffix)
    ensures MatchesPattern(path, pre + "**" + suf) <==> StartsWith(path, pre) && EndsWith(path, suf)
  {
    var p := pre + "**" + suf;
    assert DoubleStarAt(p, |pre|);
    var r := FirstDoubleStar(p, 0);
    assert r == Some(|pre|);
    assert p[..|pre|] == pre;
    assert p[|pre| + 2..] == suf;
  }

  /** The part before and the part after the `**` may overlap in the path. */
  lemma MatchesDoubleStarOverlap()
    ensures MatchesPattern("/ab", "/ab**b")
  {
    assert "/ab**b" == "/ab" + "**" + "b";
    assert !DoubleStarAt("/ab**b", 0) && !DoubleStarAt("/ab**b", 1) && !DoubleStarAt("/ab**b", 2);
    assert !EndsWith("/ab**b", TreeSuffix);
    MatchesDoubleStar("/ab", "/ab", "b");
    assert "/ab"[..3] == "/ab";
    assert "/ab"[2..] == "b";
  }

  /**
   * A pattern without `**` matches itself, and otherwise only when it ends in
   * `*` and the path starts with the rest of it.
   */
  lemma MatchesPlain(path: string, pattern: string)
    requires forall j :: 0 <= j < |pattern| ==> !DoubleStarAt(pattern, j)
    ensures MatchesPattern(path, pattern) <==>
      path == pattern || (|pattern| > 0 && pattern[|pattern| - 1] == '*' && StartsWith(path, pattern[..|pattern| - 1]))
  {
    assert EndsWith(pattern, TreeSuffix) ==> DoubleStarAt(pattern, |pattern| - 2) by {
      assert EndsWith(pattern, TreeSuffix) ==> pattern[|pattern| - 3..] == TreeSuffix;
    }
    var r := FirstDoubleStar(pattern, 0);
    assert r.None?;
    if |pattern| > 0 {
      assert EndsWith(pattern, "*") <==> pattern[|pattern| - 1] == '*' by {
        assert pattern[|pattern| - 1..] == [pattern[|pattern| - 1]];
      }
    }
  }

  /** Every pattern, read as a path, matches itself. */
  lemma MatchesItself(pattern: string)
    ensures MatchesPattern(pattern, pattern)
  {
    if !EndsWith(pattern, TreeSuffix) {
      match FirstDoubleStar(pattern, 0)
      case Some(i) =>
        assert pattern[|pattern| - |pattern[i + 2..]|..] == pattern[i + 2..];
      case None =>
    }
  }

  /** The pattern loops of `_should_crawl`: some pattern of the list matches the path. */
  function AnyMatch(path: string, patterns: seq<string>): (b: bool)
    ensures b <==> exists i :: 0 <= i < |patterns| && MatchesPattern(path, patterns[i])
  {
    if patterns == [] then false
    else if MatchesPattern(path, patterns[0]) then true
    else
      var b := AnyMatch(path, patterns[1..]);
      assert forall i :: 1 <= i < |patterns| ==> patterns[i] == patterns[1..][i - 1];
      b
  }

  /** `if self.config.include:`: a missing list and an empty one both count as no patterns. */
  function Patterns(config: Option<seq<string>>): (ps: seq<string>)
    ensures config.None? ==> ps == []
    ensures config.Some? ==> ps == config.value
  {
    if config.None? then [] else config.value
  }

  /**
   * `_should_crawl` on the path of the URL: false when some exclude pattern
   * matches; otherwise, with a non-empty include list, true exactly when some
   * include pattern matches; and otherwise true.
   */
  function ShouldCrawl(path: string, includes: Option<seq<string>>, excludes: Option<seq<string>>): (b: bool)
    ensures (exists i :: 0 <= i < |Patterns(excludes)| && MatchesPattern(path, Patterns(excludes)[i])) ==> !b
    ensures ((forall i :: 0 <= i < |Patterns(excludes)| ==> !MatchesPattern(path, Patterns(excludes)[i]))
             && |Patterns(includes)| > 0) ==>
      (b <==> exists i :: 0 <= i < |Patterns(includes)| && MatchesPattern(path, Patterns(includes)[i]))
    ensures ((forall i :: 0 <= i < |Patterns(excludes)| ==> !MatchesPattern(path, Patterns(excludes)[i]))
             && Patterns(includes) == []) ==> b
  {
    if AnyMatch(path, Patterns(excludes)) then false
    else if Patterns(includes) != [] then AnyMatch(path, Patterns(includes))
    else true
  }

  /** Two lists holding the same patterns match the same paths. */
  lemma SameSetSameMatch(path: string, ps: seq<string>, qs: seq<string>)
    requires forall p :: p in ps <==> p in qs
    ensures AnyMatch(path, ps) == AnyMatch(path, qs)
  {
    if AnyMatch(path, ps) {
      var i :| 0 <= i < |ps| && MatchesPattern(path, ps[i]);
      assert ps[i] in qs;
      var j :| 0 <= j < |qs| && qs[j] == ps[i];
    }
    if AnyMatch(path, qs) {
      var j :| 0 <= j < |qs| && MatchesPattern(path, qs[j]);
      assert qs[j] in ps;
      var i :| 0 <= i < |ps| && ps[i] == qs[j];
    }
  }

  /** The decision depends on the patterns of each list, not on their order or repetition. */
  lemma ShouldCrawlOrderFree(path: string, inc1: seq<string>, inc2: seq<string>, exc1: seq<string>, exc2: seq<string>)
    requires forall p :: p in inc1 <==> p in inc2
    requires forall p :: p in exc1 <==> p in exc2
    ensures ShouldCrawl(path, Some(inc1), Some(exc1)) == ShouldCrawl(path, Some(inc2), Some(exc2))
  {
    SameSetSameMatch(path, exc1, exc2);
    SameSetSameMatch(path, inc1, inc2);
    assert inc1 == [] <==> inc2 == [] by {
      if inc1 != [] {
        assert inc1[0] in inc2;
      }
      if inc2 != [] {
        assert inc2[0] in inc1;
      }
    }
  }
}
