/**
 * Corrected forms of the traversal decision.
 *
 *  - `EscapesByChars` measures the base in the same unit the prefix is cut
 *    in (characters), so that containment no longer depends on whether the
 *    base is ASCII.
 *  - `EscapesBySegment` also asks that the matched prefix end on a path
 *    separator (or at the end of the candidate), so that a sibling whose
 *    name merely extends the base's last segment counts as outside.
 *
 * `IsPathTravCorrected` is `is_path_trav` with the second of these in place
 * of the raw comparison; existence checks and error precedence are unchanged.
 */
module Corrected {
  import opened RustStr
  import opened PathTrav

  const Sep: char := '/'

  predicate EndsWithSep(b: string) {
    |b| > 0 && b[|b| - 1] == Sep
  }

  /**
   * The path `t` below directory `b`: `b`, then a separator unless `b`
   * already ends with one, then `t`.
   */
  function Join(b: string, t: string): (p: string)
    ensures b <= p
    ensures |p| > |b| ==> EndsWithSep(b) || p[|b|] == Sep
  {
    if EndsWithSep(b) then b + t else b + [Sep] + t
  }

  /** `c` is the directory `b` itself or a path below it. */
  ghost predicate Below(b: string, c: string) {
    c == b || exists t :: c == Join(b, t)
  }

  /** The raw comparison, with the base measured in characters. */
  function EscapesByChars(b: string, c: string): (e: bool)
    ensures e <==> !(b <= c)
  {
    SubstringFromStart(c, |b|);
    Substring(c, 0, |b|) != b
  }

  /** The comparison made segment-aware: the match must end on a boundary. */
  function EscapesBySegment(b: string, c: string): (e: bool)
    ensures e <==> !Below(b, c)
  {
    var matched := !EscapesByChars(b, c);
    var onBoundary := |c| == |b| || EndsWithSep(b) || (|c| > |b| && c[|b|] == Sep);
    BelowIff(b, c);
    !(matched && onBoundary)
  }

  /** `Below` in terms of a prefix that ends on a segment boundary. */
  lemma BelowIff(b: string, c: string)
    ensures Below(b, c) <==>
      b <= c && (|c| == |b| || EndsWithSep(b) || (|c| > |b| && c[|b|] == Sep))
  {
    if b <= c && |c| > |b| {
      if EndsWithSep(b) {
        assert c == Join(b, c[|b|..]);
      } else if c[|b|] == Sep {
        assert c == Join(b, c[|b| + 1..]);
      }
    }
    if b <= c && |c| == |b| {
      assert c == b;
    }
  }

  /**
   * `is_path_trav` with the segment-aware decision: the same errors in the
   * same order; `Ok(true)` exactly when the candidate is neither the base
   * nor below it.
   */
  function IsPathTravCorrected(fs: FileSystem, base: Path, relative: Path): (r: Result<bool, string>)
    requires Resolves(fs, base, relative)
    ensures !fs.pathExists(base) ==> r == Err(BaseMissing)
    ensures fs.pathExists(base) && !fs.pathExists(relative) ==> r == Err(RelativeMissing)
    ensures r.Ok? <==> fs.pathExists(base) && fs.pathExists(relative)
    ensures r.Ok? ==>
      (r.value <==> !Below(fs.canonicalize(base).value, fs.canonicalize(relative).value))
  {
    if !fs.pathExists(base) then Err(BaseMissing)
    else if !fs.pathExists(relative) then Err(RelativeMissing)
    else
      Ok(EscapesBySegment(fs.canonicalize(base).value, fs.canonicalize(relative).value))
  }

  /** The non-ASCII case of `PathTrav.NonAsciiExample`, now judged inside. */
  lemma NonAsciiDescendantAccepted()
    ensures !EscapesBySegment("/tmp/\U{E9}", "/tmp/\U{E9}/x")
  {
  }

  /** The sibling case of `PathTrav.SiblingPrefixIsSafe`, now a traversal. */
  lemma SiblingPrefixRejected()
    ensures EscapesBySegment("/home/user/data", "/home/user/data-evil/x")
  {
  }

  /**
   * Where the two agree: for an ASCII base, whatever the corrected check
   * accepts, the original accepts too; they differ only on siblings.
   */
  lemma CorrectedIsStricterForAscii(b: string, c: string)
    requires AllAscii(b)
    ensures !EscapesBySegment(b, c) ==> !Escapes(b, c)
  {
  }
}
