/** The last-star backtracking matcher against the meaning of `*` and `?`. */
module Glob {

  /** What a pattern means: `*` any stretch, `?` any one character. */
  predicate Matches(p: string, v: string)
    decreases |p| + |v|
  {
    if p == "" then v == ""
    else if p[0] == '*' then Matches(p[1..], v) || (v != "" && Matches(p, v[1..]))
    else v != "" && (p[0] == '?' || p[0] == v[0]) && Matches(p[1..], v[1..])
  }

  predicate OnlyStars(p: string) { forall i :: 0 <= i < |p| ==> p[i] == '*' }

  /** The matcher's loop as a function of its four indices. */
  predicate Scan(p: string, v: string, pi: nat, vi: nat, star: int, starV: nat)
    requires pi <= |p| && starV <= vi <= |v| && -1 <= star < pi
    decreases |p| - star, |v| - starV, |v| - vi
  {
    if vi == |v| then OnlyStars(p[pi..])
    else if pi < |p| && (p[pi] == '?' || p[pi] == v[vi]) then Scan(p, v, pi + 1, vi + 1, star, starV)
    else if pi < |p| && p[pi] == '*' then Scan(p, v, pi + 1, vi, pi, vi)
    else if star >= 0 then Scan(p, v, star + 1, starV + 1, star, starV + 1)
    else false
  }

  predicate Globs(p: string, v: string) { Scan(p, v, 0, 0, -1, 0) }

  method Glob(pattern: string, value: string) returns (matched: bool)
    ensures matched <==> Globs(pattern, value)
  {
    var patternIndex, valueIndex := 0, 0;
    var starIndex, starValueIndex := -1, 0;
    while valueIndex < |value|
      invariant 0 <= patternIndex <= |pattern| && 0 <= starValueIndex <= valueIndex <= |value| && -1 <= starIndex < patternIndex
      invariant Scan(pattern, value, patternIndex, valueIndex, starIndex, starValueIndex) <==> Globs(pattern, value)
      decreases |pattern| - starIndex, |value| - starValueIndex, |value| - valueIndex
    {
      if patternIndex < |pattern| && (pattern[patternIndex] == '?' || pattern[patternIndex] == value[valueIndex]) {
        patternIndex := patternIndex + 1;
        valueIndex := valueIndex + 1;
      } else if patternIndex < |pattern| && pattern[patternIndex] == '*' {
        starIndex := patternIndex;
        starValueIndex := valueIndex;
        patternIndex := patternIndex + 1;
      } else if starIndex >= 0 {
        patternIndex := starIndex + 1;
        starValueIndex := starValueIndex + 1;
        valueIndex := starValueIndex;
      } else {
        return false;
      }
    }
    while patternIndex < |pattern| && pattern[patternIndex] == '*'
      invariant patternIndex <= |pattern|
      invariant OnlyStars(pattern[patternIndex..]) <==> Globs(pattern, value)
    {
      assert pattern[patternIndex..] == ['*'] + pattern[patternIndex + 1..];
      patternIndex := patternIndex + 1;
    }
    matched := patternIndex == |pattern|;
    assert !matched ==> pattern[patternIndex..][0] != '*';
  }

  // ------------------------------------------------------------------ soundness

  lemma {:induction false} OnlyStarsMatchNothing(p: string)
    ensures OnlyStars(p) <==> Matches(p, "")
  {
    if p != "" {
      OnlyStarsMatchNothing(p[1..]);
      assert OnlyStars(p) <==> p[0] == '*' && OnlyStars(p[1..]) by {
        if p[0] == '*' && OnlyStars(p[1..]) {
          forall i | 0 <= i < |p| ensures p[i] == '*' { if i > 0 { assert p[1..][i - 1] == '*'; } }
        }
      }
    }
  }

  /** A star lets go of characters one at a time. */
  lemma {:induction false} StarAbsorbs(p: string, v: string, k: nat)
    requires p != "" && p[0] == '*' && k <= |v| && Matches(p, v[k..])
    ensures Matches(p, v)
    decreases k
  {
    if k > 0 {
      assert v[k - 1..][1..] == v[k..];
      assert Matches(p, v[k - 1..]);
      StarAbsorbs(p, v, k - 1);
    } else {
      assert v[0..] == v;
    }
  }

  /** What is left to match, at the current place or from the last star on. */
  ghost predicate Hope(p: string, v: string, pi: nat, vi: nat, star: int, starV: nat)
    requires pi <= |p| && starV <= vi <= |v| && -1 <= star < pi
  {
    || Matches(p[pi..], v[vi..])
    || (star >= 0 && exists k :: starV <= k <= |v| && Matches(p[star + 1..], v[k..]))
  }

  /** A true answer is always right: it means the remaining pattern matches at
      the current place or after a longer stretch for the last star. */
  lemma {:induction false} ScanIsSound(p: string, v: string, pi: nat, vi: nat, star: int, starV: nat)
    requires pi <= |p| && starV <= vi <= |v| && -1 <= star < pi
    requires Scan(p, v, pi, vi, star, starV)
    ensures Hope(p, v, pi, vi, star, starV)
    decreases |p| - star, |v| - starV, |v| - vi
  {
    if vi == |v| {
      OnlyStarsMatchNothing(p[pi..]);
    } else if pi < |p| && (p[pi] == '?' || p[pi] == v[vi]) {
      ScanIsSound(p, v, pi + 1, vi + 1, star, starV);
      if Matches(p[pi + 1..], v[vi + 1..]) { TakeOne(p, v, pi, vi); }
    } else if pi < |p| && p[pi] == '*' {
      ScanIsSound(p, v, pi + 1, vi, pi, vi);
      assert p[pi..][0] == '*' && p[pi..][1..] == p[pi + 1..];
      if k :| vi <= k <= |v| && Matches(p[pi + 1..], v[k..]) {
        assert Matches(p[pi..], v[k..]);
        assert v[vi..][k - vi..] == v[k..];
        StarAbsorbs(p[pi..], v[vi..], k - vi);
      }
    } else {
      ScanIsSound(p, v, star + 1, starV + 1, star, starV + 1);
    }
  }

  /** A literal step, also where the literal is a star in the value. */
  lemma TakeOne(p: string, v: string, pi: nat, vi: nat)
    requires pi < |p| && vi < |v| && (p[pi] == '?' || p[pi] == v[vi]) && Matches(p[pi + 1..], v[vi + 1..])
    ensures Matches(p[pi..], v[vi..])
  {
  }

  // --------------------------------------------------------------- completeness

  predicate StarFree(s: string) { forall i :: 0 <= i < |s| ==> s[i] != '*' }

  /** A star-free stretch consumes exactly its length. */
  lemma {:induction false} StretchConsumes(p: string, m: nat, w: string)
    requires m <= |p| && StarFree(p[..m]) && Matches(p, w)
    ensures m <= |w| && Matches(p[m..], w[m..])
    decreases m
  {
    if m == 0 {
      assert p[0..] == p && w[0..] == w;
    } else {
      assert p[..m][0] == p[0];
      var rest := p[1..][..m - 1];
      forall i | 0 <= i < |rest| ensures rest[i] != '*' { assert rest[i] == p[..m][i + 1]; }
      StretchConsumes(p[1..], m - 1, w[1..]);
      assert p[1..][m - 1..] == p[m..] && w[1..][m - 1..] == w[m..];
    }
  }

  /** The last star with the literals after it: they fill the value exactly from
      where the star's stretch ends to the current place. */
  predicate Aligned(p: string, pi: nat, vi: nat, star: int, starV: nat)
    requires pi <= |p| && starV <= vi && -1 <= star < pi
  {
    star >= 0 ==> pi - (star + 1) == vi - starV && StarFree(p[star + 1..pi])
  }

  /** A longer stretch for an earlier star is no better than one for a later. */
  lemma EarlierStarIsCovered(p: string, v: string, pi: nat, vi: nat, star: int, starV: nat, k: nat)
    requires pi <= |p| && starV <= vi <= |v| && 0 <= star < pi && Aligned(p, pi, vi, star, starV)
    requires starV < k <= |v| && Matches(p[star + 1..], v[k..])
    ensures k + (vi - starV) <= |v| && Matches(p[pi..], v[k + (vi - starV)..])
  {
    var m := vi - starV;
    assert p[star + 1..][..m] == p[star + 1..pi];
    StretchConsumes(p[star + 1..], m, v[k..]);
    assert p[star + 1..][m..] == p[pi..] && v[k..][m..] == v[k + m..];
  }

  /** What a later stretch of the last star could still achieve. */
  ghost predicate Later(p: string, v: string, star: int, starV: nat)
    requires -1 <= star < |p|
  {
    star >= 0 && exists k :: starV < k <= |v| && Matches(p[star + 1..], v[k..])
  }

  /** Without a star in the value, no match is missed. */
  lemma {:induction false} ScanIsComplete(p: string, v: string, pi: nat, vi: nat, star: int, starV: nat)
    requires pi <= |p| && starV <= vi <= |v| && -1 <= star < pi
    requires StarFree(v) && Aligned(p, pi, vi, star, starV)
    requires Matches(p[pi..], v[vi..]) || (star < |p| && Later(p, v, star, starV))
    ensures Scan(p, v, pi, vi, star, starV)
    decreases |p| - star, |v| - starV, |v| - vi
  {
    if vi == |v| {
      if star < |p| && Later(p, v, star, starV) && !Matches(p[pi..], v[vi..]) {
        var k :| starV < k <= |v| && Matches(p[star + 1..], v[k..]);
        EarlierStarIsCovered(p, v, pi, vi, star, starV, k);
      }
      OnlyStarsMatchNothing(p[pi..]);
    } else if pi < |p| && (p[pi] == '?' || p[pi] == v[vi]) {
      assert p[pi..][1..] == p[pi + 1..] && v[vi..][1..] == v[vi + 1..];
      if star >= 0 { assert p[star + 1..pi + 1] == p[star + 1..pi] + [p[pi]]; }
      ScanIsComplete(p, v, pi + 1, vi + 1, star, starV);
    } else if pi < |p| && p[pi] == '*' {
      CompleteAtStar(p, v, pi, vi, star, starV);
      ScanIsComplete(p, v, pi + 1, vi, pi, vi);
    } else {
      var k :| starV < k <= |v| && Matches(p[star + 1..], v[k..]);
      assert p[star + 1..star + 1] == "";
      ScanIsComplete(p, v, star + 1, starV + 1, star, starV + 1);
    }
  }

  /** At a new star the older one can be forgotten. */
  lemma CompleteAtStar(p: string, v: string, pi: nat, vi: nat, star: int, starV: nat)
    requires pi < |p| && starV <= vi <= |v| && -1 <= star < pi && p[pi] == '*'
    requires Aligned(p, pi, vi, star, starV)
    requires Matches(p[pi..], v[vi..]) || Later(p, v, star, starV)
    ensures Matches(p[pi + 1..], v[vi..]) || Later(p, v, pi, vi)
  {
    if !Matches(p[pi..], v[vi..]) {
      var k :| starV < k <= |v| && Matches(p[star + 1..], v[k..]);
      EarlierStarIsCovered(p, v, pi, vi, star, starV, k);
      var j := k + (vi - starV);
      assert v[vi..][j - vi..] == v[j..];
      StarAbsorbs(p[pi..], v[vi..], j - vi);
    }
    StarLetsGo(p[pi..], v[vi..]);
    var k :| 0 <= k <= |v[vi..]| && Matches(p[pi..][1..], v[vi..][k..]);
    assert p[pi..][1..] == p[pi + 1..] && v[vi..][k..] == v[vi + k..];
    if k > 0 { assert vi < vi + k <= |v| && Matches(p[pi + 1..], v[vi + k..]); }
  }

  lemma {:induction false} StarLetsGo(p: string, v: string)
    requires p != "" && p[0] == '*' && Matches(p, v)
    ensures exists k :: 0 <= k <= |v| && Matches(p[1..], v[k..])
    decreases |v|
  {
    if Matches(p[1..], v) {
      assert v[0..] == v;
    } else {
      StarLetsGo(p, v[1..]);
      var k :| 0 <= k <= |v[1..]| && Matches(p[1..], v[1..][k..]);
      assert v[1..][k..] == v[k + 1..];
    }
  }

  // ---------------------------------------------------------------------- exact

  /** A true answer means the pattern matches, for every pattern and value. */
  lemma GlobIsSound(p: string, v: string)
    requires Globs(p, v)
    ensures Matches(p, v)
  {
    ScanIsSound(p, v, 0, 0, -1, 0);
    assert p[0..] == p && v[0..] == v;
  }

  function Marks(n: nat): string { seq(n, i => '?') }

  lemma {:induction false} MarksMatch(v: string)
    ensures Matches(Marks(|v|), v)
  {
    if v != "" {
      MarksMatch(v[1..]);
      assert Marks(|v|)[1..] == Marks(|v| - 1);
    }
  }

  /** `i` marks, a star, and enough marks for the rest of an `n`-character value. */
  function Witness(n: nat, i: nat): string
    requires i < n
  {
    Marks(i) + "*" + Marks(n - i)
  }

  lemma {:induction false} WitnessMatches(v: string, i: nat)
    requires i < |v|
    ensures Matches(Witness(|v|, i), v)
    decreases i
  {
    var p := Witness(|v|, i);
    if i == 0 {
      assert p[1..] == Marks(|v|);
      MarksMatch(v);
    } else {
      WitnessMatches(v[1..], i - 1);
      assert p[1..] == Witness(|v| - 1, i - 1);
    }
  }

  /** The marks before the star, the star taken literally, the marks after it. */
  lemma {:induction false} WitnessScan(v: string, i: nat, vi: nat)
    requires i < |v| && v[i] == '*' && vi <= |v|
    ensures !Scan(Witness(|v|, i), v, vi, vi, -1, 0)
    decreases |v| - vi
  {
    var p := Witness(|v|, i);
    assert |p| == |v| + 1;
    if vi == |v| {
      assert p[|v|] == '?' && p[vi..][0] == '?';
    } else {
      assert p[vi] == '?' || (vi == i && p[vi] == v[vi]);
      WitnessScan(v, i, vi + 1);
    }
  }

  /** The matcher agrees with the meaning on all patterns exactly for the values
      that hold no literal star. */
  lemma GlobIsExact(v: string)
    ensures (forall p :: Globs(p, v) <==> Matches(p, v)) <==> StarFree(v)
  {
    if StarFree(v) {
      forall p ensures Globs(p, v) <==> Matches(p, v) {
        if Globs(p, v) { GlobIsSound(p, v); }
        if Matches(p, v) {
          assert p[0..] == p && v[0..] == v;
          ScanIsComplete(p, v, 0, 0, -1, 0);
        }
      }
    } else {
      var i :| 0 <= i < |v| && v[i] == '*';
      WitnessMatches(v, i);
      WitnessScan(v, i, 0);
      assert Matches(Witness(|v|, i), v) && !Globs(Witness(|v|, i), v);
    }
  }
}
