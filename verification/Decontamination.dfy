/** Benchmark decontamination: token n-gram overlap and a rolling-row longest common
    subsequence. Tokenisation is an input. */
module Decontamination {

  type Tokens = seq<string>

  // ---- The longest common subsequence ----

  /** The k-th element of s is found at position at[k] of t, positions rising. */
  predicate Embeds(s: Tokens, t: Tokens, at: seq<nat>) {
    && |at| == |s|
    && (forall k :: 0 <= k < |at| ==> at[k] < |t| && s[k] == t[at[k]])
    && (forall j, k :: 0 <= j < k < |at| ==> at[j] < at[k])
  }

  ghost predicate Subsequence(s: Tokens, t: Tokens) {
    exists at :: Embeds(s, t, at)
  }

  function Max(a: nat, b: nat): nat {
    if a < b then b else a
  }

  function Min(a: nat, b: nat): nat {
    if a < b then a else b
  }

  function Init(s: Tokens): Tokens
    requires s != []
  {
    s[..|s| - 1]
  }

  function Last(s: Tokens): string
    requires s != []
  {
    s[|s| - 1]
  }

  /** The recurrence the row program tabulates. */
  function Lcs(a: Tokens, b: Tokens): nat
    decreases |a| + |b|
  {
    if a == [] || b == [] then 0
    else if Last(a) == Last(b) then Lcs(Init(a), Init(b)) + 1
    else Max(Lcs(a, Init(b)), Lcs(Init(a), b))
  }

  lemma EmbedsLonger(s: Tokens, t: Tokens, at: seq<nat>)
    requires t != [] && Embeds(s, Init(t), at)
    ensures Embeds(s, t, at)
  {
  }

  lemma EmbedsShorter(s: Tokens, t: Tokens, at: seq<nat>)
    requires t != [] && Embeds(s, t, at) && (s == [] || at[|at| - 1] < |t| - 1)
    ensures Embeds(s, Init(t), at)
  {
  }

  lemma EmbedsInit(s: Tokens, t: Tokens, at: seq<nat>)
    requires s != [] && t != [] && Embeds(s, t, at)
    ensures Embeds(Init(s), Init(t), at[..|at| - 1])
  {
    forall k | 0 <= k < |at| - 1 ensures at[k] < |t| - 1 {
      assert at[k] < at[|at| - 1];
    }
  }

  lemma EmbedsSnoc(s: Tokens, t: Tokens, at: seq<nat>)
    requires t != [] && Embeds(s, Init(t), at)
    ensures Embeds(s + [Last(t)], t, at + [|t| - 1])
  {
  }

  /** No common subsequence is longer. */
  lemma {:induction false} NoneLonger(a: Tokens, b: Tokens, c: Tokens, i: seq<nat>, j: seq<nat>)
    requires Embeds(c, a, i) && Embeds(c, b, j)
    ensures |c| <= Lcs(a, b)
    decreases |a| + |b|
  {
    if c != [] { assert i[0] < |a| && j[0] < |b|; }
    if c == [] {
    } else if Last(a) == Last(b) {
      EmbedsInit(c, a, i);
      EmbedsInit(c, b, j);
      NoneLonger(Init(a), Init(b), Init(c), i[..|i| - 1], j[..|j| - 1]);
    } else if i[|i| - 1] < |a| - 1 {
      EmbedsShorter(c, a, i);
      NoneLonger(Init(a), b, c, i, j);
    } else {
      EmbedsShorter(c, b, j);
      NoneLonger(a, Init(b), c, i, j);
    }
  }

  /** One that long exists. */
  lemma {:induction false} OneThatLong(a: Tokens, b: Tokens) returns (c: Tokens, i: seq<nat>, j: seq<nat>)
    ensures |c| == Lcs(a, b) && Embeds(c, a, i) && Embeds(c, b, j)
    decreases |a| + |b|
  {
    if a == [] || b == [] {
      c, i, j := [], [], [];
    } else if Last(a) == Last(b) {
      c, i, j := OneThatLong(Init(a), Init(b));
      EmbedsSnoc(c, a, i);
      EmbedsSnoc(c, b, j);
      c, i, j := c + [Last(a)], i + [|a| - 1], j + [|b| - 1];
    } else if Lcs(Init(a), b) >= Lcs(a, Init(b)) {
      c, i, j := OneThatLong(Init(a), b);
      EmbedsLonger(c, a, i);
    } else {
      c, i, j := OneThatLong(a, Init(b));
      EmbedsLonger(c, b, j);
    }
  }

  /** The recurrence is the length of a longest common subsequence. */
  lemma LcsIsLongest(a: Tokens, b: Tokens)
    ensures exists c :: |c| == Lcs(a, b) && Subsequence(c, a) && Subsequence(c, b)
    ensures forall c :: Subsequence(c, a) && Subsequence(c, b) ==> |c| <= Lcs(a, b)
  {
    var c, i, j := OneThatLong(a, b);
    assert Subsequence(c, a) && Subsequence(c, b);
    forall c | Subsequence(c, a) && Subsequence(c, b) ensures |c| <= Lcs(a, b) {
      var i :| Embeds(c, a, i);
      var j :| Embeds(c, b, j);
      NoneLonger(a, b, c, i, j);
    }
  }

  lemma {:induction false} LcsIsSymmetric(a: Tokens, b: Tokens)
    ensures Lcs(a, b) == Lcs(b, a)
    decreases |a| + |b|
  {
    if a != [] && b != [] {
      if Last(a) == Last(b) {
        LcsIsSymmetric(Init(a), Init(b));
      } else {
        LcsIsSymmetric(a, Init(b));
        LcsIsSymmetric(Init(a), b);
      }
    }
  }

  lemma LcsFits(a: Tokens, b: Tokens)
    ensures Lcs(a, b) <= Min(|a|, |b|)
  {
    var c, i, j := OneThatLong(a, b);
    RisingFits(|a|, i);
    RisingFits(|b|, j);
  }

  lemma {:induction false} RisingFits(n: nat, at: seq<nat>)
    requires forall k :: 0 <= k < |at| ==> at[k] < n
    requires forall j, k :: 0 <= j < k < |at| ==> at[j] < at[k]
    ensures |at| <= n
  {
    if at != [] {
      RisingFits(at[|at| - 1], at[..|at| - 1]);
    }
  }

  // ---- The row program ----

  /** The table row after the tokens of a: one cell per prefix of b. */
  predicate IsRow(row: seq<nat>, a: Tokens, b: Tokens, n: nat) {
    && n <= |b| && |row| == n + 1
    && forall j :: 0 <= j <= n ==> row[j] == Lcs(a, b[..j])
  }

  function Fraction(part: nat, whole: nat): real
    requires 0 < whole
  {
    part as real / whole as real
  }

  lemma FractionIsBounded(part: nat, whole: nat)
    requires 0 < whole && part <= whole
    ensures 0.0 <= Fraction(part, whole) <= 1.0
    ensures part == whole ==> Fraction(part, whole) == 1.0
  {
    var r, w := Fraction(part, whole), whole as real;
    assert r * w == part as real;
    SignOfProduct(r, w);
    assert (1.0 - r) * w == w - part as real;
    SignOfProduct(1.0 - r, w);
    if part == whole { SignOfProduct(r - 1.0, w); }
  }

  lemma SignOfProduct(x: real, w: real)
    requires 0.0 < w && 0.0 <= x * w
    ensures 0.0 <= x
  {
  }

  function LcsRatio(a: Tokens, b: Tokens): real {
    if a == [] || b == [] then 0.0 else Fraction(Lcs(a, b), Min(|a|, |b|))
  }

  lemma LcsUnfolds(a: Tokens, b: Tokens)
    requires a != [] && b != []
    ensures Lcs(a, b) ==
      if Last(a) == Last(b) then Lcs(Init(a), Init(b)) + 1 else Max(Lcs(Init(a), b), Lcs(a, Init(b)))
  {
  }

  lemma NextCell(a: Tokens, b: Tokens, i: nat, j: nat)
    requires i < |a| && j < |b|
    ensures Lcs(a[..i + 1], b[..j + 1]) ==
      if a[i] == b[j] then Lcs(a[..i], b[..j]) + 1 else Max(Lcs(a[..i], b[..j + 1]), Lcs(a[..i + 1], b[..j]))
  {
    hide Lcs;
    LcsUnfolds(a[..i + 1], b[..j + 1]);
    assert Init(a[..i + 1]) == a[..i] && Init(b[..j + 1]) == b[..j];
    assert Last(a[..i + 1]) == a[i] && Last(b[..j + 1]) == b[j];
  }

  /** The ratio is the share of the shorter text. */
  lemma RatioIsShare(a: Tokens, b: Tokens)
    ensures a == [] || b == [] ==> LcsRatio(a, b) == 0.0
    ensures a != [] && b != [] ==> LcsRatio(a, b) * (if |a| <= |b| then |a| else |b|) as real == Lcs(a, b) as real
  {
    hide Lcs;
    if a != [] && b != [] { FractionIsShare(Lcs(a, b), Min(|a|, |b|)); }
  }

  lemma FractionIsShare(part: nat, whole: nat)
    requires 0 < whole
    ensures Fraction(part, whole) * whole as real == part as real
  {
  }

  /** `lcs_ratio`: two rows are enough. */
  method RollingLcsRatio(left: Tokens, right: Tokens) returns (ratio: real)
    ensures ratio == LcsRatio(left, right)
  {
    if left == [] || right == [] {
      return 0.0;
    }
    var previous := seq(|right| + 1, _ => 0);
    var i := 0;
    while i < |left|
      invariant 0 <= i <= |left|
      invariant IsRow(previous, left[..i], right, |right|)
    {
      var current: seq<nat> := [0];
      var j := 0;
      while j < |right|
        invariant 0 <= j <= |right|
        invariant IsRow(current, left[..i + 1], right, j)
      {
        NextCell(left, right, i, j);
        if left[i] == right[j] {
          current := current + [previous[j] + 1];
        } else {
          current := current + [Max(previous[j + 1], current[j])];
        }
        j := j + 1;
      }
      previous := current;
      i := i + 1;
    }
    assert left[..i] == left && right[..|right|] == right;
    return Fraction(previous[|right|], Min(|left|, |right|));
  }

  /** The ratio is symmetric and lies between 0 and 1. */
  lemma RatioIsSymmetricAndBounded(a: Tokens, b: Tokens)
    ensures LcsRatio(a, b) == LcsRatio(b, a)
    ensures 0.0 <= LcsRatio(a, b) <= 1.0
  {
    hide Lcs, Fraction;
    LcsIsSymmetric(a, b);
    LcsFits(a, b);
    if a != [] && b != [] { FractionIsBounded(Lcs(a, b), Min(|a|, |b|)); }
  }

  // ---- n-grams ----

  /** `extract_ngrams`: a text shorter than n is one n-gram of its own. */
  function Ngrams(tokens: Tokens, n: nat): set<Tokens>
    requires 1 <= n
  {
    if tokens == [] then {}
    else if |tokens| < n then {tokens}
    else set i {:trigger Gram(tokens, n, i)} | 0 <= i < |tokens| - n + 1 :: Gram(tokens, n, i)
  }

  function Gram(tokens: Tokens, n: nat, i: nat): Tokens
    requires i + n <= |tokens|
  {
    tokens[i..i + n]
  }

  /** The tokens stand at this place of the text. */
  predicate StandsAt(tokens: Tokens, i: nat, g: Tokens) {
    i + |g| <= |tokens| && tokens[i..i + |g|] == g
  }

  /** The n-grams of a text: its runs of n tokens, or the whole of a shorter one. */
  lemma GramsAre(tokens: Tokens, n: nat, g: Tokens)
    requires 1 <= n
    ensures g in Ngrams(tokens, n) <==>
      || (0 < |tokens| < n && g == tokens)
      || (|g| == n && exists i :: StandsAt(tokens, i, g))
  {
    if |g| == n && exists i :: StandsAt(tokens, i, g) {
      var i :| StandsAt(tokens, i, g);
      assert Gram(tokens, n, i) == g;
    }
    if g in Ngrams(tokens, n) && n <= |tokens| {
      var i :| 0 <= i < |tokens| - n + 1 && Gram(tokens, n, i) == g;
      assert StandsAt(tokens, i, g);
    }
  }

  function CandidateOverlap(candidate: Tokens, benchmark: Tokens, n: nat): (r: real)
    requires 1 <= n
    ensures 0.0 <= r <= 1.0
  {
    var c, b := Ngrams(candidate, n), Ngrams(benchmark, n);
    if c == {} || b == {} then 0.0
    else
      SubsetIsSmaller(c * b, c);
      FractionIsBounded(|c * b|, |c|);
      Fraction(|c * b|, |c|)
  }

  lemma {:induction false} SubsetIsSmaller(a: set<Tokens>, b: set<Tokens>)
    requires a <= b
    ensures |a| <= |b|
  {
    if a != {} {
      var x :| x in a;
      SubsetIsSmaller(a - {x}, b - {x});
    }
  }

  /** The overlap is the share of the candidate's n-grams that the benchmark has too. */
  lemma OverlapIsShare(candidate: Tokens, benchmark: Tokens, n: nat)
    requires 1 <= n
    ensures var c, b := Ngrams(candidate, n), Ngrams(benchmark, n);
      CandidateOverlap(candidate, benchmark, n) * |c| as real == |c * b| as real
  {
    hide Ngrams, Fraction;
    var c, b := Ngrams(candidate, n), Ngrams(benchmark, n);
    if c != {} && b != {} { FractionIsShare(|c * b|, |c|); }
    if b == {} { assert c * b == {}; }
  }

  lemma AboveShare(ratio: real, part: nat, whole: nat, limit: real)
    requires 0 < whole && ratio * whole as real == part as real
    ensures ratio > limit <==> part as real > limit * whole as real
  {
    var w := whole as real;
    if ratio > limit { assert (ratio - limit) * w > 0.0; }
    if ratio < limit { assert (limit - ratio) * w > 0.0; }
  }

  // ---- A copied slice is always caught ----

  function Range(lo: nat, n: nat): (r: seq<nat>)
    ensures |r| == n && forall k :: 0 <= k < n ==> r[k] == lo + k
  {
    seq(n, k requires 0 <= k < n => lo + k)
  }

  lemma SliceRatio(benchmark: Tokens, lo: nat, hi: nat)
    requires lo < hi <= |benchmark|
    ensures LcsRatio(benchmark[lo..hi], benchmark) == 1.0
  {
    hide Lcs, Fraction;
    var slice := benchmark[lo..hi];
    assert Embeds(slice, benchmark, Range(lo, |slice|));
    assert Embeds(slice, slice, Range(0, |slice|));
    NoneLonger(slice, benchmark, slice, Range(0, |slice|), Range(lo, |slice|));
    LcsFits(slice, benchmark);
    FractionIsBounded(|slice|, |slice|);
  }

  lemma GramOfSlice(benchmark: Tokens, lo: nat, hi: nat, n: nat, i: nat)
    requires lo + i + n <= hi <= |benchmark|
    ensures Gram(benchmark[lo..hi], n, i) == Gram(benchmark, n, lo + i)
  {
    var inner, outer := Gram(benchmark[lo..hi], n, i), Gram(benchmark, n, lo + i);
    assert |inner| == |outer| == n;
    forall k | 0 <= k < n ensures inner[k] == outer[k] {
      assert inner[k] == benchmark[lo..hi][i + k] == benchmark[lo + (i + k)];
      assert outer[k] == benchmark[(lo + i) + k];
    }
  }

  lemma SliceNgrams(benchmark: Tokens, lo: nat, hi: nat, n: nat)
    requires 1 <= n && lo + n <= hi <= |benchmark|
    ensures Ngrams(benchmark[lo..hi], n) <= Ngrams(benchmark, n) && Ngrams(benchmark[lo..hi], n) != {}
  {
    var slice := benchmark[lo..hi];
    forall g | g in Ngrams(slice, n) ensures g in Ngrams(benchmark, n) {
      var i :| 0 <= i < |slice| - n + 1 && Gram(slice, n, i) == g;
      GramOfSlice(benchmark, lo, hi, n, i);
    }
    assert Gram(slice, n, 0) in Ngrams(slice, n);
  }

  /** A candidate that copies at least n consecutive tokens of a benchmark, and nothing else,
      scores 1 on both measures, whatever surrounds them there. */
  lemma CopiedSliceScoresOne(benchmark: Tokens, lo: nat, hi: nat, n: nat)
    requires 1 <= n && lo + n <= hi <= |benchmark|
    ensures LcsRatio(benchmark[lo..hi], benchmark) == 1.0
    ensures CandidateOverlap(benchmark[lo..hi], benchmark, n) == 1.0
  {
    hide LcsRatio, Ngrams, Fraction;
    SliceRatio(benchmark, lo, hi);
    SliceNgrams(benchmark, lo, hi, n);
    var c, b := Ngrams(benchmark[lo..hi], n), Ngrams(benchmark, n);
    assert c * b == c;
    FractionIsBounded(|c|, |c|);
  }

  // ---- Against a whole benchmark ----

  function MaxReal(a: real, b: real): real {
    if a < b then b else a
  }

  function MaxLcsRatio(candidate: Tokens, benchmarks: seq<Tokens>): real {
    if benchmarks == [] then 0.0
    else MaxReal(MaxLcsRatio(candidate, benchmarks[..|benchmarks| - 1]), LcsRatio(candidate, benchmarks[|benchmarks| - 1]))
  }

  function MaxOverlap(candidate: Tokens, benchmarks: seq<Tokens>, n: nat): real
    requires 1 <= n
  {
    if benchmarks == [] then 0.0
    else MaxReal(MaxOverlap(candidate, benchmarks[..|benchmarks| - 1], n),
                 CandidateOverlap(candidate, benchmarks[|benchmarks| - 1], n))
  }

  lemma {:induction false} MaximaCover(candidate: Tokens, benchmarks: seq<Tokens>, n: nat, i: nat)
    requires 1 <= n && i < |benchmarks|
    ensures LcsRatio(candidate, benchmarks[i]) <= MaxLcsRatio(candidate, benchmarks) <= 1.0
    ensures CandidateOverlap(candidate, benchmarks[i], n) <= MaxOverlap(candidate, benchmarks, n) <= 1.0
  {
    hide LcsRatio, CandidateOverlap;
    var k := |benchmarks| - 1;
    RatioIsSymmetricAndBounded(candidate, benchmarks[k]);
    if i < k {
      MaximaCover(candidate, benchmarks[..k], n, i);
    } else if k > 0 {
      MaximaCover(candidate, benchmarks[..k], n, 0);
    }
  }

  lemma {:induction false} MaximaAreTaken(candidate: Tokens, benchmarks: seq<Tokens>, n: nat)
    requires 1 <= n
    ensures MaxLcsRatio(candidate, benchmarks) == 0.0
      || exists i :: 0 <= i < |benchmarks| && LcsRatio(candidate, benchmarks[i]) == MaxLcsRatio(candidate, benchmarks)
    ensures MaxOverlap(candidate, benchmarks, n) == 0.0
      || exists i :: 0 <= i < |benchmarks| && CandidateOverlap(candidate, benchmarks[i], n) == MaxOverlap(candidate, benchmarks, n)
  {
    hide LcsRatio, CandidateOverlap;
    if benchmarks != [] {
      var k := |benchmarks| - 1;
      var rest := benchmarks[..k];
      MaximaAreTaken(candidate, rest, n);
      assert forall i :: 0 <= i < k ==> rest[i] == benchmarks[i];
      assert benchmarks[k] == benchmarks[|benchmarks| - 1];
    }
  }

  /** This text shares more than the limit of the shorter of the two with the candidate. */
  predicate SharesTooMuch(candidate: Tokens, benchmark: Tokens, limit: real) {
    && candidate != [] && benchmark != []
    && Lcs(candidate, benchmark) as real > limit * (if |candidate| <= |benchmark| then |candidate| else |benchmark|) as real
  }

  /** This text has more than the limit of the candidate's n-grams. */
  predicate RepeatsTooMuch(candidate: Tokens, benchmark: Tokens, n: nat, limit: real)
    requires 1 <= n
  {
    |Ngrams(candidate, n) * Ngrams(benchmark, n)| as real > limit * |Ngrams(candidate, n)| as real
  }

  lemma TooMuch(candidate: Tokens, benchmark: Tokens, n: nat, maxOverlap: real, maxLcs: real)
    requires 1 <= n && 0.0 <= maxOverlap && 0.0 <= maxLcs
    ensures LcsRatio(candidate, benchmark) > maxLcs <==> SharesTooMuch(candidate, benchmark, maxLcs)
    ensures CandidateOverlap(candidate, benchmark, n) > maxOverlap <==> RepeatsTooMuch(candidate, benchmark, n, maxOverlap)
  {
    hide LcsRatio, CandidateOverlap, Ngrams, Lcs;
    RatioIsShare(candidate, benchmark);
    if candidate != [] && benchmark != [] {
      AboveShare(LcsRatio(candidate, benchmark), Lcs(candidate, benchmark),
                 if |candidate| <= |benchmark| then |candidate| else |benchmark|, maxLcs);
    }
    var c, b := Ngrams(candidate, n), Ngrams(benchmark, n);
    OverlapIsShare(candidate, benchmark, n);
    if c != {} {
      AboveShare(CandidateOverlap(candidate, benchmark, n), |c * b|, |c|, maxOverlap);
    } else {
      NoGramsNoOverlap(candidate, benchmark, n);
      assert c * b == {};
    }
  }

  lemma NoGramsNoOverlap(candidate: Tokens, benchmark: Tokens, n: nat)
    requires 1 <= n && Ngrams(candidate, n) == {}
    ensures CandidateOverlap(candidate, benchmark, n) == 0.0
  {
    hide Ngrams;
  }

  /** The law of both tests in counts: a candidate is over a limit exactly when some text of the benchmark
      shares more than that part with it. */
  lemma OverTheLimitIff(candidate: Tokens, benchmarks: seq<Tokens>, n: nat, maxOverlap: real, maxLcs: real)
    requires 1 <= n && 0.0 <= maxOverlap && 0.0 <= maxLcs
    ensures MaxLcsRatio(candidate, benchmarks) > maxLcs <==>
      exists i :: 0 <= i < |benchmarks| && SharesTooMuch(candidate, benchmarks[i], maxLcs)
    ensures MaxOverlap(candidate, benchmarks, n) > maxOverlap <==>
      exists i :: 0 <= i < |benchmarks| && RepeatsTooMuch(candidate, benchmarks[i], n, maxOverlap)
  {
    hide LcsRatio, CandidateOverlap, MaxLcsRatio, MaxOverlap, SharesTooMuch, RepeatsTooMuch;
    MaximaAreTaken(candidate, benchmarks, n);
    forall i | 0 <= i < |benchmarks|
      ensures LcsRatio(candidate, benchmarks[i]) <= MaxLcsRatio(candidate, benchmarks)
      ensures CandidateOverlap(candidate, benchmarks[i], n) <= MaxOverlap(candidate, benchmarks, n)
      ensures LcsRatio(candidate, benchmarks[i]) > maxLcs <==> SharesTooMuch(candidate, benchmarks[i], maxLcs)
      ensures CandidateOverlap(candidate, benchmarks[i], n) > maxOverlap <==> RepeatsTooMuch(candidate, benchmarks[i], n, maxOverlap)
    {
      MaximaCover(candidate, benchmarks, n, i);
      TooMuch(candidate, benchmarks[i], n, maxOverlap, maxLcs);
    }
  }

  /** Whatever else is in the benchmark, copying from one of its texts is refused by both
      tests, unless a limit is 1 or more. */
  lemma CopyingIsRefused(
    benchmarks: seq<Tokens>, t: nat, lo: nat, hi: nat, n: nat, maxOverlap: real, maxLcs: real)
    requires 1 <= n && t < |benchmarks| && lo + n <= hi <= |benchmarks[t]|
    requires maxOverlap < 1.0 && maxLcs < 1.0
    ensures MaxLcsRatio(benchmarks[t][lo..hi], benchmarks) > maxLcs
    ensures MaxOverlap(benchmarks[t][lo..hi], benchmarks, n) > maxOverlap
  {
    CopiedSliceScoresOne(benchmarks[t], lo, hi, n);
    MaximaCover(benchmarks[t][lo..hi], benchmarks, n, t);
  }
}
