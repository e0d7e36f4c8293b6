/** VerificationPipeline: an accept loop whose memory of what it accepted is rebuilt, after a
    restart, by feeding the accepted rows to a fresh pipeline.

    Entropy, safety, code and benchmark checks look at one example only; together they are the
    fixed function `flags` of the configuration. */
module DataGate {
  import opened Records

  datatype Example = Example(id: string, text: string, prompt: string, response: string)

  datatype Reason = ExactDuplicate | SemanticDuplicate | Flag(name: string)

  /** The last three are `str.strip`, the token set of a text, and the per-example checks. */
  datatype GateConfig = GateConfig(
    maxSimilarity: real, strip: string -> string, tokens: string -> set<string>, flags: Example -> set<string>)

  datatype Item = Item(id: string, tokens: set<string>)

  datatype Memory = Memory(hashes: set<Sha<string>>, items: seq<Item>)

  datatype Verdict = Verdict(example: Example, reasons: set<Reason>)

  const FRESH := Memory({}, [])

  // ---- Jaccard similarity ----

  function Jaccard(a: set<string>, b: set<string>): (r: real)
    ensures 0.0 <= r
  {
    if a + b == {} then 0.0 else |a * b| as real / |a + b| as real
  }

  /** What two token sets share, measured against what they have together: 1 exactly for equal sets. */
  lemma JaccardIsShare(a: set<string>, b: set<string>)
    requires a + b != {}
    ensures Jaccard(a, b) * |a + b| as real == |a * b| as real
    ensures Jaccard(a, b) <= 1.0
    ensures Jaccard(a, b) == 1.0 <==> a == b
  {
    SubsetSize(a * b, a + b);
    RatioIsPart(|a * b|, |a + b|);
    if |a * b| == |a + b| {
      forall x ensures x in a <==> x in b { assert x in a * b <==> x in a + b; }
      assert a == b;
    }
    if a == b { assert a * b == a + b; }
  }

  lemma RatioIsPart(part: nat, whole: nat)
    requires part <= whole && 0 < whole
    ensures var r := part as real / whole as real;
      && r * whole as real == part as real && r <= 1.0 && (r == 1.0 <==> part == whole)
  {
  }

  lemma SubsetSize(a: set<string>, b: set<string>)
    requires a <= b
    ensures |a| <= |b| && (|a| == |b| ==> a == b)
  {
    assert b == a + (b - a);
  }

  lemma ProductGrows(x: real, y: real, n: real)
    requires 0.0 < n
    ensures x < y <==> x * n < y * n
  {
  }

  /** The two sets share more than this part of what they have together. */
  predicate TooClose(a: set<string>, b: set<string>, limit: real) {
    |a * b| as real > limit * |a + b| as real
  }

  lemma AboveLimit(a: set<string>, b: set<string>, limit: real)
    requires 0.0 <= limit
    ensures Jaccard(a, b) > limit <==> TooClose(a, b, limit)
  {
    if a + b == {} {
      assert a * b == {};
    } else {
      JaccardIsShare(a, b);
      ProductGrows(limit, Jaccard(a, b), |a + b| as real);
    }
  }

  lemma JaccardIsSymmetric(a: set<string>, b: set<string>)
    ensures Jaccard(a, b) == Jaccard(b, a)
  {
    assert a + b == b + a && a * b == b * a;
  }

  function Higher(a: real, b: real): real {
    if a < b then b else a
  }

  /** `max_similarity`: 0 for an empty index, and for a text without tokens. */
  function MaxSimilarity(tokens: set<string>, items: seq<Item>): real {
    if items == [] then 0.0
    else Higher(MaxSimilarity(tokens, items[..|items| - 1]), Jaccard(tokens, items[|items| - 1].tokens))
  }

  lemma {:induction false} MaxSimilarityWithin(tokens: set<string>, items: seq<Item>, limit: real)
    ensures MaxSimilarity(tokens, items) <= limit <==>
      0.0 <= limit && forall i :: 0 <= i < |items| ==> Jaccard(tokens, items[i].tokens) <= limit
  {
    if items != [] {
      MaxSimilarityWithin(tokens, items[..|items| - 1], limit);
      assert items[..|items| - 1] + [items[|items| - 1]] == items;
      if MaxSimilarity(tokens, items) <= limit {
        forall i | 0 <= i < |items| ensures Jaccard(tokens, items[i].tokens) <= limit {
          if i < |items| - 1 { assert items[..|items| - 1][i] == items[i]; }
        }
      }
    }
  }

  lemma {:induction false} NothingInCommon(items: seq<Item>)
    ensures MaxSimilarity({}, items) == 0.0
  {
    if items != [] {
      NothingInCommon(items[..|items| - 1]);
      assert {} * items[|items| - 1].tokens == {};
    }
  }

  /** The maximum is the best share any remembered item has with the tokens, and 0 when there is none. */
  ghost predicate BestShare(tokens: set<string>, items: seq<Item>, best: real) {
    && 0.0 <= best
    && (forall i :: 0 <= i < |items| ==> |tokens * items[i].tokens| as real <= best * |tokens + items[i].tokens| as real)
    && (best > 0.0 ==> exists i :: 0 <= i < |items| && IsShare(tokens, items[i].tokens, best))
  }

  predicate IsShare(a: set<string>, b: set<string>, share: real) {
    |a * b| as real == share * |a + b| as real && a + b != {}
  }

  lemma {:induction false} MaxSimilarityIsBest(tokens: set<string>, items: seq<Item>)
    ensures BestShare(tokens, items, MaxSimilarity(tokens, items))
  {
    hide Jaccard, MaxSimilarity, IsShare;
    var best := MaxSimilarity(tokens, items);
    MaxSimilarityWithin(tokens, items, best);
    MaxSimilarityIsTaken(tokens, items);
    forall i | 0 <= i < |items|
      ensures |tokens * items[i].tokens| as real <= best * |tokens + items[i].tokens| as real
    {
      AboveLimit(tokens, items[i].tokens, best);
    }
  }

  lemma JaccardIsTaken(a: set<string>, b: set<string>)
    requires Jaccard(a, b) > 0.0
    ensures IsShare(a, b, Jaccard(a, b))
  {
    JaccardIsShare(a, b);
  }

  lemma {:induction false} MaxSimilarityIsTaken(tokens: set<string>, items: seq<Item>)
    ensures var best := MaxSimilarity(tokens, items);
      0.0 <= best && (best > 0.0 ==> exists i :: 0 <= i < |items| && IsShare(tokens, items[i].tokens, best))
  {
    hide Jaccard, IsShare;
    if items != [] {
      var rest, last := items[..|items| - 1], items[|items| - 1].tokens;
      MaxSimilarityIsTaken(tokens, rest);
      var best := MaxSimilarity(tokens, items);
      if best > 0.0 {
        if best == Jaccard(tokens, last) {
          JaccardIsTaken(tokens, last);
          assert IsShare(tokens, items[|items| - 1].tokens, best);
        } else {
          var i :| 0 <= i < |rest| && IsShare(tokens, rest[i].tokens, best);
          assert IsShare(tokens, items[i].tokens, best);
        }
      }
    }
  }

  // ---- The gate as a function ----

  function HashOf(g: GateConfig, e: Example): Sha<string> {
    Sha256(g.strip(e.text))
  }

  function Reasons(g: GateConfig, m: Memory, e: Example): set<Reason> {
    (if HashOf(g, e) in m.hashes then {ExactDuplicate}
     else if MaxSimilarity(g.tokens(e.text), m.items) > g.maxSimilarity then {SemanticDuplicate}
     else {})
    + set name | name in g.flags(e) :: Flag(name)
  }

  function Remember(g: GateConfig, m: Memory, e: Example): Memory {
    Memory(m.hashes + {HashOf(g, e)}, m.items + [Item(e.id, g.tokens(e.text))])
  }

  function Accepts(g: GateConfig, m: Memory, e: Example): bool {
    Reasons(g, m, e) == {}
  }

  /** The law of one verdict in counts: an exact duplicate of a remembered text; or, if it is none, too close
      to a remembered item; and beside that exactly the flags of the example itself. */
  ghost predicate RightlyJudged(g: GateConfig, m: Memory, v: Verdict) {
    && (ExactDuplicate in v.reasons <==> Sha256(g.strip(v.example.text)) in m.hashes)
    && (SemanticDuplicate in v.reasons <==>
          && Sha256(g.strip(v.example.text)) !in m.hashes
          && (|| g.maxSimilarity < 0.0
              || exists i :: 0 <= i < |m.items| && TooClose(g.tokens(v.example.text), m.items[i].tokens, g.maxSimilarity)))
    && forall name :: Flag(name) in v.reasons <==> name in g.flags(v.example)
  }

  lemma ReasonsAreRight(g: GateConfig, m: Memory, e: Example)
    ensures RightlyJudged(g, m, Verdict(e, Reasons(g, m, e)))
  {
    hide MaxSimilarity, Jaccard, TooClose;
    var tokens, limit := g.tokens(e.text), g.maxSimilarity;
    MaxSimilarityWithin(tokens, m.items, limit);
    if 0.0 <= limit {
      forall i | 0 <= i < |m.items|
        ensures TooClose(tokens, m.items[i].tokens, limit) <==> Jaccard(tokens, m.items[i].tokens) > limit
      {
        AboveLimit(tokens, m.items[i].tokens, limit);
      }
    }
  }

  /** The memory after a batch. */
  function After(g: GateConfig, m: Memory, examples: seq<Example>): Memory {
    if examples == [] then m
    else
      var before, e := After(g, m, examples[..|examples| - 1]), examples[|examples| - 1];
      if Accepts(g, before, e) then Remember(g, before, e) else before
  }

  function Accepted(g: GateConfig, m: Memory, examples: seq<Example>): seq<Example> {
    if examples == [] then []
    else
      var rest, e := examples[..|examples| - 1], examples[|examples| - 1];
      Accepted(g, m, rest) + if Accepts(g, After(g, m, rest), e) then [e] else []
  }

  function Refused(g: GateConfig, m: Memory, examples: seq<Example>): seq<Example> {
    if examples == [] then []
    else
      var rest, e := examples[..|examples| - 1], examples[|examples| - 1];
      Refused(g, m, rest) + if Accepts(g, After(g, m, rest), e) then [] else [e]
  }

  function Verdicts(g: GateConfig, m: Memory, examples: seq<Example>): seq<Verdict> {
    if examples == [] then []
    else
      var rest, e := examples[..|examples| - 1], examples[|examples| - 1];
      Verdicts(g, m, rest) + [Verdict(e, Reasons(g, After(g, m, rest), e))]
  }

  lemma {:induction false} VerdictAt(g: GateConfig, m: Memory, examples: seq<Example>, i: nat)
    requires i < |examples|
    ensures |Verdicts(g, m, examples)| == |examples|
    ensures Verdicts(g, m, examples)[i] == Verdict(examples[i], Reasons(g, After(g, m, examples[..i]), examples[i]))
  {
    hide Reasons, After;
    var rest := examples[..|examples| - 1];
    if i < |rest| {
      VerdictAt(g, m, rest, i);
      assert rest[..i] == examples[..i];
    } else if |rest| > 0 {
      VerdictAt(g, m, rest, 0);
    }
  }

  lemma VerdictsAreRight(g: GateConfig, m: Memory, examples: seq<Example>)
    ensures |Verdicts(g, m, examples)| == |examples|
    ensures forall i :: 0 <= i < |examples| ==>
      && Verdicts(g, m, examples)[i].example == examples[i]
      && RightlyJudged(g, After(g, m, examples[..i]), Verdicts(g, m, examples)[i])
  {
    hide Reasons, After, RightlyJudged, Verdicts;
    if examples != [] { VerdictAt(g, m, examples, 0); } else { NoVerdicts(g, m); }
    forall i | 0 <= i < |examples|
      ensures Verdicts(g, m, examples)[i].example == examples[i]
      ensures RightlyJudged(g, After(g, m, examples[..i]), Verdicts(g, m, examples)[i])
    {
      VerdictAt(g, m, examples, i);
      ReasonsAreRight(g, After(g, m, examples[..i]), examples[i]);
    }
  }

  lemma NoVerdicts(g: GateConfig, m: Memory)
    ensures Verdicts(g, m, []) == []
  {
  }

  // ---- The gate as the source runs it ----

  class TokenJaccardNoveltyIndex {
    const tokens: string -> set<string>
    var items: seq<Item>

    constructor (tokens: string -> set<string>)
      ensures this.tokens == tokens && items == []
    {
      this.tokens := tokens;
      items := [];
    }

    method MaxSimilarityOf(text: string) returns (best: real)
      ensures best == MaxSimilarity(tokens(text), items)
      ensures BestShare(tokens(text), items, best)
    {
      MaxSimilarityIsBest(tokens(text), items);
      var candidate := tokens(text);
      if candidate == {} || items == [] {
        NothingInCommon(items);
        return 0.0;
      }
      best := 0.0;
      var i := 0;
      while i < |items|
        invariant 0 <= i <= |items| && best == MaxSimilarity(candidate, items[..i])
      {
        assert items[..i + 1][..i] == items[..i];
        var union := candidate + items[i].tokens;
        var similarity := if union != {} then |candidate * items[i].tokens| as real / |union| as real else 0.0;
        best := Higher(best, similarity);
        i := i + 1;
      }
      assert items[..i] == items;
    }

    method Add(id: string, text: string)
      modifies this
      ensures items == old(items) + [Item(id, tokens(text))]
    {
      items := items + [Item(id, tokens(text))];
    }
  }

  class VerificationPipeline {
    const g: GateConfig
    const novelty: TokenJaccardNoveltyIndex
    var hashes: set<Sha<string>>

    ghost predicate Valid() {
      novelty.tokens == g.tokens
    }

    ghost function Remembered(): Memory
      reads this, novelty
    {
      Memory(hashes, novelty.items)
    }

    constructor (g: GateConfig)
      ensures Valid() && this.g == g && fresh(novelty) && Remembered() == FRESH
    {
      this.g := g;
      novelty := new TokenJaccardNoveltyIndex(g.tokens);
      hashes := {};
    }

    /** One example against everything accepted so far. */
    method Judge(e: Example) returns (reasons: set<Reason>)
      requires Valid()
      ensures reasons == Reasons(g, Remembered(), e)
    {
      var hash := HashOf(g, e);
      reasons := {};
      if hash in hashes {
        reasons := {ExactDuplicate};
      } else {
        var similarity := novelty.MaxSimilarityOf(e.text);
        if similarity > g.maxSimilarity {
          reasons := {SemanticDuplicate};
        }
      }
      reasons := reasons + set name | name in g.flags(e) :: Flag(name);
    }

    /** `verify`. */
    method VerifyBatch(examples: seq<Example>)
      returns (accepted: seq<Example>, quarantined: seq<Example>, records: seq<Verdict>)
      requires Valid()
      modifies this, novelty
      ensures accepted == Accepted(g, old(Remembered()), examples)
      ensures quarantined == Refused(g, old(Remembered()), examples)
      ensures records == Verdicts(g, old(Remembered()), examples)
      ensures Remembered() == After(g, old(Remembered()), examples)
      ensures |records| == |examples|
      ensures forall i :: 0 <= i < |examples| ==>
        && records[i].example == examples[i]
        && RightlyJudged(g, After(g, old(Remembered()), examples[..i]), records[i])
    {
      hide Reasons, RightlyJudged;
      ghost var start := Remembered();
      accepted, quarantined, records := [], [], [];
      var i := 0;
      while i < |examples|
        invariant 0 <= i <= |examples|
        invariant Remembered() == After(g, start, examples[..i])
        invariant accepted == Accepted(g, start, examples[..i])
        invariant quarantined == Refused(g, start, examples[..i])
        invariant records == Verdicts(g, start, examples[..i])
      {
        var e := examples[i];
        assert examples[..i + 1][..i] == examples[..i];
        var reasons := Judge(e);
        records := records + [Verdict(e, reasons)];
        if reasons == {} {
          accepted := accepted + [e];
          hashes := hashes + {HashOf(g, e)};
          novelty.Add(e.id, e.text);
        } else {
          quarantined := quarantined + [e];
        }
        i := i + 1;
      }
      assert examples[..i] == examples;
      VerdictsAreRight(g, start, examples);
    }
  }

  // ---- What the gate remembers ----

  function HashesOf(g: GateConfig, examples: seq<Example>): set<Sha<string>> {
    set e | e in examples :: HashOf(g, e)
  }

  function ItemsOf(g: GateConfig, examples: seq<Example>): seq<Item> {
    seq(|examples|, i requires 0 <= i < |examples| => Item(examples[i].id, g.tokens(examples[i].text)))
  }

  function MemoryOf(g: GateConfig, examples: seq<Example>): Memory {
    Memory(HashesOf(g, examples), ItemsOf(g, examples))
  }

  lemma RememberOneMore(g: GateConfig, examples: seq<Example>, e: Example)
    ensures Remember(g, MemoryOf(g, examples), e) == MemoryOf(g, examples + [e])
  {
    assert HashesOf(g, examples + [e]) == HashesOf(g, examples) + {HashOf(g, e)};
    assert ItemsOf(g, examples + [e]) == ItemsOf(g, examples) + [Item(e.id, g.tokens(e.text))];
  }

  /** The memory is exactly the accepted examples, in order. */
  lemma {:induction false} MemoryIsAccepted(g: GateConfig, examples: seq<Example>)
    ensures After(g, FRESH, examples) == MemoryOf(g, Accepted(g, FRESH, examples))
  {
    if examples == [] {
      assert MemoryOf(g, []) == FRESH;
    } else {
      var rest, e := examples[..|examples| - 1], examples[|examples| - 1];
      MemoryIsAccepted(g, rest);
      RememberOneMore(g, Accepted(g, FRESH, rest), e);
      assert Accepted(g, FRESH, rest) + [] == Accepted(g, FRESH, rest);
    }
  }

  /** The verdict on each row of a list fed to a fresh gate, in terms of the rows accepted before it: a row is
      an exact duplicate iff one of them has its stripped text, a semantic duplicate iff it is no exact one
      and shares more than the limit with one of them (or the limit is below 0), and is accepted iff there
      is no reason against it. */
  lemma FreshGateLaw(g: GateConfig, examples: seq<Example>, i: nat)
    requires i < |examples|
    ensures |Verdicts(g, FRESH, examples)| == |examples|
    ensures var before, v := Accepted(g, FRESH, examples[..i]), Verdicts(g, FRESH, examples)[i];
      var exact := exists a :: a in before && g.strip(a.text) == g.strip(examples[i].text);
      && v.example == examples[i]
      && (ExactDuplicate in v.reasons <==> exact)
      && (SemanticDuplicate in v.reasons <==>
            && !exact
            && (|| g.maxSimilarity < 0.0
                || exists a :: a in before && TooClose(g.tokens(examples[i].text), g.tokens(a.text), g.maxSimilarity)))
      && (forall name :: Flag(name) in v.reasons <==> name in g.flags(examples[i]))
      && Accepted(g, FRESH, examples[..i + 1]) == before + (if v.reasons == {} then [examples[i]] else [])
      && (v.reasons != {} ==> examples[i] in Refused(g, FRESH, examples[..i + 1]))
  {
    hide Reasons, TooClose, After;
    var before, e := Accepted(g, FRESH, examples[..i]), examples[i];
    var m := MemoryOf(g, before);
    VerdictAt(g, FRESH, examples, i);
    MemoryIsAccepted(g, examples[..i]);
    ReasonsAreRight(g, m, e);
    HashIsRemembered(g, before, e);
    assert examples[..i + 1][..i] == examples[..i];
    if exists a :: a in before && TooClose(g.tokens(e.text), g.tokens(a.text), g.maxSimilarity) {
      var a :| a in before && TooClose(g.tokens(e.text), g.tokens(a.text), g.maxSimilarity);
      var j :| 0 <= j < |before| && before[j] == a;
      assert TooClose(g.tokens(e.text), m.items[j].tokens, g.maxSimilarity);
    }
  }

  lemma HashIsRemembered(g: GateConfig, before: seq<Example>, e: Example)
    ensures HashOf(g, e) in HashesOf(g, before) <==> exists a :: a in before && g.strip(a.text) == g.strip(e.text)
  {
    if a :| a in before && g.strip(a.text) == g.strip(e.text) { assert HashOf(g, a) == HashOf(g, e); }
  }

  // ---- Which lists a fresh gate accepts whole ----

  predicate Clean(g: GateConfig, e: Example) {
    0.0 <= g.maxSimilarity && g.flags(e) == {}
  }

  predicate Compatible(g: GateConfig, a: Example, b: Example) {
    HashOf(g, a) != HashOf(g, b) && Jaccard(g.tokens(a.text), g.tokens(b.text)) <= g.maxSimilarity
  }

  lemma CompatibleIsSymmetric(g: GateConfig, a: Example, b: Example)
    ensures Compatible(g, a, b) <==> Compatible(g, b, a)
  {
    JaccardIsSymmetric(g.tokens(a.text), g.tokens(b.text));
  }

  ghost predicate Harmonious(g: GateConfig, examples: seq<Example>) {
    && (forall i :: 0 <= i < |examples| ==> Clean(g, examples[i]))
    && (forall i, j :: 0 <= i < j < |examples| ==> Compatible(g, examples[i], examples[j]))
  }

  lemma AcceptsWhenCompatible(g: GateConfig, examples: seq<Example>, e: Example)
    ensures Accepts(g, MemoryOf(g, examples), e) <==>
      Clean(g, e) && forall i :: 0 <= i < |examples| ==> Compatible(g, examples[i], e)
  {
    hide Jaccard, MaxSimilarity;
    var m := MemoryOf(g, examples);
    MaxSimilarityWithin(g.tokens(e.text), m.items, g.maxSimilarity);
    forall i | 0 <= i < |examples|
      ensures Compatible(g, examples[i], e) <==>
        HashOf(g, examples[i]) != HashOf(g, e) && Jaccard(g.tokens(e.text), m.items[i].tokens) <= g.maxSimilarity
    {
      JaccardIsSymmetric(g.tokens(examples[i].text), g.tokens(e.text));
    }
    NoFlagNoReason(g, m, e);
    if HashOf(g, e) in m.hashes {
      var a :| a in examples && HashOf(g, a) == HashOf(g, e);
    } else {
      forall i | 0 <= i < |examples| ensures HashOf(g, examples[i]) != HashOf(g, e) {
        assert HashOf(g, examples[i]) in m.hashes;
      }
    }
  }

  lemma NoFlagNoReason(g: GateConfig, m: Memory, e: Example)
    ensures Accepts(g, m, e) <==>
      && g.flags(e) == {} && HashOf(g, e) !in m.hashes
      && MaxSimilarity(g.tokens(e.text), m.items) <= g.maxSimilarity
  {
    hide MaxSimilarity, HashOf;
    if name :| name in g.flags(e) {
      assert Flag(name) in Reasons(g, m, e);
    } else {
      assert g.flags(e) == {};
    }
    if HashOf(g, e) in m.hashes { assert ExactDuplicate in Reasons(g, m, e); }
    else if MaxSimilarity(g.tokens(e.text), m.items) > g.maxSimilarity { assert SemanticDuplicate in Reasons(g, m, e); }
  }

  /** Whatever was fed in, what came out is pairwise within the limit. */
  lemma {:induction false} AcceptedIsHarmonious(g: GateConfig, examples: seq<Example>)
    ensures Harmonious(g, Accepted(g, FRESH, examples))
  {
    hide Accepts, Clean, Compatible;
    if examples != [] {
      var rest, e := examples[..|examples| - 1], examples[|examples| - 1];
      AcceptedIsHarmonious(g, rest);
      MemoryIsAccepted(g, rest);
      AcceptsWhenCompatible(g, Accepted(g, FRESH, rest), e);
      assert Accepted(g, FRESH, rest) + [] == Accepted(g, FRESH, rest);
    }
  }

  lemma HarmoniousInit(g: GateConfig, rest: seq<Example>, e: Example)
    requires Harmonious(g, rest + [e])
    ensures Harmonious(g, rest) && Clean(g, e)
    ensures forall i :: 0 <= i < |rest| ==> Compatible(g, rest[i], e)
  {
    hide Clean, Compatible;
    var all := rest + [e];
    forall i | 0 <= i < |rest| ensures Clean(g, rest[i]) { assert all[i] == rest[i]; }
    forall i, j | 0 <= i < j < |rest| ensures Compatible(g, rest[i], rest[j]) { assert all[i] == rest[i] && all[j] == rest[j]; }
    assert all[|rest|] == e;
    forall i | 0 <= i < |rest| ensures Compatible(g, rest[i], e) { assert all[i] == rest[i]; }
  }

  lemma {:induction false} HarmoniousIsAccepted(g: GateConfig, examples: seq<Example>)
    requires Harmonious(g, examples)
    ensures Accepted(g, FRESH, examples) == examples && Refused(g, FRESH, examples) == []
  {
    hide Accepts, Clean, Compatible, Harmonious, MemoryOf;
    if examples != [] {
      var rest, e := examples[..|examples| - 1], examples[|examples| - 1];
      assert rest + [e] == examples;
      HarmoniousInit(g, rest, e);
      HarmoniousIsAccepted(g, rest);
      MemoryIsAccepted(g, rest);
      AcceptsWhenCompatible(g, rest, e);
    }
  }

  /** A fresh gate accepts a list whole exactly when it is clean and pairwise compatible. */
  lemma AcceptedWholeIffHarmonious(g: GateConfig, examples: seq<Example>)
    ensures Accepted(g, FRESH, examples) == examples <==> Harmonious(g, examples)
    ensures Harmonious(g, examples) ==> Refused(g, FRESH, examples) == []
  {
    hide Harmonious, Accepted, Refused;
    AcceptedIsHarmonious(g, examples);
    if Harmonious(g, examples) { HarmoniousIsAccepted(g, examples); }
  }

  // ---- Replay ----

  /** A fresh gate fed everything an earlier gate accepted accepts it all, in the same order,
      and remembers exactly the same hashes and items. */
  lemma ReplayRebuildsTheGate(g: GateConfig, examples: seq<Example>)
    ensures var accepted := Accepted(g, FRESH, examples);
      && Accepted(g, FRESH, accepted) == accepted && Refused(g, FRESH, accepted) == []
      && After(g, FRESH, accepted) == After(g, FRESH, examples)
  {
    hide Accepts, Harmonious, MemoryOf;
    var accepted := Accepted(g, FRESH, examples);
    AcceptedIsHarmonious(g, examples);
    AcceptedWholeIffHarmonious(g, accepted);
    MemoryIsAccepted(g, examples);
    MemoryIsAccepted(g, accepted);
  }

  /** Verifying in batches is verifying their concatenation, so the rows of any number of
      iterations can be replayed one file at a time. */
  lemma {:induction false} BatchesJoin(g: GateConfig, m: Memory, a: seq<Example>, b: seq<Example>)
    ensures After(g, After(g, m, a), b) == After(g, m, a + b)
    ensures Accepted(g, m, a + b) == Accepted(g, m, a) + Accepted(g, After(g, m, a), b)
  {
    hide Accepts;
    if b == [] {
      assert a + b == a;
      assert Accepted(g, m, a) + [] == Accepted(g, m, a);
    } else {
      var rest, e := b[..|b| - 1], b[|b| - 1];
      BatchesJoin(g, m, a, rest);
      assert (a + b)[..|a + b| - 1] == a + rest && (a + b)[|a + b| - 1] == e;
    }
  }

  lemma Twice(examples: seq<Example>, i: nat, j: nat)
    requires i < j < |examples| && examples[i] == examples[j]
    ensures multiset(examples)[examples[i]] >= 2
  {
    assert examples == examples[..j] + [examples[j]] + examples[j + 1..];
    assert examples[i] in examples[..j];
  }

  lemma {:induction false} Once(examples: seq<Example>, x: Example)
    requires forall i, j :: 0 <= i < j < |examples| ==> examples[i] != examples[j]
    ensures multiset(examples)[x] <= 1
  {
    if examples != [] {
      var rest, e := examples[..|examples| - 1], examples[|examples| - 1];
      Once(rest, x);
      assert examples == rest + [e];
      assert e !in rest;
    }
  }

  lemma HarmonyHasNoOrder(g: GateConfig, a: seq<Example>, b: seq<Example>)
    requires Harmonious(g, a) && multiset(a) == multiset(b)
    ensures Harmonious(g, b)
  {
    forall i | 0 <= i < |b| ensures Clean(g, b[i]) {
      assert b[i] in multiset(a);
    }
    forall i, j | 0 <= i < j < |b| ensures Compatible(g, b[i], b[j]) {
      assert forall x, y :: 0 <= x < y < |a| ==> Compatible(g, a[x], a[y]);
      Once(a, b[i]);
      if b[i] == b[j] { Twice(b, i, j); }
      assert b[i] in multiset(a) && b[j] in multiset(a);
      var x :| 0 <= x < |a| && a[x] == b[i];
      var y :| 0 <= y < |a| && a[y] == b[j];
      CompatibleIsSymmetric(g, a[x], a[y]);
    }
  }

  lemma ItemsJoin(g: GateConfig, a: seq<Example>, b: seq<Example>)
    ensures ItemsOf(g, a + b) == ItemsOf(g, a) + ItemsOf(g, b)
  {
  }

  lemma TakeOut<T>(rest: seq<T>, x: T, left: seq<T>, right: seq<T>)
    ensures multiset(rest + [x]) == multiset(left + [x] + right) <==> multiset(rest) == multiset(left + right)
  {
    var a, b := multiset(rest), multiset(left + right);
    assert multiset(rest + [x]) == a + multiset{x};
    assert multiset(left + [x] + right) == b + multiset{x};
    assert a == (a + multiset{x}) - multiset{x};
    assert b == (b + multiset{x}) - multiset{x};
  }

  lemma {:induction false} SameItems(g: GateConfig, a: seq<Example>, b: seq<Example>)
    requires multiset(a) == multiset(b)
    ensures multiset(ItemsOf(g, a)) == multiset(ItemsOf(g, b))
    decreases |a|
  {
    hide ItemsOf;
    if a == [] {
      assert |multiset(b)| == 0;
      assert b == [];
    } else {
      var rest, x := a[..|a| - 1], a[|a| - 1];
      assert a == rest + [x];
      assert x in multiset(a);
      assert x in b;
      var j :| 0 <= j < |b| && b[j] == x;
      var left, right := b[..j], b[j + 1..];
      assert b == left + [x] + right;
      SameItemsAround(g, rest, x, left, right);
    }
  }

  lemma {:induction false} SameItemsAround(g: GateConfig, rest: seq<Example>, x: Example, left: seq<Example>, right: seq<Example>)
    requires multiset(rest + [x]) == multiset(left + [x] + right)
    ensures multiset(ItemsOf(g, rest + [x])) == multiset(ItemsOf(g, left + [x] + right))
    decreases |rest| + 1, 0
  {
    hide ItemsOf;
    TakeOut(rest, x, left, right);
    SameItems(g, rest, left + right);
    ItemsJoin(g, left, right);
    ItemsJoin(g, rest, [x]);
    ItemsJoin(g, left + [x], right);
    ItemsJoin(g, left, [x]);
    assert ItemsOf(g, [x]) == [Item(x.id, g.tokens(x.text))] by { OneItem(g, x); }
    TakeOut(ItemsOf(g, rest), Item(x.id, g.tokens(x.text)), ItemsOf(g, left), ItemsOf(g, right));
  }

  lemma OneItem(g: GateConfig, x: Example)
    ensures ItemsOf(g, [x]) == [Item(x.id, g.tokens(x.text))]
  {
  }

  /** Any order of replay is accepted whole, and rebuilds the same hashes and, up to order,
      the same items. */
  lemma AnyOrderIsAccepted(g: GateConfig, examples: seq<Example>, order: seq<Example>)
    requires multiset(order) == multiset(Accepted(g, FRESH, examples))
    ensures Accepted(g, FRESH, order) == order && Refused(g, FRESH, order) == []
    ensures After(g, FRESH, order).hashes == After(g, FRESH, examples).hashes
    ensures multiset(After(g, FRESH, order).items) == multiset(After(g, FRESH, examples).items)
  {
    hide Accepts, Harmonious, HashOf, ItemsOf;
    var accepted := Accepted(g, FRESH, examples);
    AcceptedIsHarmonious(g, examples);
    HarmonyHasNoOrder(g, accepted, order);
    SameItems(g, accepted, order);
    AcceptedWholeIffHarmonious(g, order);
    MemoryIsAccepted(g, examples);
    MemoryIsAccepted(g, order);
    forall e ensures e in order <==> e in accepted {
      assert e in order <==> e in multiset(order);
      assert e in accepted <==> e in multiset(accepted);
    }
  }

  predicate AllDuplicates(records: seq<Verdict>) {
    forall i :: 0 <= i < |records| ==> ExactDuplicate in records[i].reasons
  }

  lemma RememberedIsRefused(g: GateConfig, m: Memory, e: Example)
    requires HashOf(g, e) in m.hashes
    ensures ExactDuplicate in Reasons(g, m, e) && !Accepts(g, m, e)
  {
  }

  lemma {:induction false} RememberedAreRefused(g: GateConfig, m: Memory, examples: seq<Example>)
    requires forall e :: e in examples ==> HashOf(g, e) in m.hashes
    ensures Accepted(g, m, examples) == [] && After(g, m, examples) == m
    ensures |Verdicts(g, m, examples)| == |examples| && AllDuplicates(Verdicts(g, m, examples))
  {
    hide Reasons, Accepts, HashOf;
    if examples != [] {
      var rest, e := examples[..|examples| - 1], examples[|examples| - 1];
      RememberedAreRefused(g, m, rest);
      RememberedIsRefused(g, m, e);
    }
  }

  /** The other side of replay: rows that are already remembered are refused as exact
      duplicates, every one. An iteration that crashed after writing its rows and runs again
      meets its own rows this way. */
  lemma ReplayedRowsAreDuplicates(g: GateConfig, examples: seq<Example>)
    ensures var m, accepted := After(g, FRESH, examples), Accepted(g, FRESH, examples);
      && Accepted(g, m, accepted) == [] && After(g, m, accepted) == m
      && |Verdicts(g, m, accepted)| == |accepted| && AllDuplicates(Verdicts(g, m, accepted))
  {
    hide Accepts, Reasons, Accepted, Verdicts, AllDuplicates;
    var accepted := Accepted(g, FRESH, examples);
    MemoryIsAccepted(g, examples);
    RememberedAreRefused(g, MemoryOf(g, accepted), accepted);
  }
}
