/**
 * The confidence calculator: a keyword score over the lower-cased text, the
 * oracle's score after normalisation, a weighted blend of the two, and the
 * length and information-quality boosts applied after each answer.
 */
module ConfidenceCalculator {
  import opened Wrappers
  import opened Text
  import opened Oracle
  import opened Distributions
  import opened Models

  // ---------------------------------------------------------------------------
  // Keyword analysis
  // ---------------------------------------------------------------------------

  /** The keywords that point to each specialist, in the calculator's order. */
  const DoctorKeywords: seq<(string, seq<string>)> := [
    ("Ophthalmologist", ["infection", "disease", "serious", "medical", "treatment", "diagnosis",
                         "severe", "complications", "medication", "urgent", "red eye", "discharge"]),
    ("Optometrist", ["blurry", "vision", "glasses", "contacts", "prescription", "reading",
                     "distance", "eye strain", "headache", "focus", "clarity"]),
    ("Optician", ["fitting", "adjustment", "frame", "lens", "broken", "repair",
                  "comfort", "size", "style", "dispense"]),
    ("Ocular Surgeon", ["surgery", "surgical", "operation", "cataract", "retinal", "tumor",
                        "emergency", "trauma", "injury", "severe damage"])
  ]

  const KeywordStep: real := 0.15

  function Min(a: real, b: real): real {
    if a <= b then a else b
  }

  /** How many of the keywords occur as substrings of `text`. */
  function Hits(keywords: seq<string>, text: string): (n: nat)
    ensures n <= |keywords|
  {
    if keywords == [] then 0
    else Hits(keywords[..|keywords| - 1], text) + (if Contains(text, keywords[|keywords| - 1]) then 1 else 0)
  }

  /** The positions of the keywords that occur in `text`. */
  ghost function HitIndices(keywords: seq<string>, text: string): set<nat> {
    set i: nat | i < |keywords| && Contains(text, keywords[i])
  }

  /** `Hits` counts exactly the keywords that occur. */
  lemma {:induction false} HitsCountsOccurring(keywords: seq<string>, text: string)
    ensures Hits(keywords, text) == |HitIndices(keywords, text)|
  {
    if keywords != [] {
      var n := |keywords| - 1;
      var init := keywords[..n];
      HitsCountsOccurring(init, text);
      assert forall i | 0 <= i < n :: init[i] == keywords[i];
      if Contains(text, keywords[n]) {
        assert HitIndices(keywords, text) == HitIndices(init, text) + {n};
      } else {
        assert HitIndices(keywords, text) == HitIndices(init, text);
      }
    }
  }

  lemma {:induction false} NoHits(keywords: seq<string>, text: string)
    ensures Hits(keywords, text) == 0 <==> forall i | 0 <= i < |keywords| :: !Contains(text, keywords[i])
  {
    HitsCountsOccurring(keywords, text);
    if Hits(keywords, text) == 0 {
      forall i | 0 <= i < |keywords|
        ensures !Contains(text, keywords[i])
      {
        var j: nat := i;
        assert j !in HitIndices(keywords, text);
      }
    } else {
      var j :| j in HitIndices(keywords, text);
    }
  }

  /** A keyword scan: `step` added to `start` once per keyword that occurs in `lowered`. */
  method AddPerHit(start: real, step: real, keywords: seq<string>, lowered: string) returns (r: real)
    ensures r == start + step * (Hits(keywords, lowered) as real)
  {
    r := start;
    var j := 0;
    while j < |keywords|
      invariant 0 <= j <= |keywords|
      invariant r == start + step * (Hits(keywords[..j], lowered) as real)
    {
      assert keywords[..j + 1][..j] == keywords[..j];
      if Contains(lowered, keywords[j]) {
        r := r + step;
      }
      j := j + 1;
    }
    assert keywords[..j] == keywords;
  }

  /** One specialist's raw score: 0.15 per keyword present, capped at 1. */
  function RawScore(keywords: seq<string>, lowered: string): (r: real)
    ensures 0.0 <= r <= 1.0
  {
    Min(1.0, KeywordStep * (Hits(keywords, lowered) as real))
  }

  function Names(table: seq<(string, seq<string>)>): (ns: seq<string>)
    ensures |ns| == |table|
    ensures forall i | 0 <= i < |table| :: ns[i] == table[i].0
  {
    if table == [] then [] else Names(table[..|table| - 1]) + [table[|table| - 1].0]
  }

  /** The raw scores of the specialists of a table, in table order. */
  function RawScores(table: seq<(string, seq<string>)>, lowered: string): (d: seq<(string, real)>)
    ensures Keys(d) == Names(table)
  {
    if table == [] then []
    else RawScores(table[..|table| - 1], lowered) + [(table[|table| - 1].0, RawScore(table[|table| - 1].1, lowered))]
  }

  /** Each specialist's entry holds the raw score of its own keywords. */
  lemma {:induction false} RawScoresAt(table: seq<(string, seq<string>)>, lowered: string)
    ensures forall i | 0 <= i < |table| :: RawScores(table, lowered)[i].1 == RawScore(table[i].1, lowered)
  {
    if table != [] {
      var n := |table| - 1;
      var init := RawScores(table[..n], lowered);
      RawScoresAt(table[..n], lowered);
      assert RawScores(table, lowered) == init + [(table[n].0, RawScore(table[n].1, lowered))];
      forall i | 0 <= i < |table|
        ensures RawScores(table, lowered)[i].1 == RawScore(table[i].1, lowered)
      {
        if i < n {
          assert table[..n][i] == table[i];
        }
      }
    }
  }

  lemma TableNames()
    ensures Names(DoctorKeywords) == AllowedDoctors
    ensures Distinct(AllowedDoctors)
  {
  }

  /** The raw keyword scores of a text, one per specialist in configuration order. */
  function KeywordRaw(text: string): (d: Distribution)
    ensures Keys(d) == AllowedDoctors
    ensures WithinUnit(d) && NonNegative(d)
    ensures forall i | 0 <= i < 4 :: d[i].1 == RawScore(DoctorKeywords[i].1, Lower(text))
  {
    TableNames();
    RawScoresAt(DoctorKeywords, Lower(text));
    RawScores(DoctorKeywords, Lower(text))
  }

  /** `{k: 0.25 for k in doctor_keywords}`. */
  const Uniform: Distribution := [("Ophthalmologist", 0.25), ("Optometrist", 0.25), ("Optician", 0.25), ("Ocular Surgeon", 0.25)]

  /** Raw scores divided by their sum, or the uniform split when they sum to 0. */
  function Normalize(raw: Distribution): Distribution {
    if Total(raw) > 0.0 then Scale(raw, Total(raw)) else Uniform
  }

  /** The keyword analysis of a text, as the calculator defines it. */
  function KeywordScore(text: string): ConfidenceScore {
    ScoreOf(KeywordRaw(text))
  }

  /** The keyword score built from raw scores: normalised shares, the largest share as `overall`. */
  function ScoreOf(raw: Distribution): ConfidenceScore {
    var doctors := Normalize(raw);
    ConfidenceScore(MaxValue(doctors), doctors, "Keyword-based confidence analysis")
  }

  /** The keyword analysis: raw scores per specialist, then normalised. */
  method AnalyzeKeywords(text: string) returns (c: ConfidenceScore)
    ensures c == KeywordScore(text)
  {
    var scores := ScanTable(DoctorKeywords, Lower(text));
    var raw: Distribution := KeywordRaw(text);
    assert scores == raw;
    var total := Total(raw);
    var doctors := if total > 0.0 then Scale(raw, total) else Uniform;
    c := ConfidenceScore(MaxValue(doctors), doctors, "Keyword-based confidence analysis");
  }

  /** The loop over the specialists of a table, each scored by a keyword scan. */
  method ScanTable(table: seq<(string, seq<string>)>, lowered: string) returns (scores: seq<(string, real)>)
    ensures scores == RawScores(table, lowered)
  {
    scores := [];
    var i := 0;
    while i < |table|
      invariant 0 <= i <= |table|
      invariant scores == RawScores(table[..i], lowered)
    {
      var doctor := table[i].0;
      var keywords := table[i].1;
      var score := AddPerHit(0.0, KeywordStep, keywords, lowered);
      assert RawScores(table[..i + 1], lowered) == scores + [(doctor, Min(1.0, score))] by {
        assert table[..i + 1][..i] == table[..i];
      }
      scores := scores + [(doctor, Min(1.0, score))];
      i := i + 1;
    }
    assert table[..i] == table;
  }

  /** Normalising four non-negative scores gives a distribution summing to 1 whose maximum is in [0.25, 1]. */
  lemma NormalizeShape(raw: Distribution)
    requires Keys(raw) == AllowedDoctors && NonNegative(raw)
    ensures Keys(Normalize(raw)) == AllowedDoctors
    ensures Total(Normalize(raw)) == 1.0
    ensures WithinUnit(Normalize(raw))
    ensures 0.25 <= MaxValue(Normalize(raw)) <= 1.0
  {
    var d := Normalize(raw);
    assert Keys(d) == AllowedDoctors && Total(d) == 1.0 && WithinUnit(d) by {
      if Total(raw) > 0.0 {
        Normalized(raw);
      } else {
        Total4(Uniform);
      }
    }
    assert 0.25 <= MaxValue(d) by {
      TotalAtMost(d, MaxValue(d));
      assert |d| as real == 4.0;
    }
  }

  /**
   * The keyword score is a distribution over the four specialists that sums
   * to 1; `overall` is one of its values, the largest, and lies in [0.25, 1].
   */
  lemma KeywordScoreShape(text: string)
    ensures Keys(KeywordScore(text).doctors) == AllowedDoctors
    ensures Total(KeywordScore(text).doctors) == 1.0
    ensures WithinUnit(KeywordScore(text).doctors)
    ensures 0.25 <= KeywordScore(text).overall <= 1.0
    ensures SomeAtLeast(KeywordScore(text).doctors, KeywordScore(text).overall)
    ensures forall i | 0 <= i < 4 :: KeywordScore(text).doctors[i].1 <= KeywordScore(text).overall
  {
    ScoreShape(KeywordRaw(text));
  }

  /** `ScoreOf` on four non-negative raw scores, one per specialist. */
  lemma ScoreShape(raw: Distribution)
    requires Keys(raw) == AllowedDoctors && NonNegative(raw)
    ensures Keys(ScoreOf(raw).doctors) == AllowedDoctors
    ensures Total(ScoreOf(raw).doctors) == 1.0
    ensures WithinUnit(ScoreOf(raw).doctors)
    ensures 0.25 <= ScoreOf(raw).overall <= 1.0
    ensures SomeAtLeast(ScoreOf(raw).doctors, ScoreOf(raw).overall)
    ensures forall i | 0 <= i < 4 :: ScoreOf(raw).doctors[i].1 <= ScoreOf(raw).overall
  {
    NormalizeShape(raw);
  }

  /**
   * With no keyword of any specialist in the lower-cased text the split is
   * uniform; otherwise each share is the specialist's raw score over the sum.
   */
  lemma KeywordScoreShares(text: string)
    ensures var raw := KeywordRaw(text);
            var d := KeywordScore(text).doctors;
            (forall i | 0 <= i < 4 :: Total(raw) == 0.0 ==> d[i].1 == 0.25)
            && (forall i | 0 <= i < 4 :: Total(raw) != 0.0 ==> d[i].1 == raw[i].1 / Total(raw))
  {
    TotalNonNegative(KeywordRaw(text));
  }

  lemma RawScoreZero(keywords: seq<string>, lowered: string)
    ensures RawScore(keywords, lowered) == 0.0 <==> forall j | 0 <= j < |keywords| :: !Contains(lowered, keywords[j])
  {
    NoHits(keywords, lowered);
  }

  /** The raw scores sum to 0 exactly when no keyword of any specialist occurs in the lower-cased text. */
  lemma KeywordScoreUniform(text: string)
    ensures Total(KeywordRaw(text)) == 0.0
        <==> forall i, j | 0 <= i < 4 && 0 <= j < |DoctorKeywords[i].1| :: !Contains(Lower(text), DoctorKeywords[i].1[j])
  {
    var raw := KeywordRaw(text);
    TotalZero(raw);
    forall i | 0 <= i < 4
      ensures raw[i].1 == 0.0 <==> forall j | 0 <= j < |DoctorKeywords[i].1| :: !Contains(Lower(text), DoctorKeywords[i].1[j])
    {
      RawScoreZero(DoctorKeywords[i].1, Lower(text));
    }
  }

  // ---------------------------------------------------------------------------
  // Blending two scores
  // ---------------------------------------------------------------------------

  /** The weights divided by their sum, or an even split when the sum is not positive. */
  function NormalizeWeights(w1: real, w2: real): (r: (real, real))
    ensures r.0 + r.1 == 1.0
    ensures w1 + w2 > 0.0 ==> r.0 * (w1 + w2) == w1 && r.1 * (w1 + w2) == w2
    ensures w1 + w2 <= 0.0 ==> r == (0.5, 0.5)
    ensures w1 >= 0.0 && w2 >= 0.0 ==> r.0 >= 0.0 && r.1 >= 0.0
  {
    var t := w1 + w2;
    if t > 0.0 then
      DivAdd(w1, w2, t);
      DivSelf(t);
      (w1 / t, w2 / t)
    else (0.5, 0.5)
  }

  /** The keys of `xs` followed by the keys of `ys` not already listed. */
  function UnionKeys(xs: seq<string>, ys: seq<string>): (r: seq<string>)
    ensures forall k :: k in r <==> k in xs || k in ys
    ensures Distinct(xs) ==> Distinct(r)
    decreases |ys|
  {
    if ys == [] then xs
    else UnionKeys(if ys[0] in xs then xs else xs + [ys[0]], ys[1..])
  }

  /** `x * a + y * b`. */
  function Mix(x: real, y: real, a: real, b: real): real {
    x * a + y * b
  }

  /** `{k: d1.get(k, 0.0) * a + d2.get(k, 0.0) * b for k in keys}`. */
  function Blend(keys: seq<string>, d1: Distribution, d2: Distribution, a: real, b: real): (r: seq<(string, real)>)
    ensures |r| == |keys|
    ensures forall i | 0 <= i < |keys| :: r[i] == (keys[i], Mix(Get(d1, keys[i]), Get(d2, keys[i]), a, b))
  {
    if keys == [] then []
    else
      var rest := Blend(keys[1..], d1, d2, a, b);
      var r := [(keys[0], Mix(Get(d1, keys[0]), Get(d2, keys[0]), a, b))] + rest;
      assert forall i | 1 <= i < |keys| :: r[i] == rest[i - 1] && keys[1..][i - 1] == keys[i];
      r
  }

  /** Both doctor maps, blended over the union of their keys. */
  function BlendedDoctors(d1: Distribution, d2: Distribution, a: real, b: real): (r: Distribution)
    ensures Keys(r) == UnionKeys(Keys(d1), Keys(d2))
  {
    var keys := UnionKeys(Keys(d1), Keys(d2));
    KeysDistinct(d1);
    Blend(keys, d1, d2, a, b)
  }

  /** The blend's explanation, naming both weights to two decimals and both inputs' explanations. */
  function CombineReasoning(a: real, b: real, r1: string, r2: string): string {
    "Combined analysis (weights: " + Fixed2(a) + "/" + Fixed2(b) + ") - " + r1 + " + " + r2
  }

  /**
   * Blending two scores with the given weights. The result is rejected, as
   * the score's range check does, when the blended `overall` leaves [0, 1].
   */
  function Combine(s1: ConfidenceScore, s2: ConfidenceScore, w1: real, w2: real): (r: Option<ConfidenceScore>)
    ensures r.Some? ==> InUnitRange(r.value.overall)
    ensures r.Some? ==> Keys(r.value.doctors) == UnionKeys(Keys(s1.doctors), Keys(s2.doctors))
    ensures r.Some? <==> InUnitRange(Mix(s1.overall, s2.overall, NormalizeWeights(w1, w2).0, NormalizeWeights(w1, w2).1))
  {
    var (a, b) := NormalizeWeights(w1, w2);
    MakeScore(
      Mix(s1.overall, s2.overall, a, b),
      BlendedDoctors(s1.doctors, s2.doctors, a, b),
      CombineReasoning(a, b, s1.reasoning, s2.reasoning))
  }

  lemma ConvexStep(x: real, y: real, a: real, b: real, lo: real, hi: real)
    requires a >= 0.0 && b >= 0.0 && a + b == 1.0
    requires lo <= x <= hi && lo <= y <= hi
    ensures lo <= Mix(x, y, a, b) <= hi
  {
    MixAbove(x, y, a, b, lo);
    MixBelow(x, y, a, b, hi);
  }

  lemma MixAbove(x: real, y: real, a: real, b: real, lo: real)
    requires a >= 0.0 && b >= 0.0 && a + b == 1.0 && lo <= x && lo <= y
    ensures lo <= x * a + y * b
  {
    MulLe(lo, x, a);
    MulLe(lo, y, b);
    AddLe(lo * a, lo * b, x * a, y * b);
    Split(lo, a, b);
  }

  lemma MixBelow(x: real, y: real, a: real, b: real, hi: real)
    requires a >= 0.0 && b >= 0.0 && a + b == 1.0 && x <= hi && y <= hi
    ensures x * a + y * b <= hi
  {
    MulLe(x, hi, a);
    MulLe(y, hi, b);
    AddLe(x * a, y * b, hi * a, hi * b);
    Split(hi, a, b);
  }

  lemma AddLe(p: real, q: real, r: real, t: real)
    requires p <= r && q <= t
    ensures p + q <= r + t
  {
  }

  lemma MulLe(x: real, y: real, a: real)
    requires x <= y && a >= 0.0
    ensures x * a <= y * a
  {
  }

  lemma Split(x: real, a: real, b: real)
    requires a + b == 1.0
    ensures x * a + x * b == x
  {
    assert x * a + x * b == x * (a + b);
  }

  /**
   * With non-negative weights the blended `overall` lies between the two
   * inputs, so blending two in-range scores always succeeds.
   */
  lemma CombineDefined(s1: ConfidenceScore, s2: ConfidenceScore, w1: real, w2: real)
    requires w1 >= 0.0 && w2 >= 0.0
    requires InUnitRange(s1.overall) && InUnitRange(s2.overall)
    ensures Combine(s1, s2, w1, w2).Some?
    ensures var o := Combine(s1, s2, w1, w2).value.overall;
            (s1.overall <= o <= s2.overall) || (s2.overall <= o <= s1.overall)
  {
    var (a, b) := NormalizeWeights(w1, w2);
    if s1.overall <= s2.overall {
      ConvexStep(s1.overall, s2.overall, a, b, s1.overall, s2.overall);
    } else {
      ConvexStep(s1.overall, s2.overall, a, b, s2.overall, s1.overall);
    }
  }

  /**
   * The blended map has exactly the keys of either input, and each value is
   * the weighted sum of the inputs' values, a missing key counting as 0.
   */
  lemma CombineEntries(s1: ConfidenceScore, s2: ConfidenceScore, w1: real, w2: real, k: string)
    requires Combine(s1, s2, w1, w2).Some?
    ensures var (a, b) := NormalizeWeights(w1, w2);
            var d := Combine(s1, s2, w1, w2).value.doctors;
            (k in Keys(d) <==> k in Keys(s1.doctors) || k in Keys(s2.doctors))
            && Get(d, k) == Mix(Get(s1.doctors, k), Get(s2.doctors, k), a, b)
  {
    var (a, b) := NormalizeWeights(w1, w2);
    var d := Combine(s1, s2, w1, w2).value.doctors;
    if k in Keys(d) {
      var i :| 0 <= i < |d| && Keys(d)[i] == k;
      GetAt(d, i);
    } else {
      GetAbsent(d, k);
      GetAbsent(s1.doctors, k);
      GetAbsent(s2.doctors, k);
    }
  }

  lemma BlendStep(g1: real, g2: real, p: real, q: real, a: real, b: real)
    ensures Mix(g1, g2, a, b) + (a * p + b * q) == a * (g1 + p) + b * (g2 + q)
  {
    assert a * (g1 + p) == a * g1 + a * p;
    assert b * (g2 + q) == b * g2 + b * q;
  }

  lemma {:induction false} BlendTotal(keys: seq<string>, d1: Distribution, d2: Distribution, a: real, b: real)
    ensures Total(Blend(keys, d1, d2, a, b)) == a * SumGet(keys, d1) + b * SumGet(keys, d2)
  {
    if keys != [] {
      var r := Blend(keys, d1, d2, a, b);
      assert r[1..] == Blend(keys[1..], d1, d2, a, b);
      BlendTotal(keys[1..], d1, d2, a, b);
      BlendStep(Get(d1, keys[0]), Get(d2, keys[0]), SumGet(keys[1..], d1), SumGet(keys[1..], d2), a, b);
    }
  }

  /** Blending two distributions that each sum to 1 gives one that sums to 1. */
  lemma CombineTotal(s1: ConfidenceScore, s2: ConfidenceScore, w1: real, w2: real)
    requires Combine(s1, s2, w1, w2).Some?
    requires Total(s1.doctors) == 1.0 && Total(s2.doctors) == 1.0
    ensures Total(Combine(s1, s2, w1, w2).value.doctors) == 1.0
  {
    var (a, b) := NormalizeWeights(w1, w2);
    BlendedTotal(s1.doctors, s2.doctors, a, b);
  }

  /** Blending with weights summing to 1 two distributions that each sum to 1 gives one that sums to 1. */
  lemma BlendedTotal(d1: Distribution, d2: Distribution, a: real, b: real)
    requires a + b == 1.0 && Total(d1) == 1.0 && Total(d2) == 1.0
    ensures Total(BlendedDoctors(d1, d2, a, b)) == 1.0
  {
    var keys := UnionKeys(Keys(d1), Keys(d2));
    KeysDistinct(d1);
    KeysDistinct(d2);
    assert SumGet(keys, d1) == 1.0 by {
      SumGetSameSupport(keys, Keys(d1), d1);
      SumGetKeys(d1);
    }
    assert SumGet(keys, d2) == 1.0 by {
      SumGetSameSupport(keys, Keys(d2), d2);
      SumGetKeys(d2);
    }
    BlendTotal(keys, d1, d2, a, b);
  }

  /** Blending keeps every specialist the first input covers. */
  lemma CombineCovers(s1: ConfidenceScore, s2: ConfidenceScore, w1: real, w2: real)
    requires Combine(s1, s2, w1, w2).Some?
    requires Covers(s1.doctors) || Covers(s2.doctors)
    ensures Covers(Combine(s1, s2, w1, w2).value.doctors)
  {
  }

  // ---------------------------------------------------------------------------
  // The oracle's score, after parsing
  // ---------------------------------------------------------------------------

  /** The fields the calculator reads from the oracle's JSON object. */
  datatype ConfidenceFields = ConfidenceFields(
    overall: Option<real>,
    doctors: Option<Distribution>,
    reasoning: Option<string>)

  /** The fixed 0.4/0.3/0.2/0.1 split used by every fallback of the calculator. */
  const FallbackDoctors: Distribution := [("Ophthalmologist", 0.4), ("Optometrist", 0.3), ("Optician", 0.2), ("Ocular Surgeon", 0.1)]

  const LlmFallback := ConfidenceScore(0.5, FallbackDoctors, "Fallback due to LLM analysis error")

  /** Each listed name that is not yet a key is added with weight 0.25, in list order. */
  function FillMissing(d: Distribution, names: seq<string>): (r: Distribution)
    ensures |d| <= |r| && r[..|d|] == d
    ensures NonNegative(d) ==> NonNegative(r)
    decreases |names|
  {
    if names == [] then d
    else if names[0] in Keys(d) then FillMissing(d, names[1..])
    else
      var r := FillMissing(AppendFresh(d, names[0], 0.25), names[1..]);
      assert r[..|d|] == r[..|d| + 1][..|d|];
      r
  }

  /** After filling, the keys are the reported ones and the listed names, and nothing else. */
  lemma {:induction false} FillMissingKeys(d: Distribution, names: seq<string>)
    ensures forall k :: k in Keys(FillMissing(d, names)) <==> k in Keys(d) || k in names
    decreases |names|
  {
    if names != [] {
      if names[0] in Keys(d) {
        FillMissingKeys(d, names[1..]);
        assert forall k | k in names :: k == names[0] || k in names[1..];
      } else {
        FillMissingKeys(AppendFresh(d, names[0], 0.25), names[1..]);
        FillStepKeys(d, names, FillMissing(d, names));
      }
    }
  }

  /** One step of `FillMissing`: the keys after the rest of the names carry over to all of them. */
  lemma FillStepKeys(d: Distribution, names: seq<string>, r: Distribution)
    requires names != []
    requires forall k :: k in Keys(r) <==> k in Keys(d + [(names[0], 0.25)]) || k in names[1..]
    ensures forall k :: k in Keys(r) <==> k in Keys(d) || k in names
  {
    KeysAppend(d, (names[0], 0.25));
    assert names == [names[0]] + names[1..];
    forall k
      ensures k in Keys(r) <==> k in Keys(d) || k in names
    {
      assert k in Keys(d) + [names[0]] <==> k in Keys(d) || k == names[0];
      assert k in names <==> k == names[0] || k in names[1..];
    }
  }

  /** Filling keeps every value the oracle gave and gives each added name 0.25. */
  lemma {:induction false} FillMissingValues(d: Distribution, names: seq<string>, k: string)
    ensures Get(FillMissing(d, names), k) == if k in Keys(d) then Get(d, k) else if k in names then 0.25 else 0.0
    decreases |names|
  {
    if names != [] {
      if names[0] in Keys(d) {
        FillMissingValues(d, names[1..], k);
      } else {
        var d' := AppendFresh(d, names[0], 0.25);
        assert Keys(d') == Keys(d) + [names[0]];
        FillMissingValues(d', names[1..], k);
        GetAppend(d, names[0], 0.25, k);
        assert k in names <==> k == names[0] || k in names[1..];
        if k in Keys(d) {
        } else if k == names[0] {
          assert k in Keys(d');
        } else {
          assert k !in Keys(d');
        }
      }
    } else {
      if k !in Keys(d) {
        GetAbsent(d, k);
      }
    }
  }

  /**
   * The oracle's score after normalisation: `overall` clamped to [0, 1]
   * (0.5 when absent), missing specialists filled with 0.25, and, when the
   * weights have a positive sum, each weight divided by the sum and clamped.
   * Any failure of the call or of the parse gives the fixed fallback.
   */
  function LlmScore(reply: Reply<ConfidenceFields>): (c: ConfidenceScore)
    ensures InUnitRange(c.overall)
    ensures Covers(c.doctors)
  {
    match reply
    case Parsed(f) =>
      ConfidenceScore(Clamp01(f.overall.GetOr(0.5)), OracleDoctors(f), f.reasoning.GetOr("AI-based medical analysis"))
    case _ => LlmFallback
  }

  /** The oracle's weights, filled, before division. */
  function Filled(f: ConfidenceFields): (d: Distribution)
    ensures Covers(d)
  {
    FillMissingKeys(f.doctors.GetOr([]), AllowedDoctors);
    FillMissing(f.doctors.GetOr([]), AllowedDoctors)
  }

  /** The filled weights, divided by their sum and clamped when the sum is positive. */
  function OracleDoctors(f: ConfidenceFields): (d: Distribution)
    ensures Keys(d) == Keys(Filled(f))
  {
    var filled := Filled(f);
    var t := Total(filled);
    if t > 0.0 then DivideClamped(filled, t) else filled
  }

  /**
   * When every weight the oracle reports is non-negative and the filled
   * weights have a positive sum, the normalised weights sum to 1, each in [0, 1].
   */
  lemma LlmScoreNormalized(f: ConfidenceFields)
    requires NonNegative(f.doctors.GetOr([]))
    requires Total(Filled(f)) > 0.0
    ensures Total(LlmScore(Parsed(f)).doctors) == 1.0
    ensures WithinUnit(LlmScore(Parsed(f)).doctors)
  {
    var filled := Filled(f);
    assert NonNegative(filled);
    DivideClampedIsScale(filled);
    Normalized(filled);
  }

  /** The fallback split sums to 1, so every failure path yields a distribution summing to 1. */
  lemma LlmScoreFailure(reply: Reply<ConfidenceFields>)
    requires !reply.Parsed?
    ensures LlmScore(reply).overall == 0.5
    ensures Total(LlmScore(reply).doctors) == 1.0
  {
    Total4(FallbackDoctors);
  }

  /** A report that already names every listed specialist is not filled. */
  lemma {:induction false} FillMissingComplete(d: Distribution, names: seq<string>)
    requires forall k | k in names :: k in Keys(d)
    ensures FillMissing(d, names) == d
    decreases |names|
  {
    if names != [] {
      FillMissingComplete(d, names[1..]);
    }
  }

  /** A report naming exactly the four specialists, with sum `t > 0`, is divided by `t` and clamped. */
  lemma CompleteReportDivided(f: ConfidenceFields, t: real)
    requires f.doctors.Some? && Keys(f.doctors.value) == AllowedDoctors
    requires t > 0.0 && Total(f.doctors.value) == t
    ensures LlmScore(Parsed(f)).doctors == DivideClamped(f.doctors.value, t)
  {
    FillMissingComplete(f.doctors.value, AllowedDoctors);
  }

  /**
   * A negative weight from the oracle is clamped to 0 after division, so the
   * normalised weights need not sum to 1.
   */
  lemma LlmScoreNegativeWeight(f: ConfidenceFields)
    requires f == ConfidenceFields(None, Some([("Ophthalmologist", 2.0), ("Optometrist", -1.0), ("Optician", 0.5), ("Ocular Surgeon", 0.5)]), None)
    ensures Total(LlmScore(Parsed(f)).doctors) == 1.5
  {
    var d := f.doctors.value;
    var r := DivideClamped(d, 2.0);
    assert LlmScore(Parsed(f)).doctors == r by {
      assert Keys(d) == AllowedDoctors;
      Total4(d);
      CompleteReportDivided(f, 2.0);
    }
    assert Total(r) == 1.5 by {
      assert r[0].1 == 1.0 && r[1].1 == 0.0 && r[2].1 == 0.25 && r[3].1 == 0.25;
      Total4(r);
    }
  }

  /** When the oracle reports zero for every specialist, the weights are kept and sum to 0. */
  lemma LlmScoreAllZero(f: ConfidenceFields)
    requires f == ConfidenceFields(None, Some([("Ophthalmologist", 0.0), ("Optometrist", 0.0), ("Optician", 0.0), ("Ocular Surgeon", 0.0)]), None)
    ensures LlmScore(Parsed(f)).doctors == f.doctors.value
    ensures Total(LlmScore(Parsed(f)).doctors) == 0.0
  {
    var d := f.doctors.value;
    assert LlmScore(Parsed(f)).doctors == d by {
      assert Keys(d) == AllowedDoctors;
      Total4(d);
      FillMissingComplete(d, AllowedDoctors);
    }
    Total4(d);
  }

  // ---------------------------------------------------------------------------
  // Weights and boosts after an answer
  // ---------------------------------------------------------------------------

  function Max(a: real, b: real): real {
    if a >= b then a else b
  }

  /** The keyword analysis's weight after `exchanges` history entries; the oracle gets the rest. */
  function KeywordWeight(exchanges: nat): (w: real)
    ensures 0.1 <= w <= 0.4
  {
    Max(0.1, 0.4 - exchanges as real * 0.05)
  }

  /** The keyword weight never grows as the conversation gets longer. */
  lemma KeywordWeightNonIncreasing(m: nat, n: nat)
    requires m <= n
    ensures KeywordWeight(n) <= KeywordWeight(m)
  {
  }

  /** The boost for conversation length. */
  function LengthBoost(exchanges: nat): (b: real)
    ensures 0.0 <= b <= 0.15
  {
    if exchanges <= 3 then Min(0.08, exchanges as real * 0.03)
    else 0.09 + Min(0.06, (exchanges - 3) as real * 0.015)
  }

  /** The length boost never shrinks as the conversation gets longer. */
  lemma LengthBoostNonDecreasing(m: nat, n: nat)
    requires m <= n
    ensures LengthBoost(m) <= LengthBoost(n)
  {
  }

  // ---------------------------------------------------------------------------
  // Information quality
  // ---------------------------------------------------------------------------

  const QualityIndicators: seq<string> := [
    "severe", "mild", "moderate", "sudden", "gradual", "days", "weeks", "months",
    "pain", "burning", "itching", "discharge", "swelling", "redness",
    "vision", "blurry", "clear", "double", "loss", "improvement",
    "medication", "surgery", "injury", "trauma", "family history"]

  const VagueMarkers: seq<string> := ["other", "maybe", "not sure", "don't know", "unclear"]

  /** `history[-2:]`. */
  function LastTwo(h: seq<Entry>): (r: seq<Entry>)
    ensures |r| <= 2
  {
    if |h| <= 2 then h else h[|h| - 2..]
  }

  /** The non-empty answers of the entries, in order. */
  function NonEmptyAnswers(h: seq<Entry>): (r: seq<string>)
    ensures forall i | 0 <= i < |r| :: r[i] != ""
  {
    if h == [] then []
    else IfAnswered(h[0].answer) + NonEmptyAnswers(h[1..])
  }

  /** The new answer, then the non-empty answers among the last two history entries. */
  function RecentAnswers(h: seq<Entry>, newAnswer: string): seq<string> {
    [newAnswer] + NonEmptyAnswers(LastTwo(h))
  }

  /** What one answer contributes: +0.02 beyond three words, +0.01 per indicator, -0.01 per vague marker. */
  function AnswerPoints(answer: string): real {
    PointsFor(answer, QualityIndicators, VagueMarkers)
  }

  /** `AnswerPoints` with the two keyword lists as parameters. */
  function PointsFor(answer: string, indicators: seq<string>, vague: seq<string>): real {
    if answer == "" then 0.0
    else
      var lowered := Lower(answer);
      (if WordCount(answer) > 3 then 0.02 else 0.0)
      + 0.01 * (Hits(indicators, lowered) as real)
      - 0.01 * (Hits(vague, lowered) as real)
  }

  function QualityPoints(answers: seq<string>): real {
    if answers == [] then 0.0
    else QualityPoints(answers[..|answers| - 1]) + AnswerPoints(answers[|answers| - 1])
  }

  /** The quality boost before scaling: the points of the recent answers, clamped to [0, 0.1]. */
  function InformationQuality(h: seq<Entry>, newAnswer: string): (q: real)
    ensures 0.0 <= q <= 0.1
  {
    Max(0.0, Min(0.1, QualityPoints(RecentAnswers(h, newAnswer))))
  }

  /** The scoring loop over the recent answers. */
  method AssessInformationQuality(h: seq<Entry>, newAnswer: string) returns (q: real)
    ensures q == InformationQuality(h, newAnswer)
  {
    var answers := RecentAnswers(h, newAnswer);
    var score := 0.0;
    var i := 0;
    while i < |answers|
      invariant 0 <= i <= |answers|
      invariant score == QualityPoints(answers[..i])
    {
      var points := ScoreAnswer(answers[i], QualityIndicators, VagueMarkers);
      assert QualityPoints(answers[..i + 1]) == score + points by {
        assert answers[..i + 1][..i] == answers[..i];
      }
      score := score + points;
      i := i + 1;
    }
    assert answers[..i] == answers;
    q := Max(0.0, Min(0.1, score));
  }

  /** The body of the scoring loop for one answer: word count, then both keyword scans. */
  method ScoreAnswer(answer: string, indicators: seq<string>, vague: seq<string>) returns (points: real)
    ensures points == PointsFor(answer, indicators, vague)
  {
    if answer == "" {
      return 0.0;
    }
    var lowered := Lower(answer);
    points := if WordCount(answer) > 3 then 0.02 else 0.0;
    points := AddPerHit(points, 0.01, indicators, lowered);
    points := AddPerHit(points, -0.01, vague, lowered);
  }

  lemma QualityPointsAppend(answers: seq<string>, a: string)
    ensures QualityPoints(answers + [a]) == QualityPoints(answers) + AnswerPoints(a)
  {
    assert (answers + [a])[..|answers|] == answers;
  }

  /**
   * Once the new answer has been written into the last history entry, as the
   * session manager does before rescoring, that answer is scored twice: once
   * as the new answer and once as the last entry's answer.
   */
  lemma NewestAnswerCountedTwice(h: seq<Entry>, answer: string)
    requires h != []
    ensures QualityPoints(RecentAnswers(WriteAnswer(h, answer), answer))
         == 2.0 * AnswerPoints(answer) + (if |h| >= 2 then AnswerPoints(h[|h| - 2].answer) else 0.0)
  {
    var front := if |h| >= 2 then [answer] + IfAnswered(h[|h| - 2].answer) else [answer];
    assert RecentAnswers(WriteAnswer(h, answer), answer) == front + IfAnswered(answer) by {
      RecentAfterWrite(h, answer);
    }
    assert QualityPoints([answer]) == AnswerPoints(answer) by {
      QualityPointsAppend([], answer);
    }
    if |h| >= 2 {
      QualityPointsIfAnswered([answer], h[|h| - 2].answer);
    }
    QualityPointsIfAnswered(front, answer);
  }

  /** `[s]` for a non-empty answer, nothing for an empty one. */
  function IfAnswered(s: string): seq<string> {
    if s != "" then [s] else []
  }

  /** An empty answer scores nothing, so skipping it changes no sum. */
  lemma QualityPointsIfAnswered(answers: seq<string>, s: string)
    ensures QualityPoints(answers + IfAnswered(s)) == QualityPoints(answers) + AnswerPoints(s)
  {
    if s != "" {
      QualityPointsAppend(answers, s);
    } else {
      assert answers + IfAnswered(s) == answers;
    }
  }

  /** The recent answers once `answer` is written into the last entry. */
  lemma RecentAfterWrite(h: seq<Entry>, answer: string)
    requires h != []
    ensures RecentAnswers(WriteAnswer(h, answer), answer)
         == (if |h| >= 2 then [answer] + IfAnswered(h[|h| - 2].answer) else [answer]) + IfAnswered(answer)
  {
    var w := WriteAnswer(h, answer);
    var last := Entry(h[|h| - 1].question, answer);
    assert NonEmptyAnswers([last]) == IfAnswered(answer) by {
      assert [last][1..] == [];
    }
    if |h| >= 2 {
      var prev := h[|h| - 2];
      assert LastTwo(w) == [prev, last] by {
        assert w[|h| - 2] == prev;
      }
      assert NonEmptyAnswers([prev, last]) == IfAnswered(prev.answer) + IfAnswered(answer) by {
        assert [prev, last][1..] == [last];
      }
    } else {
      assert LastTwo(w) == [last];
    }
  }

  /** Keyword hits can only grow when every keyword found in one text is found in the other. */
  lemma {:induction false} HitsMonotone(keywords: seq<string>, t1: string, t2: string)
    requires forall i | 0 <= i < |keywords| :: Contains(t1, keywords[i]) ==> Contains(t2, keywords[i])
    ensures Hits(keywords, t1) <= Hits(keywords, t2)
  {
    if keywords != [] {
      HitsMonotone(keywords[..|keywords| - 1], t1, t2);
    }
  }

  /** Raw scores can only grow when `outer` contains `inner`. */
  lemma RawScoreContained(keywords: seq<string>, inner: string, outer: string)
    requires Contains(outer, inner)
    ensures RawScore(keywords, inner) <= RawScore(keywords, outer)
  {
    forall i | 0 <= i < |keywords| && Contains(inner, keywords[i])
      ensures Contains(outer, keywords[i])
    {
      ContainsTransitive(outer, inner, keywords[i]);
    }
    HitsMonotone(keywords, inner, outer);
  }

  // ---------------------------------------------------------------------------
  // Initial score and update after an answer
  // ---------------------------------------------------------------------------

  const InitialFallback := ConfidenceScore(0.3, FallbackDoctors, "Default initial confidence distribution")

  const UpdateFallback := ConfidenceScore(0.5, FallbackDoctors, "Fallback confidence after processing answer")

  /** The text the keyword analysis reads after an answer. */
  function UpdateContext(condition: string, h: seq<Entry>, newAnswer: string): (r: string)
    ensures StartsWith(r, "Initial condition: " + condition)
    ensures newAnswer != "" ==> EndsWith(r, newAnswer + "\n")
  {
    ConditionLine(condition) + HistorySection(h) + LatestAnswerLine(newAnswer)
  }

  function ConditionLine(condition: string): string {
    "Initial condition: " + condition + "\n\n"
  }

  function HistorySection(h: seq<Entry>): string {
    if h != [] then "Conversation:\n" + Transcript(h) else ""
  }

  function LatestAnswerLine(newAnswer: string): string {
    if newAnswer != "" then "Latest answer: " + newAnswer + "\n" else ""
  }

  /** Lower-cased, a text contains the lower-cased middle part of any split of it. */
  lemma LowerContainsMiddle(a: string, b: string, c: string)
    ensures Contains(Lower(a + b + c), Lower(b))
  {
    LowerConcat(a + b, c);
    LowerConcat(a, b);
    ContainsMiddle(Lower(a), Lower(b), Lower(c));
  }

  /** The keyword analysis after an answer counts every keyword of the initial condition. */
  lemma UpdateContextSeesCondition(condition: string, h: seq<Entry>, newAnswer: string, i: nat)
    requires i < 4
    ensures RawScore(DoctorKeywords[i].1, Lower(condition)) <= KeywordRaw(UpdateContext(condition, h, newAnswer))[i].1
  {
    var ctx := UpdateContext(condition, h, newAnswer);
    assert Contains(Lower(ctx), Lower(condition)) by {
      var line := ConditionLine(condition);
      var rest := HistorySection(h) + LatestAnswerLine(newAnswer);
      LowerContainsMiddle("Initial condition: ", condition, "\n\n");
      ConcatAssoc(line, HistorySection(h), LatestAnswerLine(newAnswer));
      LowerConcat(line, rest);
      ContainsLeft(Lower(line), Lower(rest));
      ContainsTransitive(Lower(ctx), Lower(line), Lower(condition));
    }
    KeywordRawContained(condition, ctx, i);
  }

  /** The keyword analysis after an answer counts every keyword of the latest answer. */
  lemma UpdateContextSeesAnswer(condition: string, h: seq<Entry>, newAnswer: string, i: nat)
    requires i < 4 && newAnswer != ""
    ensures RawScore(DoctorKeywords[i].1, Lower(newAnswer)) <= KeywordRaw(UpdateContext(condition, h, newAnswer))[i].1
  {
    var ctx := UpdateContext(condition, h, newAnswer);
    assert Contains(Lower(ctx), Lower(newAnswer)) by {
      var line := LatestAnswerLine(newAnswer);
      var front := ConditionLine(condition) + HistorySection(h);
      LowerContainsMiddle("Latest answer: ", newAnswer, "\n");
      assert ctx == front + line;
      LowerConcat(front, line);
      ContainsRight(Lower(front), Lower(line));
      ContainsTransitive(Lower(ctx), Lower(line), Lower(newAnswer));
    }
    KeywordRawContained(newAnswer, ctx, i);
  }

  /** A text containing another, lower-cased, scores at least as high for every specialist. */
  lemma KeywordRawContained(inner: string, outer: string, i: nat)
    requires i < 4 && Contains(Lower(outer), Lower(inner))
    ensures RawScore(DoctorKeywords[i].1, Lower(inner)) <= KeywordRaw(outer)[i].1
  {
    RawScoreContained(DoctorKeywords[i].1, Lower(inner), Lower(outer));
  }

  /** The blend's weights: keyword weight and the rest, already summing to 1. */
  lemma UpdateWeights(exchanges: nat)
    ensures NormalizeWeights(KeywordWeight(exchanges), 1.0 - KeywordWeight(exchanges))
         == (KeywordWeight(exchanges), 1.0 - KeywordWeight(exchanges))
  {
  }

  /**
   * What the blends rely on about the keyword score: `overall` in [0, 1],
   * a weight for every specialist, weights summing to 1.
   */
  predicate KeywordShaped(k: ConfidenceScore) {
    InUnitRange(k.overall) && Covers(k.doctors) && Total(k.doctors) == 1.0
  }

  lemma KeywordScoreShaped(text: string)
    ensures KeywordShaped(KeywordScore(text))
  {
    var raw := KeywordRaw(text);
    assert KeywordShaped(ScoreOf(raw)) by {
      ScoreShape(raw);
    }
  }

  /** A keyword score `k` and an oracle score `l` blended with the weights for `exchanges` exchanges. */
  function BlendScores(k: ConfidenceScore, l: ConfidenceScore, exchanges: nat): Option<ConfidenceScore> {
    var w := KeywordWeight(exchanges);
    Combine(k, l, w, 1.0 - w)
  }

  /** The two capped boosts, applied one after the other to `overall`. */
  function Boost(c: ConfidenceScore, exchanges: nat, quality: real): ConfidenceScore {
    var boosted := Min(0.7, c.overall + LengthBoost(exchanges));
    c.(overall := Min(0.7, boosted + quality * 0.6))
  }

  /** The boosted blend, or the fixed fallback when there is no blend. */
  function Rescore(blend: Option<ConfidenceScore>, exchanges: nat, quality: real): ConfidenceScore {
    match blend
    case None => UpdateFallback
    case Some(c) => Boost(c, exchanges, quality)
  }

  /** The score after an answer, from the keyword score `k` and the oracle score `l`. */
  function Rescored(k: ConfidenceScore, l: ConfidenceScore, h: seq<Entry>, newAnswer: string): ConfidenceScore {
    Rescore(BlendScores(k, l, |h|), |h|, InformationQuality(h, newAnswer))
  }

  /** The score after an answer, as the calculator defines it. */
  function UpdatedConfidence(condition: string, h: seq<Entry>, newAnswer: string, reply: Reply<ConfidenceFields>): ConfidenceScore {
    Rescored(KeywordScore(UpdateContext(condition, h, newAnswer)), LlmScore(reply), h, newAnswer)
  }

  /** Rescoring after an answer: keyword analysis of the context, the oracle's score, then the blend and boosts. */
  method UpdateConfidence(condition: string, h: seq<Entry>, newAnswer: string, reply: Reply<ConfidenceFields>)
    returns (c: ConfidenceScore)
    ensures c == UpdatedConfidence(condition, h, newAnswer, reply)
  {
    var context := UpdateContext(condition, h, newAnswer);
    var keywordScore := AnalyzeKeywords(context);
    var llmScore := LlmScore(reply);
    c := BlendAndBoost(keywordScore, llmScore, h, newAnswer);
  }

  /** The blend, then two capped boosts each written over `overall` in turn. */
  method BlendAndBoost(keywordScore: ConfidenceScore, llmScore: ConfidenceScore, h: seq<Entry>, newAnswer: string)
    returns (c: ConfidenceScore)
    ensures c == Rescored(keywordScore, llmScore, h, newAnswer)
  {
    var exchanges := |h|;
    var keywordWeight := KeywordWeight(exchanges);
    var combined := Combine(keywordScore, llmScore, keywordWeight, 1.0 - keywordWeight);
    if combined.None? {
      return UpdateFallback;
    }
    c := combined.value;
    c := c.(overall := Min(0.7, c.overall + LengthBoost(exchanges)));
    var quality := AssessInformationQuality(h, newAnswer);
    c := c.(overall := Min(0.7, c.overall + quality * 0.6));
  }

  /** With a non-negative quality, the two caps collapse into one. */
  lemma BoostCaps(c: ConfidenceScore, exchanges: nat, quality: real)
    requires 0.0 <= c.overall && 0.0 <= quality
    ensures Boost(c, exchanges, quality).overall == Min(0.7, c.overall + LengthBoost(exchanges) + quality * 0.6)
    ensures 0.0 <= Boost(c, exchanges, quality).overall <= 0.7
    ensures Boost(c, exchanges, quality).doctors == c.doctors
  {
  }

  /**
   * Blending a well-formed keyword score with an oracle score whose
   * `overall` is in [0, 1] always succeeds: `overall` lies between the two
   * inputs', every specialist has a weight, and the weights sum to 1
   * whenever the oracle's do.
   */
  lemma BlendScoresShape(k: ConfidenceScore, l: ConfidenceScore, exchanges: nat)
    requires KeywordShaped(k) && InUnitRange(l.overall)
    ensures BlendScores(k, l, exchanges).Some?
    ensures var b := BlendScores(k, l, exchanges).value;
            ((k.overall <= b.overall <= l.overall) || (l.overall <= b.overall <= k.overall))
            && Covers(b.doctors)
            && (Total(l.doctors) == 1.0 ==> Total(b.doctors) == 1.0)
  {
    var w := KeywordWeight(exchanges);
    CombineDefined(k, l, w, 1.0 - w);
    CombineCovers(k, l, w, 1.0 - w);
    if Total(l.doctors) == 1.0 {
      CombineTotal(k, l, w, 1.0 - w);
    }
  }

  /**
   * After an answer the blend always succeeds, so the fallback is never
   * taken: `overall` is the blended `overall` plus both boosts, capped once
   * at 0.7, hence in [0, 0.7]; the weights are the blend's, cover every
   * specialist, and sum to 1 whenever the oracle's do.
   */
  lemma RescoredShape(k: ConfidenceScore, l: ConfidenceScore, h: seq<Entry>, newAnswer: string)
    requires KeywordShaped(k) && InUnitRange(l.overall)
    ensures BlendScores(k, l, |h|).Some?
    ensures var b := BlendScores(k, l, |h|).value;
            var c := Rescored(k, l, h, newAnswer);
            c.overall == Min(0.7, b.overall + LengthBoost(|h|) + InformationQuality(h, newAnswer) * 0.6)
            && 0.0 <= c.overall <= 0.7
            && c.doctors == b.doctors
            && Covers(c.doctors)
            && (Total(l.doctors) == 1.0 ==> Total(c.doctors) == 1.0)
  {
    BlendScoresShape(k, l, |h|);
    BoostCaps(BlendScores(k, l, |h|).value, |h|, InformationQuality(h, newAnswer));
  }

  /**
   * The score after an answer never exceeds 0.7 and always has a weight for
   * every specialist.
   */
  lemma UpdatedConfidenceShape(condition: string, h: seq<Entry>, newAnswer: string, reply: Reply<ConfidenceFields>)
    ensures 0.0 <= UpdatedConfidence(condition, h, newAnswer, reply).overall <= 0.7
    ensures Covers(UpdatedConfidence(condition, h, newAnswer, reply).doctors)
  {
    var k := KeywordScore(UpdateContext(condition, h, newAnswer));
    KeywordScoreShaped(UpdateContext(condition, h, newAnswer));
    RescoredShape(k, LlmScore(reply), h, newAnswer);
  }

  /** The score of a new session, from the keyword score `k` and the oracle score `l`. */
  function Initial(k: ConfidenceScore, l: ConfidenceScore): ConfidenceScore {
    match Combine(k, l, 0.3, 0.7)
    case None => InitialFallback
    case Some(c) => c
  }

  /** The score of a new session, as the calculator defines it. */
  function InitialConfidence(condition: string, reply: Reply<ConfidenceFields>): ConfidenceScore {
    Initial(KeywordScore(condition), LlmScore(reply))
  }

  method CalculateInitialConfidence(condition: string, reply: Reply<ConfidenceFields>) returns (c: ConfidenceScore)
    ensures c == InitialConfidence(condition, reply)
  {
    var keywordScore := AnalyzeKeywords(condition);
    var llmScore := LlmScore(reply);
    c := CombineInitial(keywordScore, llmScore);
  }

  /** The 0.3/0.7 blend, or the fixed fallback. */
  method CombineInitial(keywordScore: ConfidenceScore, llmScore: ConfidenceScore) returns (c: ConfidenceScore)
    ensures c == Initial(keywordScore, llmScore)
  {
    var combined := Combine(keywordScore, llmScore, 0.3, 0.7);
    if combined.None? {
      return InitialFallback;
    }
    c := combined.value;
  }

  /**
   * A new session's score is the 0.3/0.7 blend of keyword and oracle scores,
   * which always succeeds: `overall` is that mix of the two inputs'
   * `overall`s and lies in [0, 1], every specialist has a weight, and the
   * weights sum to 1 whenever the oracle's do.
   */
  lemma InitialShape(k: ConfidenceScore, l: ConfidenceScore)
    requires KeywordShaped(k) && InUnitRange(l.overall)
    ensures Combine(k, l, 0.3, 0.7).Some?
    ensures var c := Initial(k, l);
            c.doctors == BlendedDoctors(k.doctors, l.doctors, 0.3, 0.7)
            && c.overall == Mix(k.overall, l.overall, 0.3, 0.7)
            && InUnitRange(c.overall)
            && Covers(c.doctors)
            && (Total(l.doctors) == 1.0 ==> Total(c.doctors) == 1.0)
  {
    assert NormalizeWeights(0.3, 0.7) == (0.3, 0.7);
    CombineDefined(k, l, 0.3, 0.7);
    CombineCovers(k, l, 0.3, 0.7);
    if Total(l.doctors) == 1.0 {
      CombineTotal(k, l, 0.3, 0.7);
    }
  }

  /** A new session's score has `overall` in [0, 1] and a weight for every specialist. */
  lemma InitialConfidenceShape(condition: string, reply: Reply<ConfidenceFields>)
    ensures InUnitRange(InitialConfidence(condition, reply).overall)
    ensures Covers(InitialConfidence(condition, reply).doctors)
  {
    KeywordScoreShaped(condition);
    InitialShape(KeywordScore(condition), LlmScore(reply));
  }
}
