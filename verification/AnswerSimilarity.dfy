/** How alike two agents' answers are: set overlap and the cosine of their word counts. */
module AnswerSimilarity {

  // ---------------------------------------------------------------- overlap of two sets

  /** What the extraction step finds in one answer. */
  datatype Answer = Answer(
    agentId: string, score: real,
    keyTerms: seq<string>, numbers: seq<string>, codeBlocks: seq<string>, words: seq<string>)

  function Elements(xs: seq<string>): set<string> {
    set x | x in xs
  }

  function Jaccard(a: set<string>, b: set<string>): real {
    if a + b == {} then 0.0 else |a * b| as real / |a + b| as real
  }

  function Dice(a: set<string>, b: set<string>): real {
    if a + b == {} then 1.0 else 2.0 * |a * b| as real / (|a| + |b|) as real
  }

  lemma OneMore(a: set<string>, rest: set<string>, b: set<string>, w: string)
    requires w in rest && rest <= a
    ensures |(a - (rest - {w})) * b| == |(a - rest) * b| + if w in b then 1 else 0
  {
    var seen := (a - rest) * b;
    assert (a - (rest - {w})) * b == if w in b then seen + {w} else seen;
  }

  /** Count the elements of `a` that are in `b`, one by one. */
  method CountCommon(a: set<string>, b: set<string>) returns (n: nat)
    ensures n == |a * b|
  {
    n := 0;
    var rest := a;
    while rest != {}
      invariant rest <= a
      invariant n == |(a - rest) * b|
      decreases |rest|
    {
      var w :| w in rest;
      OneMore(a, rest, b, w);
      if w in b {
        n := n + 1;
      }
      rest := rest - {w};
    }
    assert (a - rest) * b == a * b;
  }

  /** `jaccard`, with the union counted as |a| + |b| - |a * b|. */
  method ComputeJaccard(a: seq<string>, b: seq<string>) returns (r: real)
    ensures r == Jaccard(Elements(a), Elements(b))
  {
    var setA, setB := Elements(a), Elements(b);
    var intersection := CountCommon(setA, setB);
    var union_ := |setA| + |setB| - intersection;
    assert union_ == |setA + setB|;
    r := if union_ == 0 then 0.0 else intersection as real / union_ as real;
  }

  method ComputeDice(a: seq<string>, b: seq<string>) returns (r: real)
    ensures r == Dice(Elements(a), Elements(b))
  {
    var setA, setB := Elements(a), Elements(b);
    var overlap := CountCommon(setA, setB);
    assert |setA + setB| == |setA| + |setB| - overlap;
    r := if |setA| + |setB| > 0 then (2 * overlap) as real / (|setA| + |setB|) as real else 1.0;
  }

  /** The two overlaps of two sets of two with one common element, and of empty sets. */
  lemma OverlapExample(x: string, y: string, z: string)
    requires x != y && y != z && x != z
    ensures Jaccard({x, y}, {y, z}) == 1.0 / 3.0 && Dice({x, y}, {y, z}) == 1.0 / 2.0
    ensures Jaccard({}, {}) == 0.0 && Dice({}, {}) == 1.0
  {
    assert {x, y} * {y, z} == {y} && {x, y} + {y, z} == {x, y, z};
  }

  lemma SubsetSize(a: set<string>, b: set<string>)
    requires a <= b
    ensures |a| <= |b|
  {
    assert b == a + (b - a);
  }

  lemma OverlapBounds(a: set<string>, b: set<string>)
    ensures 0.0 <= Jaccard(a, b) <= 1.0 && Jaccard(a, b) == Jaccard(b, a)
    ensures 0.0 <= Dice(a, b) <= 1.0 && Dice(a, b) == Dice(b, a)
  {
    assert a + b == b + a && a * b == b * a;
    SubsetSize(a * b, a);
    SubsetSize(a * b, b);
    SubsetSize(a * b, a + b);
    if a + b != {} {
      var x :| x in a + b;
      SubsetSize({x}, a + b);
      SubsetSize(a + b, a + b);
      assert |a + b| <= |a| + |b|;
      RatioBounds(|a * b|, |a + b|);
      RatioBounds(2 * |a * b|, |a| + |b|);
    }
  }

  lemma RatioBounds(n: nat, d: nat)
    requires n <= d && d > 0
    ensures 0.0 <= n as real / d as real <= 1.0
  {
  }

  // ---------------------------------------------------------------- cosine of two word-frequency tables

  function Frequency(words: seq<string>): map<string, nat> {
    map w | w in words :: multiset(words)[w]
  }

  /** Each word of the text, and no other, with the number of its occurrences. */
  predicate CountsWords(f: map<string, nat>, words: seq<string>) {
    (forall w :: w in words ==> w in f && f[w] == multiset(words)[w]) && forall w :: w in f ==> w in words
  }

  lemma FrequencyCounts(words: seq<string>)
    ensures CountsWords(Frequency(words), words)
  {
  }

  /** Count words into a table, as the `forEach` does. */
  method ComputeFrequency(words: seq<string>) returns (f: map<string, nat>)
    ensures f == Frequency(words)
    ensures CountsWords(f, words)
  {
    hide CountsWords;
    f := map[];
    for i := 0 to |words|
      invariant f == Frequency(words[..i])
    {
      var w := words[i];
      assert words[..i + 1] == words[..i] + [w];
      f := f[w := (if w in f then f[w] else 0) + 1];
    }
    assert words[..|words|] == words;
    FrequencyCounts(words);
  }

  function At(f: map<string, nat>, w: string): nat {
    if w in f then f[w] else 0
  }

  /** Sum over `ws` of the products of two frequencies. */
  function Dot(f: map<string, nat>, g: map<string, nat>, ws: seq<string>): nat {
    if ws == [] then 0 else Dot(f, g, ws[..|ws| - 1]) + At(f, ws[|ws| - 1]) * At(g, ws[|ws| - 1])
  }

  /** A sum of squares is not negative: the quadratic form behind Cauchy-Schwarz. */
  lemma {:induction false} QuadraticForm(f: map<string, nat>, g: map<string, nat>, ws: seq<string>, s: int, t: int)
    ensures s * s * Dot(f, f, ws) - 2 * s * t * Dot(f, g, ws) + t * t * Dot(g, g, ws) >= 0
  {
    if ws != [] {
      var front := ws[..|ws| - 1];
      var x, y := At(f, ws[|ws| - 1]), At(g, ws[|ws| - 1]);
      QuadraticForm(f, g, front, s, t);
      SquareOfDifference(s * x, t * y);
      Distribute(s, t, Dot(f, f, front), Dot(f, g, front), Dot(g, g, front), x, y);
    }
  }

  lemma SquareOfDifference(a: int, b: int)
    ensures a * a - 2 * a * b + b * b == (a - b) * (a - b) >= 0
  {
  }

  lemma Distribute(s: int, t: int, a: int, d: int, b: int, x: int, y: int)
    ensures s * s * (a + x * x) - 2 * s * t * (d + x * y) + t * t * (b + y * y)
            == (s * s * a - 2 * s * t * d + t * t * b) + ((s * x) * (s * x) - 2 * (s * x) * (t * y) + (t * y) * (t * y))
  {
  }

  lemma {:induction false} ZeroNorm(f: map<string, nat>, g: map<string, nat>, ws: seq<string>)
    requires Dot(f, f, ws) == 0
    ensures Dot(f, g, ws) == 0
  {
    if ws != [] {
      var x := At(f, ws[|ws| - 1]);
      assert x * x == 0 ==> x == 0;
      ZeroNorm(f, g, ws[..|ws| - 1]);
    }
  }

  /** Cauchy-Schwarz over any word list. */
  lemma CauchySchwarz(f: map<string, nat>, g: map<string, nat>, ws: seq<string>)
    ensures Dot(f, g, ws) * Dot(f, g, ws) <= Dot(f, f, ws) * Dot(g, g, ws)
  {
    var a, d, b := Dot(f, f, ws), Dot(f, g, ws), Dot(g, g, ws);
    if a == 0 {
      ZeroNorm(f, g, ws);
    } else {
      QuadraticForm(f, g, ws, d, a);
      Discriminant(a, d, b);
    }
  }

  lemma Discriminant(a: int, d: int, b: int)
    requires a > 0 && d * d * a - 2 * d * a * d + a * a * b >= 0
    ensures d * d <= a * b
  {
    assert d * d * a - 2 * d * a * d + a * a * b == a * (a * b - d * d);
    PositiveFactor(a, a * b - d * d);
  }

  lemma PositiveFactor(a: int, e: int)
    requires a > 0 && a * e >= 0
    ensures e >= 0
  {
  }

  lemma {:induction false} DotSymmetric(f: map<string, nat>, g: map<string, nat>, ws: seq<string>)
    ensures Dot(f, g, ws) == Dot(g, f, ws)
  {
    if ws != [] {
      DotSymmetric(f, g, ws[..|ws| - 1]);
    }
  }

  predicate Distinct(ws: seq<string>) {
    forall i, j :: 0 <= i < j < |ws| ==> ws[i] != ws[j]
  }

  lemma {:induction false} DotWithout(f: map<string, nat>, g: map<string, nat>, ws: seq<string>, k: nat)
    requires k < |ws|
    ensures Dot(f, g, ws) == Dot(f, g, ws[..k] + ws[k + 1..]) + At(f, ws[k]) * At(g, ws[k])
  {
    hide At;
    var front := ws[..|ws| - 1];
    var short := ws[..k] + ws[k + 1..];
    if k < |front| {
      DotWithout(f, g, front, k);
      assert short[..|short| - 1] == front[..k] + front[k + 1..];
      assert short[|short| - 1] == ws[|ws| - 1];
    } else {
      assert short == front;
    }
  }

  ghost predicate SameElements(ws: seq<string>, vs: seq<string>) {
    forall x :: x in ws <==> x in vs
  }

  lemma RemovedElement(ws: seq<string>, vs: seq<string>, k: nat)
    requires Distinct(ws) && Distinct(vs) && SameElements(ws, vs) && ws != []
    requires k < |vs| && vs[k] == ws[|ws| - 1]
    ensures var front, rest := ws[..|ws| - 1], vs[..k] + vs[k + 1..];
            Distinct(front) && Distinct(rest) && SameElements(front, rest)
  {
    var front, rest := ws[..|ws| - 1], vs[..k] + vs[k + 1..];
    forall x | x in front ensures x in rest {
      assert x in ws;
      assert x in vs;
      var i :| 0 <= i < |vs| && vs[i] == x;
      assert rest[if i < k then i else i - 1] == x;
    }
    forall x | x in rest ensures x in front {
      var m :| 0 <= m < |rest| && rest[m] == x;
      assert vs[if m < k then m else m + 1] == x;
      assert x in vs;
      assert x in ws;
      var i :| 0 <= i < |ws| && ws[i] == x;
      assert front[i] == x;
    }
  }

  lemma FirstIsElement(vs: seq<string>)
    ensures vs == [] || vs[0] in vs
  {
  }

  lemma NoElements(vs: seq<string>)
    requires SameElements([], vs)
    ensures vs == []
  {
    FirstIsElement(vs);
  }

  /** The sum does not depend on the order in which the words come. */
  lemma {:induction false} DotIgnoresOrder(f: map<string, nat>, g: map<string, nat>, ws: seq<string>, vs: seq<string>)
    requires Distinct(ws) && Distinct(vs) && SameElements(ws, vs)
    ensures Dot(f, g, ws) == Dot(f, g, vs)
  {
    hide Distinct;
    if ws == [] {
      NoElements(vs);
    } else {
      var w := ws[|ws| - 1];
      assert w in ws;
      assert w in vs;
      var k :| 0 <= k < |vs| && vs[k] == w;
      RemovedElement(ws, vs, k);
      DotWithout(f, g, vs, k);
      DotIgnoresOrder(f, g, ws[..|ws| - 1], vs[..k] + vs[k + 1..]);
    }
  }

  /** `new Set(...)`: each word once. */
  function Once(ws: seq<string>): (u: seq<string>)
    ensures Distinct(u)
    ensures SameElements(u, ws)
  {
    if ws == [] then []
    else
      var u := Once(ws[..|ws| - 1]);
      assert ws == ws[..|ws| - 1] + [ws[|ws| - 1]];
      if ws[|ws| - 1] in u then u else u + [ws[|ws| - 1]]
  }

  /** The words of both tables, each once. */
  function Union(a: seq<string>, b: seq<string>): seq<string> {
    Once(a + b)
  }

  lemma UnionMembers(a: seq<string>, b: seq<string>)
    ensures Distinct(Union(a, b)) && Distinct(Union(b, a))
    ensures SameElements(Union(a, b), Union(b, a))
    ensures forall x :: x in Union(a, b) <==> x in a || x in b
  {
    hide Once;
    assert forall x :: x in a + b <==> x in b + a;
  }

  // ---------------------------------------------------------------- the word that every table inherits

  /**
   * The tables are plain objects, so this word finds an inherited function instead of a missing entry,
   * and every sum it enters is no longer a number.
   */
  const INHERITED := "constructor"

  datatype Number = NaN | Num(n: nat)

  function Plus(a: Number, b: Number): Number {
    if a.NaN? || b.NaN? then NaN else Num(a.n + b.n)
  }

  function Times(a: Number, b: Number): Number {
    if a.NaN? || b.NaN? then NaN else Num(a.n * b.n)
  }

  predicate IsPositive(a: Number) {
    a.Num? && a.n > 0
  }

  /** `fA[w] ?? 0` */
  function Read(f: map<string, nat>, w: string): Number {
    if w == INHERITED then NaN else Num(At(f, w))
  }

  function Total(f: map<string, nat>, g: map<string, nat>, ws: seq<string>): Number {
    if INHERITED in ws then NaN else Num(Dot(f, g, ws))
  }

  lemma TotalSnoc(f: map<string, nat>, g: map<string, nat>, ws: seq<string>, i: nat)
    requires i < |ws|
    ensures Total(f, g, ws[..i + 1]) == Plus(Total(f, g, ws[..i]), Times(Read(f, ws[i]), Read(g, ws[i])))
  {
    assert ws[..i + 1] == ws[..i] + [ws[i]];
    assert ws[..i + 1][..i] == ws[..i];
  }

  /** The three running sums of the cosine. */
  method ComputeDots(f: map<string, nat>, g: map<string, nat>, all: seq<string>)
    returns (dot: Number, na: Number, nb: Number)
    ensures dot == Total(f, g, all) && na == Total(f, f, all) && nb == Total(g, g, all)
  {
    hide Total;
    dot, na, nb := Num(0), Num(0), Num(0);
    EmptyTotal(f, g);
    for i := 0 to |all|
      invariant dot == Total(f, g, all[..i]) && na == Total(f, f, all[..i]) && nb == Total(g, g, all[..i])
    {
      var fa, fb := Read(f, all[i]), Read(g, all[i]);
      TotalSnoc(f, g, all, i);
      TotalSnoc(f, f, all, i);
      TotalSnoc(g, g, all, i);
      dot := Plus(dot, Times(fa, fb));
      na := Plus(na, Times(fa, fa));
      nb := Plus(nb, Times(fb, fb));
    }
    assert all[..|all|] == all;
  }

  lemma EmptyTotal(f: map<string, nat>, g: map<string, nat>)
    ensures Total(f, g, []) == Total(f, f, []) == Total(g, g, []) == Num(0)
  {
  }

  /** `Math.sqrt`, as an exact square root. */
  ghost predicate IsSqrt(sqrt: nat -> real) {
    forall n: nat :: sqrt(n) >= 0.0 && sqrt(n) * sqrt(n) == n as real
  }

  /** The quotient, or 0 unless both norms are positive numbers; the last guard holds for every exact root. */
  function Cosine(sqrt: nat -> real, dot: Number, na: Number, nb: Number): real {
    if IsPositive(na) && IsPositive(nb) && dot.Num? && sqrt(na.n) * sqrt(nb.n) != 0.0
    then dot.n as real / (sqrt(na.n) * sqrt(nb.n))
    else 0.0
  }

  lemma RootIsPositive(sqrt: nat -> real, n: nat)
    requires IsSqrt(sqrt) && n > 0
    ensures sqrt(n) > 0.0
  {
    assert sqrt(n) == 0.0 ==> sqrt(n) * sqrt(n) == 0.0;
  }

  lemma SquareRootIsMonotone(x: real, y: real)
    requires x >= 0.0 && y >= 0.0 && x * x <= y * y
    ensures x <= y
  {
    assert x * x - y * y == (x - y) * (x + y);
    if x > y {
      PositiveProduct(x - y, x + y);
    }
  }

  lemma PositiveProduct(x: real, y: real)
    requires x > 0.0 && y > 0.0
    ensures x * y > 0.0
  {
  }

  /** The product of the two roots is positive and its square is the product of the norms. */
  lemma RootProduct(sqrt: nat -> real, na: nat, nb: nat)
    requires IsSqrt(sqrt) && na > 0 && nb > 0
    ensures var p := sqrt(na) * sqrt(nb); p > 0.0 && p * p == (na * nb) as real && p == sqrt(nb) * sqrt(na)
  {
    RootIsPositive(sqrt, na);
    RootIsPositive(sqrt, nb);
    PositiveProduct(sqrt(na), sqrt(nb));
    var x, y := sqrt(na), sqrt(nb);
    assert (x * y) * (x * y) == (x * x) * (y * y);
    assert na as real * nb as real == (na * nb) as real;
  }

  lemma CosineBounds(sqrt: nat -> real, dot: nat, na: nat, nb: nat)
    requires IsSqrt(sqrt) && dot * dot <= na * nb
    ensures var c := Cosine(sqrt, Num(dot), Num(na), Num(nb));
            && 0.0 <= c <= 1.0
            && c == Cosine(sqrt, Num(dot), Num(nb), Num(na))
            && (na > 0 && nb > 0 ==> c * (sqrt(na) * sqrt(nb)) == dot as real)
  {
    hide IsSqrt;
    if na > 0 && nb > 0 {
      RootProduct(sqrt, na, nb);
      var p := sqrt(na) * sqrt(nb);
      assert dot as real * dot as real == (dot * dot) as real;
      SquareRootIsMonotone(dot as real, p);
      QuotientBounds(dot as real, p);
    }
  }

  lemma QuotientBounds(x: real, p: real)
    requires 0.0 <= x <= p && p > 0.0
    ensures 0.0 <= x / p <= 1.0 && x / p * p == x
  {
  }

  // ---------------------------------------------------------------- similarity of two answers

  function WordCosine(sqrt: nat -> real, a: seq<string>, b: seq<string>): real {
    var f, g, all := Frequency(a), Frequency(b), Union(a, b);
    Cosine(sqrt, Total(f, g, all), Total(f, f, all), Total(g, g, all))
  }

  function FactualAgreement(sqrt: nat -> real, a: Answer, b: Answer): real {
    Dice(Elements(a.numbers), Elements(b.numbers)) * 0.25
    + Dice(Elements(a.codeBlocks), Elements(b.codeBlocks)) * 0.25
    + WordCosine(sqrt, a.words, b.words) * 0.5
  }

  function Similarity(sqrt: nat -> real, a: Answer, b: Answer): real {
    Jaccard(Elements(a.keyTerms), Elements(b.keyTerms)) * 0.4 + FactualAgreement(sqrt, a, b) * 0.6
  }

  /** What each of the four overlaps contributes: two fifths, twice three twentieths, three tenths. */
  lemma SimilarityWeights(sqrt: nat -> real, a: Answer, b: Answer)
    ensures Similarity(sqrt, a, b) == 0.4 * Jaccard(set t | t in a.keyTerms, set t | t in b.keyTerms)
                                      + 0.15 * Dice(set n | n in a.numbers, set n | n in b.numbers)
                                      + 0.15 * Dice(set c | c in a.codeBlocks, set c | c in b.codeBlocks)
                                      + 0.3 * WordCosine(sqrt, a.words, b.words)
  {
    hide Jaccard, Dice, WordCosine;
    assert Elements(a.keyTerms) == set t | t in a.keyTerms;
    assert Elements(b.keyTerms) == set t | t in b.keyTerms;
    assert Elements(a.numbers) == set n | n in a.numbers;
    assert Elements(b.numbers) == set n | n in b.numbers;
    assert Elements(a.codeBlocks) == set c | c in a.codeBlocks;
    assert Elements(b.codeBlocks) == set c | c in b.codeBlocks;
  }

  /** The word cosine is the product sum over the product of the roots, 0 where a text has no words or the inherited one. */
  lemma WordCosineMeaning(sqrt: nat -> real, a: seq<string>, b: seq<string>)
    requires IsSqrt(sqrt)
    ensures var f, g, all := Frequency(a), Frequency(b), Union(a, b);
            if a == [] || b == [] || INHERITED in a || INHERITED in b then WordCosine(sqrt, a, b) == 0.0
            else
              && Dot(f, f, all) > 0 && Dot(g, g, all) > 0
              && WordCosine(sqrt, a, b) * (sqrt(Dot(f, f, all)) * sqrt(Dot(g, g, all))) == Dot(f, g, all) as real
  {
    hide Dot, IsSqrt;
    var f, g, all := Frequency(a), Frequency(b), Union(a, b);
    UnionMembers(a, b);
    hide Union;
    if a == [] {
      NormOfNothing(f, all);
    } else if b == [] {
      NormOfNothing(g, all);
    } else if INHERITED !in a && INHERITED !in b {
      assert a[0] in all && At(f, a[0]) == multiset(a)[a[0]] > 0;
      assert b[0] in all && At(g, b[0]) == multiset(b)[b[0]] > 0;
      NormIsPositive(f, all, a[0]);
      NormIsPositive(g, all, b[0]);
      RootProduct(sqrt, Dot(f, f, all), Dot(g, g, all));
      CauchySchwarz(f, g, all);
      CosineBounds(sqrt, Dot(f, g, all), Dot(f, f, all), Dot(g, g, all));
    }
  }

  lemma {:induction false} NormOfNothing(f: map<string, nat>, ws: seq<string>)
    requires f == map[]
    ensures Dot(f, f, ws) == 0
  {
    if ws != [] {
      NormOfNothing(f, ws[..|ws| - 1]);
    }
  }

  method ComputeFactualAgreement(sqrt: nat -> real, a: Answer, b: Answer) returns (r: real)
    ensures r == FactualAgreement(sqrt, a, b)
  {
    var numScore := ComputeDice(a.numbers, b.numbers);
    var codeScore := ComputeDice(a.codeBlocks, b.codeBlocks);
    var fA := ComputeFrequency(a.words);
    var fB := ComputeFrequency(b.words);
    var dot, na, nb := ComputeDots(fA, fB, Union(a.words, b.words));
    r := numScore * 0.25 + codeScore * 0.25 + Cosine(sqrt, dot, na, nb) * 0.5;
  }

  lemma WordCosineBounds(sqrt: nat -> real, a: seq<string>, b: seq<string>)
    requires IsSqrt(sqrt)
    ensures 0.0 <= WordCosine(sqrt, a, b) <= 1.0 && WordCosine(sqrt, a, b) == WordCosine(sqrt, b, a)
  {
    hide Union, Frequency, Distinct, Dot;
    var f, g, all, back := Frequency(a), Frequency(b), Union(a, b), Union(b, a);
    UnionMembers(a, b);
    assert INHERITED in all <==> INHERITED in back;
    DotIgnoresOrder(f, g, all, back);
    DotIgnoresOrder(f, f, all, back);
    DotIgnoresOrder(g, g, all, back);
    DotSymmetric(f, g, back);
    CauchySchwarz(f, g, all);
    CosineBounds(sqrt, Dot(f, g, all), Dot(f, f, all), Dot(g, g, all));
  }

  lemma {:induction false} NormIsPositive(f: map<string, nat>, ws: seq<string>, w: string)
    requires w in ws && At(f, w) > 0
    ensures Dot(f, f, ws) > 0
  {
    var last := ws[|ws| - 1];
    if last == w {
      assert At(f, last) * At(f, last) > 0;
    } else {
      assert w in ws[..|ws| - 1];
      NormIsPositive(f, ws[..|ws| - 1], w);
    }
  }

  /** A text is fully alike to itself exactly when it has words and the inherited word is not among them. */
  lemma CosineWithItself(sqrt: nat -> real, a: seq<string>)
    requires IsSqrt(sqrt)
    ensures WordCosine(sqrt, a, a) == if a != [] && INHERITED !in a then 1.0 else 0.0
  {
    hide WordCosine, Dot, Frequency, Union;
    WordCosineMeaning(sqrt, a, a);
    if a != [] && INHERITED !in a {
      var n := Dot(Frequency(a), Frequency(a), Union(a, a));
      OnlyOneFits(WordCosine(sqrt, a, a), sqrt(n) * sqrt(n), n as real);
    }
  }

  lemma OnlyOneFits(c: real, p: real, n: real)
    requires p > 0.0 && p == n && c * p == n
    ensures c == 1.0
  {
    assert (c - 1.0) * p == 0.0;
  }

  /** The similarity of two answers is symmetric and between 0 and 1. */
  lemma SimilarityBounds(sqrt: nat -> real, a: Answer, b: Answer)
    requires IsSqrt(sqrt)
    ensures 0.0 <= Similarity(sqrt, a, b) <= 1.0
    ensures Similarity(sqrt, a, b) == Similarity(sqrt, b, a)
  {
    hide WordCosine, Jaccard, Dice;
    OverlapBounds(Elements(a.keyTerms), Elements(b.keyTerms));
    OverlapBounds(Elements(a.numbers), Elements(b.numbers));
    OverlapBounds(Elements(a.codeBlocks), Elements(b.codeBlocks));
    WordCosineBounds(sqrt, a.words, b.words);
  }

  lemma OverlapWithItself(a: set<string>)
    ensures Dice(a, a) == 1.0
    ensures Jaccard(a, a) == if a != {} then 1.0 else 0.0
  {
    assert a + a == a && a * a == a;
    if a != {} {
      var x :| x in a;
      SubsetSize({x}, a);
      var n := |a| as real;
      assert n / n == 1.0 && 2.0 * n / (n + n) == 1.0;
    }
  }

  /** An answer is fully alike to itself exactly when it has key terms and words, none of them the inherited one. */
  lemma SimilarityWithItself(sqrt: nat -> real, a: Answer)
    requires IsSqrt(sqrt)
    ensures Similarity(sqrt, a, a) == 1.0 <==> a.keyTerms != [] && a.words != [] && INHERITED !in a.words
  {
    hide WordCosine, Jaccard, Dice;
    OverlapWithItself(Elements(a.keyTerms));
    OverlapWithItself(Elements(a.numbers));
    OverlapWithItself(Elements(a.codeBlocks));
    CosineWithItself(sqrt, a.words);
    assert FactualAgreement(sqrt, a, a) == 0.5 + WordCosine(sqrt, a.words, a.words) * 0.5;
    assert a.keyTerms != [] ==> a.keyTerms[|a.keyTerms| - 1] in Elements(a.keyTerms);
  }
}
