/** Cross-validation of several agents' answers: pairwise classification, winner, recommendation. */
module CrossValidation {
  import opened AnswerSimilarity
  import opened Text

  const CONSENSUS_THRESHOLD := 0.35
  const STRONG_CONSENSUS := 0.60

  // ---------------------------------------------------------------- pairs

  datatype Verdict = Agreed | FactsDiffer | TermsDiffer

  /** One entry of the agreement or disagreement list, with the positions it compares. */
  datatype Compared = Compared(i: nat, j: nat, agentA: string, agentB: string, similarity: real, verdict: Verdict)

  function Comparison(sqrt: nat -> real, answers: seq<Answer>, i: nat, j: nat): Compared
    requires i < |answers| && j < |answers|
  {
    var a, b := answers[i], answers[j];
    var similarity := Similarity(sqrt, a, b);
    Compared(i, j, a.agentId, b.agentId, similarity,
             if similarity >= CONSENSUS_THRESHOLD then Agreed
             else if FactualAgreement(sqrt, a, b) < 0.3 then FactsDiffer else TermsDiffer)
  }

  /** What one step of the loops pushes onto one of the two lists. */
  function Entry(sqrt: nat -> real, answers: seq<Answer>, i: nat, j: nat, agreed: bool): seq<Compared>
    requires i < |answers| && j < |answers|
  {
    var c := Comparison(sqrt, answers, i, j);
    if c.verdict.Agreed? == agreed then [c] else []
  }

  /** What the nested loops have still to push, from position (i, j) on. */
  function Pending(sqrt: nat -> real, answers: seq<Answer>, i: nat, j: nat, agreed: bool): seq<Compared>
    requires i < j
    decreases |answers| - i, |answers| - j
  {
    if i >= |answers| then []
    else if j < |answers| then Entry(sqrt, answers, i, j, agreed) + Pending(sqrt, answers, i, j + 1, agreed)
    else Pending(sqrt, answers, i + 1, i + 2, agreed)
  }

  /** `(n * (n - 1)) / 2` */
  function TotalPairs(n: nat): int {
    n * (n - 1) / 2
  }

  predicate AtOrAfter(c: Compared, i: nat, j: nat) {
    c.i > i || (c.i == i && c.j >= j)
  }

  predicate Genuine(sqrt: nat -> real, answers: seq<Answer>, c: Compared, agreed: bool) {
    c.i < c.j < |answers| && c == Comparison(sqrt, answers, c.i, c.j) && c.verdict.Agreed? == agreed
  }

  /** The list holds the pairs with its verdict and no others, each once. */
  ghost predicate Lists(sqrt: nat -> real, answers: seq<Answer>, cs: seq<Compared>, agreed: bool) {
    && (forall c :: c in cs <==> Genuine(sqrt, answers, c, agreed))
    && NoRepeats(cs)
  }

  lemma EntryFacts(sqrt: nat -> real, answers: seq<Answer>, i: nat, j: nat)
    requires i < j < |answers|
    ensures forall c, agreed ::
      c in Entry(sqrt, answers, i, j, agreed) <==> Genuine(sqrt, answers, c, agreed) && c.i == i && c.j == j
    ensures |Entry(sqrt, answers, i, j, true)| + |Entry(sqrt, answers, i, j, false)| == 1
  {
    hide Similarity, FactualAgreement;
  }

  lemma {:induction false} PendingMembers(sqrt: nat -> real, answers: seq<Answer>, i: nat, j: nat, agreed: bool, c: Compared)
    requires i < j
    ensures c in Pending(sqrt, answers, i, j, agreed) <==> Genuine(sqrt, answers, c, agreed) && AtOrAfter(c, i, j)
    decreases |answers| - i, |answers| - j
  {
    hide Entry, Comparison;
    if i < |answers| {
      if j < |answers| {
        PendingMembers(sqrt, answers, i, j + 1, agreed, c);
        EntryFacts(sqrt, answers, i, j);
      } else {
        PendingMembers(sqrt, answers, i + 1, i + 2, agreed, c);
      }
    }
  }

  ghost predicate NoRepeats(cs: seq<Compared>) {
    forall k, l :: 0 <= k < l < |cs| ==> cs[k] != cs[l]
  }

  lemma NoRepeatsConcat(a: seq<Compared>, b: seq<Compared>)
    requires |a| <= 1 && NoRepeats(b) && (a != [] ==> a[0] !in b)
    ensures NoRepeats(a + b)
  {
  }

  lemma {:induction false} PendingHasNoRepeats(sqrt: nat -> real, answers: seq<Answer>, i: nat, j: nat, agreed: bool)
    requires i < j
    ensures NoRepeats(Pending(sqrt, answers, i, j, agreed))
    decreases |answers| - i, |answers| - j
  {
    hide NoRepeats, Entry, Genuine;
    if i >= |answers| {
      EmptyHasNoRepeats();
    } else if j < |answers| {
      PendingHasNoRepeats(sqrt, answers, i, j + 1, agreed);
      EntryFacts(sqrt, answers, i, j);
      var entry := Entry(sqrt, answers, i, j, agreed);
      if entry != [] {
        assert entry[0] in entry;
        PendingMembers(sqrt, answers, i, j + 1, agreed, entry[0]);
      }
      NoRepeatsConcat(entry, Pending(sqrt, answers, i, j + 1, agreed));
    } else {
      PendingHasNoRepeats(sqrt, answers, i + 1, i + 2, agreed);
    }
  }

  lemma EmptyHasNoRepeats()
    ensures NoRepeats([])
  {
  }

  lemma {:induction false} PendingCount(sqrt: nat -> real, answers: seq<Answer>, i: nat, j: nat)
    requires i < j <= |answers|
    ensures var n := |answers|;
            2 * (|Pending(sqrt, answers, i, j, true)| + |Pending(sqrt, answers, i, j, false)|)
            == 2 * (n - j) + (n - i - 1) * (n - i - 2)
    decreases |answers| - i, |answers| - j
  {
    hide Entry, Genuine;
    var n := |answers|;
    if j < n {
      PendingCount(sqrt, answers, i, j + 1);
      EntryFacts(sqrt, answers, i, j);
    } else if i + 2 <= n {
      PendingCount(sqrt, answers, i + 1, i + 2);
      RowCount(n - i - 2);
    } else {
      assert Pending(sqrt, answers, i + 1, i + 2, true) == [] && Pending(sqrt, answers, i + 1, i + 2, false) == [];
    }
  }

  lemma RowCount(m: int)
    ensures 2 * m + m * (m - 1) == m * (m + 1) == (m + 1) * m
  {
  }

  /** Every unordered pair is classified exactly once, and there are n(n-1)/2 of them. */
  lemma EveryPairOnce(sqrt: nat -> real, answers: seq<Answer>)
    requires answers != []
    ensures Lists(sqrt, answers, Pending(sqrt, answers, 0, 1, true), true)
    ensures Lists(sqrt, answers, Pending(sqrt, answers, 0, 1, false), false)
    ensures var n := |answers|;
            |Pending(sqrt, answers, 0, 1, true)| + |Pending(sqrt, answers, 0, 1, false)| == TotalPairs(n)
  {
    hide Pending, Genuine, NoRepeats;
    forall agreed: bool ensures Lists(sqrt, answers, Pending(sqrt, answers, 0, 1, agreed), agreed) {
      forall c ensures c in Pending(sqrt, answers, 0, 1, agreed) <==> Genuine(sqrt, answers, c, agreed) {
        PendingMembers(sqrt, answers, 0, 1, agreed, c);
        GenuineIsOrdered(sqrt, answers, c, agreed);
      }
      PendingHasNoRepeats(sqrt, answers, 0, 1, agreed);
    }
    PendingCount(sqrt, answers, 0, 1);
    var n := |answers|;
    assert 2 * (n - 1) + (n - 1) * (n - 2) == n * (n - 1);
  }

  lemma GenuineIsOrdered(sqrt: nat -> real, answers: seq<Answer>, c: Compared, agreed: bool)
    ensures Genuine(sqrt, answers, c, agreed) ==> AtOrAfter(c, 0, 1)
  {
  }

  /** The loop body: compare two answers. */
  method Compare(sqrt: nat -> real, answers: seq<Answer>, i: nat, j: nat) returns (c: Compared)
    requires i < |answers| && j < |answers|
    ensures c == Comparison(sqrt, answers, i, j)
    ensures c.i == i && c.j == j && c.agentA == answers[i].agentId && c.agentB == answers[j].agentId
    ensures c.similarity == 0.4 * Jaccard(Elements(answers[i].keyTerms), Elements(answers[j].keyTerms))
                            + 0.6 * FactualAgreement(sqrt, answers[i], answers[j])
    ensures c.verdict == Agreed <==> c.similarity >= 0.35
    ensures c.verdict == FactsDiffer <==> c.similarity < 0.35 && FactualAgreement(sqrt, answers[i], answers[j]) < 0.3
  {
    var rA, rB := answers[i], answers[j];
    var termSim := ComputeJaccard(rA.keyTerms, rB.keyTerms);
    var factSim := ComputeFactualAgreement(sqrt, rA, rB);
    hide FactualAgreement, Jaccard;
    var similarity := termSim * 0.4 + factSim * 0.6;
    if similarity >= CONSENSUS_THRESHOLD {
      c := Compared(i, j, rA.agentId, rB.agentId, similarity, Agreed);
    } else {
      var reason := if factSim < 0.3 then FactsDiffer else TermsDiffer;
      c := Compared(i, j, rA.agentId, rB.agentId, similarity, reason);
    }
  }

  lemma PendingStep(sqrt: nat -> real, answers: seq<Answer>, i: nat, j: nat, agreed: bool, done: seq<Compared>)
    requires i < j < |answers|
    ensures var c := Comparison(sqrt, answers, i, j);
            done + Pending(sqrt, answers, i, j, agreed)
            == (if c.verdict.Agreed? == agreed then done + [c] else done) + Pending(sqrt, answers, i, j + 1, agreed)
  {
    hide Comparison;
    var entry, rest := Entry(sqrt, answers, i, j, agreed), Pending(sqrt, answers, i, j + 1, agreed);
    assert done + (entry + rest) == (done + entry) + rest;
    assert done + [] == done;
  }

  lemma NextRow(sqrt: nat -> real, answers: seq<Answer>, i: nat, agreed: bool)
    requires i < |answers|
    ensures Pending(sqrt, answers, i, |answers|, agreed) == Pending(sqrt, answers, i + 1, i + 2, agreed)
  {
    hide Entry;
  }

  lemma NothingPending(sqrt: nat -> real, answers: seq<Answer>, agreed: bool)
    ensures Pending(sqrt, answers, |answers|, |answers| + 1, agreed) == []
  {
  }

  /** The nested loops over all pairs. */
  method ClassifyPairs(sqrt: nat -> real, answers: seq<Answer>)
    returns (agreements: seq<Compared>, disagreements: seq<Compared>)
    requires answers != []
    ensures Lists(sqrt, answers, agreements, true) && Lists(sqrt, answers, disagreements, false)
    ensures |agreements| + |disagreements| == TotalPairs(|answers|)
  {
    hide *;
    ghost var yes, no := Pending(sqrt, answers, 0, 1, true), Pending(sqrt, answers, 0, 1, false);
    var n := |answers|;
    agreements, disagreements := [], [];
    var i := 0;
    while i < n
      invariant 0 <= i <= n
      invariant agreements + Pending(sqrt, answers, i, i + 1, true) == yes
      invariant disagreements + Pending(sqrt, answers, i, i + 1, false) == no
    {
      var j := i + 1;
      while j < n
        invariant i < j <= n
        invariant agreements + Pending(sqrt, answers, i, j, true) == yes
        invariant disagreements + Pending(sqrt, answers, i, j, false) == no
      {
        var c := Compare(sqrt, answers, i, j);
        PendingStep(sqrt, answers, i, j, true, agreements);
        PendingStep(sqrt, answers, i, j, false, disagreements);
        if c.verdict.Agreed? {
          agreements := agreements + [c];
        } else {
          disagreements := disagreements + [c];
        }
        j := j + 1;
      }
      NextRow(sqrt, answers, i, true);
      NextRow(sqrt, answers, i, false);
      i := i + 1;
    }
    NothingPending(sqrt, answers, true);
    NothingPending(sqrt, answers, false);
    assert agreements + [] == agreements && disagreements + [] == disagreements;
    EveryPairOnce(sqrt, answers);
  }

  // ---------------------------------------------------------------- recommendation

  datatype Recommendation = Accept | Retry | Escalate

  /** The first answer with the highest score: what the stable sort puts in front. */
  function Winner(answers: seq<Answer>): (w: nat)
    requires answers != []
    ensures w < |answers|
    ensures forall i :: 0 <= i < |answers| ==> answers[i].score <= answers[w].score
    ensures forall i :: 0 <= i < w ==> answers[i].score < answers[w].score
  {
    if |answers| == 1 then 0
    else
      var front := answers[..|answers| - 1];
      var w := Winner(front);
      if answers[|answers| - 1].score > answers[w].score then |answers| - 1 else w
  }

  function Recommend(agreements: nat, disagreements: nat, totalPairs: nat, winnerScore: real): Recommendation {
    var consensusScore := if totalPairs > 0 then agreements as real / totalPairs as real else 0.0;
    var consensus := consensusScore >= CONSENSUS_THRESHOLD;
    var majority := agreements > disagreements;
    if consensus && majority && consensusScore >= STRONG_CONSENSUS && winnerScore >= 65.0 then Accept
    else if disagreements > agreements then (if winnerScore < 40.0 then Escalate else Retry)
    else (if winnerScore < 40.0 then Escalate else Retry)
  }

  datatype Report = Report(
    consensus: bool, consensusScore: real, winner: Answer, agreements: seq<Compared>, disagreements: seq<Compared>,
    recommendation: Recommendation)

  /** `validate`, from the collected answers on; with fewer than two agents it throws. */
  method Validate(sqrt: nat -> real, answers: seq<Answer>) returns (r: Option<Report>)
    ensures r.None? <==> |answers| < 2
    ensures r.Some? ==>
      var report, n := r.value, |answers|;
      && Lists(sqrt, answers, report.agreements, true) && Lists(sqrt, answers, report.disagreements, false)
      && |report.agreements| + |report.disagreements| == TotalPairs(n) > 0 && 2 * TotalPairs(n) == n * (n - 1)
      && report.consensusScore == |report.agreements| as real / (TotalPairs(n)) as real
      && (report.consensus <==> report.consensusScore >= 0.35)
      && report.winner == answers[Winner(answers)]
      && (report.recommendation == Accept <==> report.consensusScore >= 0.6 && report.winner.score >= 65.0)
      && (report.recommendation == Escalate <==> report.recommendation != Accept && report.winner.score < 40.0)
  {
    hide Lists, Recommend, Winner;
    if |answers| < 2 {
      return None;
    }
    var agreements, disagreements := ClassifyPairs(sqrt, answers);
    PairTotalIsPositive(|answers|);
    PairTotalDoubled(|answers|);
    var totalPairs := TotalPairs(|answers|);
    var consensusScore := if totalPairs > 0 then |agreements| as real / totalPairs as real else 0.0;
    var winner := answers[Winner(answers)];
    AcceptMeans(|agreements|, |disagreements|, winner.score);
    r := Some(Report(consensusScore >= CONSENSUS_THRESHOLD, consensusScore, winner, agreements, disagreements,
                     Recommend(|agreements|, |disagreements|, totalPairs, winner.score)));
  }

  lemma {:induction false} PairTotalDoubled(n: nat)
    ensures 2 * TotalPairs(n) == n * (n - 1)
  {
    if n > 0 {
      PairTotalDoubled(n - 1);
      assert n * (n - 1) == (n - 1) * (n - 2) + 2 * (n - 1);
    }
  }

  lemma PairTotalIsPositive(n: nat)
    requires n >= 2
    ensures TotalPairs(n) > 0
  {
    assert n * (n - 1) >= 2 * (n - 1);
  }

  /** Two of the four guards of `accept` are implied by the other two. */
  lemma AcceptMeans(agreements: nat, disagreements: nat, winnerScore: real)
    requires agreements + disagreements > 0
    ensures var total := agreements + disagreements;
            Recommend(agreements, disagreements, total, winnerScore) == Accept
            <==> agreements as real / total as real >= 0.6 && winnerScore >= 65.0
    ensures var total := agreements + disagreements;
            Recommend(agreements, disagreements, total, winnerScore) == Escalate
            <==> Recommend(agreements, disagreements, total, winnerScore) != Accept && winnerScore < 40.0
  {
    var total := (agreements + disagreements) as real;
    var score := agreements as real / total;
    if score >= STRONG_CONSENSUS {
      assert agreements as real == score * total;
      assert score * total >= STRONG_CONSENSUS * total;
    }
  }
}
