/** Recovery epochs: checkpoints that anchor a new chain on a digest of everything before it. */
module AuditEpochs {
  import opened Text
  import opened AuditEncoding
  import opened AuditChain

  /** `incidentEvidence` is the object's `stableJson` text. */
  datatype Epoch = Epoch(
    epochId: string,
    sequenceNo: nat,
    createdAt: int,
    actor: string,
    reason: string,
    incidentEvidence: string,
    expectedFirstInvalidId: string,
    sourceRowCount: nat,
    sourceMaxChainSeq: nat,
    sourceTipRowid: nat,
    sourceTipId: Option<string>,
    sourceTipHash: Option<string>,
    sourceCanonicalDigest: string,
    anchorHash: string,
    previousCheckpointHash: string,
    checkpointHash: string)

  datatype Verdict = Intact | Broken(error: string)

  // ---------------------------------------------------------------- checkpoints

  function CheckpointFields(e: Epoch): seq<string> {
    [e.epochId, IntText(e.sequenceNo), IntText(e.createdAt), e.actor, e.reason, e.incidentEvidence,
     e.expectedFirstInvalidId, IntText(e.sourceRowCount), IntText(e.sourceMaxChainSeq), IntText(e.sourceTipRowid),
     NullText(e.sourceTipId), NullText(e.sourceTipHash), e.sourceCanonicalDigest, e.anchorHash,
     e.previousCheckpointHash]
  }

  /** A version line in front of the fields. */
  lemma CheckpointLines(h: Hasher, e: Epoch)
    ensures CheckpointHash(h, e) == h(Utf8("nco-audit-checkpoint-v1\n") + PrefixedFields(CheckpointFields(e)))
  {
    hide PrefixedFields, CheckpointFields, Utf8;
    assert CHECKPOINT_HASH_VERSION + "\n" == "nco-audit-checkpoint-v1\n";
  }

  /** The checkpointed fields of one epoch, spelled out. */
  lemma CheckpointExample()
    ensures CheckpointFields(
              Epoch("e", 2, 9, "alice", "why", "{}", "bad", 4, 5, 6, Some("tip"), None, "digest", "anchor", "prev", "own"))
            == ["e", "2", "9", "alice", "why", "{}", "bad", "4", "5", "6", "tip", "<null>", "digest", "anchor", "prev"]
  {
  }

  function CheckpointBytes(e: Epoch): Bytes {
    Utf8(CHECKPOINT_HASH_VERSION + "\n") + PrefixedFields(CheckpointFields(e))
  }

  function CheckpointHash(h: Hasher, e: Epoch): string {
    h(CheckpointBytes(e))
  }

  /** Equal in everything a checkpoint covers, null being written as `<null>`. */
  predicate SameCheckpoint(a: Epoch, b: Epoch) {
    && a.epochId == b.epochId && a.sequenceNo == b.sequenceNo && a.createdAt == b.createdAt
    && a.actor == b.actor && a.reason == b.reason && a.incidentEvidence == b.incidentEvidence
    && a.expectedFirstInvalidId == b.expectedFirstInvalidId && a.sourceRowCount == b.sourceRowCount
    && a.sourceMaxChainSeq == b.sourceMaxChainSeq && a.sourceTipRowid == b.sourceTipRowid
    && NullText(a.sourceTipId) == NullText(b.sourceTipId) && NullText(a.sourceTipHash) == NullText(b.sourceTipHash)
    && a.sourceCanonicalDigest == b.sourceCanonicalDigest && a.anchorHash == b.anchorHash
    && a.previousCheckpointHash == b.previousCheckpointHash
  }

  lemma CheckpointFieldsDetermine(a: Epoch, b: Epoch)
    requires CheckpointFields(a) == CheckpointFields(b)
    ensures SameCheckpoint(a, b)
  {
    var x, y := CheckpointFields(a), CheckpointFields(b);
    assert forall i :: 0 <= i < 15 ==> x[i] == y[i];
    assert x[0] == y[0] && x[1] == y[1] && x[2] == y[2] && x[3] == y[3] && x[4] == y[4];
    assert x[5] == y[5] && x[6] == y[6] && x[7] == y[7] && x[8] == y[8] && x[9] == y[9];
    assert x[10] == y[10] && x[11] == y[11] && x[12] == y[12] && x[13] == y[13] && x[14] == y[14];
    IntTextInjective(a.sequenceNo, b.sequenceNo);
    IntTextInjective(a.createdAt, b.createdAt);
    IntTextInjective(a.sourceRowCount, b.sourceRowCount);
    IntTextInjective(a.sourceMaxChainSeq, b.sourceMaxChainSeq);
    IntTextInjective(a.sourceTipRowid, b.sourceTipRowid);
  }

  lemma EqualCheckpointsMeanEqualEpochs(h: Hasher, a: Epoch, b: Epoch)
    requires CollisionFree(h, {CheckpointBytes(a), CheckpointBytes(b)})
    requires CheckpointHash(h, a) == CheckpointHash(h, b)
    ensures SameCheckpoint(a, b)
  {
    var header := Utf8(CHECKPOINT_HASH_VERSION + "\n");
    assert CheckpointBytes(a)[|header|..] == PrefixedFields(CheckpointFields(a));
    assert CheckpointBytes(b)[|header|..] == PrefixedFields(CheckpointFields(b));
    ReadsBackFields(CheckpointFields(a), []);
    ReadsBackFields(CheckpointFields(b), []);
    CheckpointFieldsDetermine(a, b);
  }

  // ---------------------------------------------------------------- one snapshot

  /** `canonicalDigestUpTo`, the full scan that the one-pass check avoids. */
  function RowsUpTo(log: seq<Row>, max: nat): seq<Row> {
    if log == [] then []
    else if log[0].chainSeq <= max then [log[0]] + RowsUpTo(log[1..], max)
    else RowsUpTo(log[1..], max)
  }

  function CanonicalDigest(h: Hasher, rows: seq<Row>): string {
    h(CanonicalBytes(rows))
  }

  function LastRow(rows: seq<Row>): Option<Row> {
    if rows == [] then None else Some(rows[|rows| - 1])
  }

  function TipId(tip: Option<Row>): Option<string> {
    match tip
    case None => None
    case Some(r) => Some(r.id)
  }

  function TipHash(tip: Option<Row>): Option<string> {
    match tip
    case None => None
    case Some(r) => Some(r.hash)
  }

  /** `validateEpochSnapshot` */
  function SnapshotVerdict(h: Hasher, e: Epoch, digest: string, rowCount: nat, tip: Option<Row>): Verdict {
    if rowCount != e.sourceRowCount then Broken("epoch source row count mismatch")
    else if digest != e.sourceCanonicalDigest || e.anchorHash != digest then Broken("epoch anchor mismatch")
    else if (e.sourceMaxChainSeq > 0 && tip == None) || TipId(tip) != e.sourceTipId || TipHash(tip) != e.sourceTipHash
    then Broken("epoch source tip mismatch")
    else if e.checkpointHash != CheckpointHash(h, e) then Broken("epoch checkpoint metadata mismatch")
    else Intact
  }

  /** The snapshot of one epoch, checked on its own by a full scan of the rows below its boundary. */
  function OwnSnapshot(h: Hasher, log: seq<Row>, e: Epoch): Verdict {
    var rows := RowsUpTo(log, e.sourceMaxChainSeq);
    SnapshotVerdict(h, e, CanonicalDigest(h, rows), |rows|, LastRow(rows))
  }

  // ---------------------------------------------------------------- the lineage of checkpoints

  function EpochsThrough(epochs: seq<Epoch>, through: nat): seq<Epoch> {
    if epochs == [] then []
    else if epochs[0].sequenceNo <= through then [epochs[0]] + EpochsThrough(epochs[1..], through)
    else EpochsThrough(epochs[1..], through)
  }

  function ExpectedPrevious(es: seq<Epoch>, i: nat): string
    requires i <= |es|
  {
    if i == 0 then GENESIS_HASH else es[i - 1].checkpointHash
  }

  function PrecedingBoundary(es: seq<Epoch>, i: nat): nat
    requires i <= |es|
  {
    if i == 0 then 0 else es[i - 1].sourceMaxChainSeq
  }

  function LinkVerdict(es: seq<Epoch>, i: nat): Verdict
    requires i <= |es|
    decreases |es| - i
  {
    if i == |es| then Intact
    else if es[i].sequenceNo != i + 1 then Broken("epoch sequence mismatch")
    else if es[i].previousCheckpointHash != ExpectedPrevious(es, i) then Broken("epoch checkpoint lineage mismatch")
    else LinkVerdict(es, i + 1)
  }

  predicate IsBoundary(log: seq<Row>, max: nat) {
    max == 0 || exists k :: 0 <= k < |log| && log[k].chainSeq == max
  }

  /** Epoch `i` can be snapshot in one pass: its boundary exists, is not behind the previous one, not past the last. */
  predicate Reachable(log: seq<Row>, es: seq<Epoch>, i: nat)
    requires i < |es|
  {
    && PrecedingBoundary(es, i) <= es[i].sourceMaxChainSeq <= es[|es| - 1].sourceMaxChainSeq
    && IsBoundary(log, es[i].sourceMaxChainSeq)
  }

  function SnapshotsVerdict(h: Hasher, log: seq<Row>, es: seq<Epoch>, i: nat): Verdict
    requires i <= |es|
    decreases |es| - i
  {
    if i == |es| then Intact
    else if !Reachable(log, es, i) then Broken("epoch source boundary missing")
    else if OwnSnapshot(h, log, es[i]) != Intact then OwnSnapshot(h, log, es[i])
    else SnapshotsVerdict(h, log, es, i + 1)
  }

  /** What `validateEpochLineage` answers, said epoch by epoch with a separate full scan for each. */
  function LineageVerdict(h: Hasher, log: seq<Row>, epochs: seq<Epoch>, through: nat): Verdict {
    var es := EpochsThrough(epochs, through);
    if |es| != through then Broken("epoch sequence gap")
    else if LinkVerdict(es, 0) != Intact then LinkVerdict(es, 0)
    else SnapshotsVerdict(h, log, es, 0)
  }

  /** Epoch `i` in its place: number, checkpoint link, boundary and its own full-scan snapshot. */
  predicate EpochAccepted(h: Hasher, log: seq<Row>, es: seq<Epoch>, i: nat)
    requires i < |es|
  {
    && es[i].sequenceNo == i + 1
    && es[i].previousCheckpointHash == ExpectedPrevious(es, i)
    && PrecedingBoundary(es, i) <= es[i].sourceMaxChainSeq
    && IsBoundary(log, es[i].sourceMaxChainSeq)
    && OwnSnapshot(h, log, es[i]) == Intact
  }

  lemma {:induction false} LinksAcceptExactly(es: seq<Epoch>, i: nat)
    requires i <= |es|
    ensures LinkVerdict(es, i) == Intact <==>
            forall j :: i <= j < |es| ==> es[j].sequenceNo == j + 1 && es[j].previousCheckpointHash == ExpectedPrevious(es, j)
    decreases |es| - i
  {
    if i < |es| {
      LinksAcceptExactly(es, i + 1);
    }
  }

  lemma {:induction false} SnapshotsAcceptExactly(h: Hasher, log: seq<Row>, es: seq<Epoch>, i: nat)
    requires i <= |es|
    ensures SnapshotsVerdict(h, log, es, i) == Intact <==>
            forall j :: i <= j < |es| ==> Reachable(log, es, j) && OwnSnapshot(h, log, es[j]) == Intact
    decreases |es| - i
  {
    hide OwnSnapshot;
    if i < |es| {
      SnapshotsAcceptExactly(h, log, es, i + 1);
    }
  }

  lemma {:induction false} BoundariesAscend(es: seq<Epoch>, i: nat)
    requires i < |es|
    requires forall j :: 0 <= j < |es| ==> PrecedingBoundary(es, j) <= es[j].sourceMaxChainSeq
    ensures es[i].sourceMaxChainSeq <= es[|es| - 1].sourceMaxChainSeq
    decreases |es| - i
  {
    if i + 1 < |es| {
      BoundariesAscend(es, i + 1);
      assert PrecedingBoundary(es, i + 1) == es[i].sourceMaxChainSeq;
    }
  }

  lemma AcceptedEpochsGiveVerdict(h: Hasher, log: seq<Row>, es: seq<Epoch>)
    requires forall i :: 0 <= i < |es| ==> EpochAccepted(h, log, es, i)
    ensures LinkVerdict(es, 0) == Intact && SnapshotsVerdict(h, log, es, 0) == Intact
  {
    hide OwnSnapshot, IsBoundary, LinkVerdict, SnapshotsVerdict;
    LinksAcceptExactly(es, 0);
    SnapshotsAcceptExactly(h, log, es, 0);
    forall i | 0 <= i < |es|
      ensures es[i].sequenceNo == i + 1 && es[i].previousCheckpointHash == ExpectedPrevious(es, i)
      ensures PrecedingBoundary(es, i) <= es[i].sourceMaxChainSeq
    {
      assert EpochAccepted(h, log, es, i);
    }
    forall i | 0 <= i < |es| ensures Reachable(log, es, i) && OwnSnapshot(h, log, es[i]) == Intact {
      BoundariesAscend(es, i);
      assert EpochAccepted(h, log, es, i);
    }
  }

  lemma VerdictGivesAcceptedEpochs(h: Hasher, log: seq<Row>, es: seq<Epoch>, i: nat)
    requires LinkVerdict(es, 0) == Intact && SnapshotsVerdict(h, log, es, 0) == Intact
    requires i < |es|
    ensures EpochAccepted(h, log, es, i)
  {
    hide OwnSnapshot, IsBoundary, LinkVerdict, SnapshotsVerdict;
    LinksAcceptExactly(es, 0);
    SnapshotsAcceptExactly(h, log, es, 0);
    assert Reachable(log, es, i);
  }

  /** A lineage is accepted exactly when it is complete and every epoch passes alone. */
  lemma AcceptedEpochByEpoch(h: Hasher, log: seq<Row>, epochs: seq<Epoch>, through: nat)
    ensures LineageVerdict(h, log, epochs, through) == Intact <==>
            var es := EpochsThrough(epochs, through);
            |es| == through && forall i :: 0 <= i < |es| ==> EpochAccepted(h, log, es, i)
  {
    hide EpochAccepted, LinkVerdict, SnapshotsVerdict;
    var es := EpochsThrough(epochs, through);
    if LineageVerdict(h, log, epochs, through) == Intact {
      forall i | 0 <= i < |es| ensures EpochAccepted(h, log, es, i) {
        VerdictGivesAcceptedEpochs(h, log, es, i);
      }
    }
    if forall i :: 0 <= i < |es| ==> EpochAccepted(h, log, es, i) {
      AcceptedEpochsGiveVerdict(h, log, es);
    }
  }

  /** Id and hash of the last row, or neither if there is none. */
  predicate IsTipOf(rows: seq<Row>, id: Option<string>, hash: Option<string>) {
    if rows == [] then id == None && hash == None
    else id == Some(rows[|rows| - 1].id) && hash == Some(rows[|rows| - 1].hash)
  }

  /** The snapshot of an epoch read off its record: row count, digest and anchor, tip, checkpoint hash. */
  predicate SnapshotMatches(h: Hasher, log: seq<Row>, e: Epoch) {
    var rows := RowsUpTo(log, e.sourceMaxChainSeq);
    && e.sourceRowCount == |rows|
    && e.sourceCanonicalDigest == e.anchorHash == h(CanonicalBytes(rows))
    && (e.sourceMaxChainSeq > 0 ==> rows != [])
    && IsTipOf(rows, e.sourceTipId, e.sourceTipHash)
    && e.checkpointHash == h(CheckpointBytes(e))
  }

  /** Which fault of a snapshot is reported: the first one, in this order. */
  lemma SnapshotFaults(h: Hasher, log: seq<Row>, e: Epoch)
    ensures var rows := RowsUpTo(log, e.sourceMaxChainSeq);
            var v := OwnSnapshot(h, log, e);
            var isCounted := e.sourceRowCount == |rows|;
            var isAnchored := e.sourceCanonicalDigest == e.anchorHash == h(CanonicalBytes(rows));
            var isTipped :=
              if rows == [] then e.sourceMaxChainSeq == 0 && e.sourceTipId == e.sourceTipHash == None
              else e.sourceTipId == Some(rows[|rows| - 1].id) && e.sourceTipHash == Some(rows[|rows| - 1].hash);
            var isSealed := e.checkpointHash == h(CheckpointBytes(e));
            && (v == Intact <==> isCounted && isAnchored && isTipped && isSealed)
            && (v == Broken("epoch source row count mismatch") <==> !isCounted)
            && (v == Broken("epoch anchor mismatch") <==> isCounted && !isAnchored)
            && (v == Broken("epoch source tip mismatch") <==> isCounted && isAnchored && !isTipped)
            && (v == Broken("epoch checkpoint metadata mismatch") <==> isCounted && isAnchored && isTipped && !isSealed)
  {
    hide CanonicalBytes, CheckpointBytes, RowsUpTo;
    assert "epoch source row count mismatch"[6] == 's' && "epoch anchor mismatch"[6] == 'a';
    assert "epoch source row count mismatch"[13] == 'r' && "epoch source tip mismatch"[13] == 't';
    assert "epoch checkpoint metadata mismatch"[6] == 'c' && "epoch source tip mismatch"[6] == 's';
  }

  /** Epoch `i` carries its number and the link to the checkpoint before it. */
  predicate IsLinked(es: seq<Epoch>, i: nat)
    requires i < |es|
  {
    es[i].sequenceNo == i + 1 && es[i].previousCheckpointHash == if i == 0 then GENESIS_HASH else es[i - 1].checkpointHash
  }

  /** Its boundary exists, is not behind the one before it and not past the last one. */
  predicate IsInReach(log: seq<Row>, es: seq<Epoch>, i: nat)
    requires i < |es|
  {
    && (i > 0 ==> es[i - 1].sourceMaxChainSeq <= es[i].sourceMaxChainSeq)
    && es[i].sourceMaxChainSeq <= es[|es| - 1].sourceMaxChainSeq
    && IsBoundary(log, es[i].sourceMaxChainSeq)
  }

  /** Epoch `i` passes in its place, read off the records. */
  predicate IsInPlace(h: Hasher, log: seq<Row>, es: seq<Epoch>, i: nat)
    requires i < |es|
  {
    && IsLinked(es, i)
    && (i > 0 ==> es[i - 1].sourceMaxChainSeq <= es[i].sourceMaxChainSeq)
    && IsBoundary(log, es[i].sourceMaxChainSeq)
    && SnapshotMatches(h, log, es[i])
  }

  lemma AcceptedInPlace(h: Hasher, log: seq<Row>, es: seq<Epoch>, i: nat)
    requires i < |es|
    ensures EpochAccepted(h, log, es, i) <==> IsInPlace(h, log, es, i)
  {
    hide OwnSnapshot, SnapshotMatches, IsBoundary;
    SnapshotFits(h, log, es[i]);
  }

  lemma SnapshotFits(h: Hasher, log: seq<Row>, e: Epoch)
    ensures OwnSnapshot(h, log, e) == Intact <==> SnapshotMatches(h, log, e)
  {
    hide OwnSnapshot, RowsUpTo, CanonicalBytes, CheckpointBytes;
    SnapshotFaults(h, log, e);
  }

  /**
   * Acceptance in record fields: the lineage has the right number of epochs, and each has its number, the link to the
   * checkpoint before it, a boundary that exists and is not behind the one before it, and a snapshot in which the
   * number of rows, the digest, the anchor, the tip and the checkpoint hash are those of the rows below the boundary.
   */
  lemma LineageAcceptsExactly(h: Hasher, log: seq<Row>, epochs: seq<Epoch>, through: nat)
    ensures LineageVerdict(h, log, epochs, through) == Intact <==>
            var es := EpochsThrough(epochs, through);
            |es| == through && forall i :: 0 <= i < |es| ==> IsInPlace(h, log, es, i)
  {
    hide EpochAccepted, LineageVerdict, IsInPlace;
    AcceptedEpochByEpoch(h, log, epochs, through);
    var es := EpochsThrough(epochs, through);
    forall i: nat | i < |es|
      ensures EpochAccepted(h, log, es, i) <==> IsInPlace(h, log, es, i)
    {
      AcceptedInPlace(h, log, es, i);
    }
  }

  lemma {:induction false} FirstBadLink(es: seq<Epoch>, k: nat, i: nat)
    requires k <= i < |es| && forall j: nat :: j < i ==> IsLinked(es, j)
    ensures es[i].sequenceNo != i + 1 ==> LinkVerdict(es, k) == Broken("epoch sequence mismatch")
    ensures es[i].sequenceNo == i + 1 && !IsLinked(es, i) ==> LinkVerdict(es, k) == Broken("epoch checkpoint lineage mismatch")
    decreases i - k
  {
    if k < i {
      assert IsLinked(es, k);
      FirstBadLink(es, k + 1, i);
    }
  }

  lemma {:induction false} FirstBadSnapshot(h: Hasher, log: seq<Row>, es: seq<Epoch>, k: nat, i: nat)
    requires k <= i < |es|
    requires forall j: nat :: j < i ==> IsInReach(log, es, j) && SnapshotMatches(h, log, es[j])
    ensures !IsInReach(log, es, i) ==> SnapshotsVerdict(h, log, es, k) == Broken("epoch source boundary missing")
    ensures IsInReach(log, es, i) && !SnapshotMatches(h, log, es[i]) ==>
              SnapshotsVerdict(h, log, es, k) == OwnSnapshot(h, log, es[i])
    decreases i - k
  {
    hide OwnSnapshot, SnapshotMatches;
    SnapshotFits(h, log, es[k]);
    if k < i {
      assert IsInReach(log, es, k) && SnapshotMatches(h, log, es[k]);
      FirstBadSnapshot(h, log, es, k + 1, i);
    }
  }

  /**
   * A rejected lineage is told its first fault: a missing epoch, the first bad number or link, or else the first epoch
   * whose boundary or snapshot is bad, with the fault that `SnapshotFaults` names.
   */
  lemma LineageNamesFirstFault(h: Hasher, log: seq<Row>, epochs: seq<Epoch>, through: nat, i: nat)
    requires i < |EpochsThrough(epochs, through)|
    ensures var es := EpochsThrough(epochs, through);
            var v := LineageVerdict(h, log, epochs, through);
            && (|es| != through ==> v == Broken("epoch sequence gap"))
            && (|es| == through && (forall j: nat :: j < i ==> IsLinked(es, j)) ==>
                  && (es[i].sequenceNo != i + 1 ==> v == Broken("epoch sequence mismatch"))
                  && (es[i].sequenceNo == i + 1 && !IsLinked(es, i) ==> v == Broken("epoch checkpoint lineage mismatch")))
            && (|es| == through && (forall j: nat :: j < |es| ==> IsLinked(es, j))
                && (forall j: nat :: j < i ==> IsInReach(log, es, j) && SnapshotMatches(h, log, es[j])) ==>
                  && (!IsInReach(log, es, i) ==> v == Broken("epoch source boundary missing"))
                  && (IsInReach(log, es, i) && !SnapshotMatches(h, log, es[i]) ==> v == OwnSnapshot(h, log, es[i])))
  {
    hide OwnSnapshot, SnapshotMatches, IsInReach, LinkVerdict, SnapshotsVerdict;
    var es := EpochsThrough(epochs, through);
    if forall j: nat :: j < i ==> IsLinked(es, j) {
      FirstBadLink(es, 0, i);
    }
    if forall j: nat :: j < |es| ==> IsLinked(es, j) {
      LinksAcceptExactly(es, 0);
      forall j | 0 <= j < |es| ensures es[j].sequenceNo == j + 1 && es[j].previousCheckpointHash == ExpectedPrevious(es, j) {
        assert IsLinked(es, j);
      }
    }
    if forall j: nat :: j < i ==> IsInReach(log, es, j) && SnapshotMatches(h, log, es[j]) {
      FirstBadSnapshot(h, log, es, 0, i);
    }
  }

  // ---------------------------------------------------------------- the one-pass check

  lemma {:induction false} UpToIsPrefix(log: seq<Row>, k: nat, max: nat)
    requires InChainOrder(log) && k <= |log|
    requires k > 0 ==> log[k - 1].chainSeq <= max
    requires k < |log| ==> max < log[k].chainSeq
    ensures RowsUpTo(log, max) == log[..k]
  {
    if log != [] {
      var rest := log[1..];
      assert forall i :: 0 <= i < |rest| ==> rest[i] == log[i + 1];
      if k == 0 {
        UpToIsPrefix(rest, 0, max);
      } else {
        UpToIsPrefix(rest, k - 1, max);
        assert [log[0]] + rest[..k - 1] == log[..k];
      }
    }
  }

  lemma {:induction false} PrefixLength(log: seq<Row>, max: nat) returns (k: nat)
    requires InChainOrder(log)
    ensures k <= |log| && RowsUpTo(log, max) == log[..k]
    ensures k > 0 ==> log[k - 1].chainSeq <= max
    ensures k < |log| ==> max < log[k].chainSeq
  {
    k := 0;
    while k < |log| && log[k].chainSeq <= max
      invariant k <= |log|
      invariant k > 0 ==> log[k - 1].chainSeq <= max
    {
      k := k + 1;
    }
    UpToIsPrefix(log, k, max);
  }

  /** `chain_seq` of the last row read, 0 before the first. */
  function Position(log: seq<Row>, k: nat): nat
    requires k <= |log|
  {
    if k == 0 then 0 else log[k - 1].chainSeq
  }

  /** Epochs before `index` are done; the next one is not due at the current position, nor overdue if it is reachable. */
  ghost predicate Waiting(h: Hasher, log: seq<Row>, es: seq<Epoch>, k: nat, index: nat)
    requires k <= |log| && index <= |es|
  {
    && SnapshotsVerdict(h, log, es, 0) == SnapshotsVerdict(h, log, es, index)
    && PrecedingBoundary(es, index) <= Position(log, k)
    && (index < |es| && Reachable(log, es, index) ==> Position(log, k) <= es[index].sourceMaxChainSeq)
  }

  /** `validateReadyEpochs`: snapshot every epoch whose boundary is the current position. */
  method ValidateReadyEpochs(h: Hasher, ghost log: seq<Row>, ghost k: nat, es: seq<Epoch>, start: nat,
                             hashed: Bytes, rowCount: nat, tip: Option<Row>)
    returns (index: nat, verdict: Verdict)
    requires InChainOrder(log) && k <= |log| && start <= |es|
    requires hashed == CanonicalBytes(log[..k]) && rowCount == k && tip == LastRow(log[..k])
    requires Position(log, k) <= PrecedingBoundary(es, |es|)
    requires Waiting(h, log, es, k, start)
    ensures index <= |es|
    ensures verdict != Intact ==> verdict == SnapshotsVerdict(h, log, es, 0)
    ensures verdict == Intact ==>
              && Waiting(h, log, es, k, index)
              && (index < |es| ==> es[index].sourceMaxChainSeq != Position(log, k))
  {
    hide CanonicalBytes, SnapshotVerdict;
    index := start;
    var position: int := match tip { case None => 0 case Some(r) => r.chainSeq };
    while index < |es| && es[index].sourceMaxChainSeq == position
      invariant index <= |es|
      invariant Waiting(h, log, es, k, index)
    {
      UpToIsPrefix(log, k, position);
      assert IsBoundary(log, position) by {
        if k > 0 {
          assert log[k - 1].chainSeq == position;
        }
      }
      assert Reachable(log, es, index);
      verdict := SnapshotVerdict(h, es[index], h(hashed), rowCount, tip);
      assert verdict == OwnSnapshot(h, log, es[index]);
      if verdict != Intact {
        return;
      }
      index := index + 1;
    }
    verdict := Intact;
  }

  /** The first loop of `validateEpochLineage`: numbers and checkpoint links. */
  method ValidateLinks(es: seq<Epoch>) returns (verdict: Verdict)
    ensures verdict == LinkVerdict(es, 0)
  {
    var expectedPrevious := GENESIS_HASH;
    var expectedSequence := 1;
    var i := 0;
    while i < |es|
      invariant 0 <= i <= |es| && expectedSequence == i + 1
      invariant expectedPrevious == ExpectedPrevious(es, i)
      invariant LinkVerdict(es, 0) == LinkVerdict(es, i)
    {
      if es[i].sequenceNo != expectedSequence {
        return Broken("epoch sequence mismatch");
      }
      if es[i].previousCheckpointHash != expectedPrevious {
        return Broken("epoch checkpoint lineage mismatch");
      }
      expectedPrevious := es[i].checkpointHash;
      expectedSequence := expectedSequence + 1;
      i := i + 1;
    }
    return Intact;
  }

  /** The second loop: one pass over the log with a running digest that is copied at each boundary. */
  method ValidateSnapshots(h: Hasher, log: seq<Row>, es: seq<Epoch>) returns (verdict: Verdict)
    requires InChainOrder(log)
    ensures verdict == SnapshotsVerdict(h, log, es, 0)
  {
    hide CanonicalBytes, SnapshotsVerdict, Waiting, RowsUpTo, RowBytes;
    var maxChainSeq := if es == [] then 0 else es[|es| - 1].sourceMaxChainSeq;
    var sourceRows := RowsUpTo(log, maxChainSeq);
    ghost var n := PrefixLength(log, maxChainSeq);
    var hashed := CanonicalBytes([]);
    var rowCount := 0;
    assert log[..0] == [];
    PassStarts(h, log, es);
    var epochIndex: nat;
    epochIndex, verdict := ValidateReadyEpochs(h, log, 0, es, 0, hashed, 0, None);
    if verdict != Intact {
      return;
    }
    while rowCount < |sourceRows|
      invariant rowCount <= n
      invariant epochIndex <= |es|
      invariant hashed == CanonicalBytes(log[..rowCount])
      invariant Waiting(h, log, es, rowCount, epochIndex)
      invariant epochIndex < |es| ==> es[epochIndex].sourceMaxChainSeq != Position(log, rowCount)
    {
      var row := sourceRows[rowCount];
      assert row == log[rowCount];
      CanonicalBytesSnoc(log[..rowCount], row);
      assert log[..rowCount] + [row] == log[..rowCount + 1];
      hashed := hashed + RowBytes(row);
      NextRowIsNotOverdue(h, log, es, rowCount, epochIndex);
      rowCount := rowCount + 1;
      epochIndex, verdict := ValidateReadyEpochs(h, log, rowCount, es, epochIndex, hashed, rowCount, Some(row));
      if verdict != Intact {
        return;
      }
    }
    PassEnds(h, log, es, n, epochIndex);
    return if epochIndex != |es| then Broken("epoch source boundary missing") else Intact;
  }

  /** `validateEpochLineage` */
  method ValidateEpochLineage(h: Hasher, log: seq<Row>, epochs: seq<Epoch>, through: nat) returns (verdict: Verdict)
    requires InChainOrder(log)
    ensures verdict == LineageVerdict(h, log, epochs, through)
  {
    hide LinkVerdict, SnapshotsVerdict;
    var es := EpochsThrough(epochs, through);
    if |es| != through {
      return Broken("epoch sequence gap");
    }
    verdict := ValidateLinks(es);
    if verdict == Intact {
      verdict := ValidateSnapshots(h, log, es);
    }
  }

  lemma PassStarts(h: Hasher, log: seq<Row>, es: seq<Epoch>)
    ensures Waiting(h, log, es, 0, 0)
  {
  }

  lemma NextRowIsNotOverdue(h: Hasher, log: seq<Row>, es: seq<Epoch>, k: nat, index: nat)
    requires InChainOrder(log) && k < |log| && index <= |es|
    requires Waiting(h, log, es, k, index)
    requires index < |es| ==> es[index].sourceMaxChainSeq != Position(log, k)
    ensures Waiting(h, log, es, k + 1, index)
  {
    hide SnapshotsVerdict;
    if index < |es| && Reachable(log, es, index) {
      var max := es[index].sourceMaxChainSeq;
      assert max != 0;
      var j :| 0 <= j < |log| && log[j].chainSeq == max;
      assert j >= k;
    }
  }

  /** All rows up to the last boundary are read: an epoch still waiting can never be reached. */
  lemma PassEnds(h: Hasher, log: seq<Row>, es: seq<Epoch>, n: nat, index: nat)
    requires InChainOrder(log) && n <= |log| && index <= |es|
    requires es != [] && n < |log| ==> es[|es| - 1].sourceMaxChainSeq < log[n].chainSeq
    requires Waiting(h, log, es, n, index)
    requires index < |es| ==> es[index].sourceMaxChainSeq != Position(log, n)
    ensures SnapshotsVerdict(h, log, es, 0) == if index == |es| then Intact else Broken("epoch source boundary missing")
  {
    hide OwnSnapshot;
    if index < |es| && Reachable(log, es, index) {
      var max := es[index].sourceMaxChainSeq;
      assert max != 0;
      var j :| 0 <= j < |log| && log[j].chainSeq == max;
      assert false;
    }
  }

  // ---------------------------------------------------------------- one checkpoint pins all of history

  lemma AcceptedEpochFacts(h: Hasher, log: seq<Row>, es: seq<Epoch>, i: nat)
    requires i < |es| && EpochAccepted(h, log, es, i)
    ensures es[i].checkpointHash == CheckpointHash(h, es[i])
    ensures es[i].sourceCanonicalDigest == CanonicalDigest(h, RowsUpTo(log, es[i].sourceMaxChainSeq))
  {
    hide CheckpointHash, CanonicalDigest;
  }

  /** Everything a lineage hashes: its checkpoints and the canonical text below its last boundary. */
  function LineageInputs(log: seq<Row>, es: seq<Epoch>): set<Bytes>
    requires es != []
  {
    (set i | 0 <= i < |es| :: CheckpointBytes(es[i]))
    + {CanonicalBytes(RowsUpTo(log, es[|es| - 1].sourceMaxChainSeq))}
  }

  lemma {:induction false} CheckpointsAgreeBackwards(h: Hasher, log: seq<Row>, es: seq<Epoch>,
                                                     log': seq<Row>, es': seq<Epoch>, i: nat)
    requires |es| == |es'| && i < |es|
    requires forall j :: 0 <= j < |es| ==> EpochAccepted(h, log, es, j) && EpochAccepted(h, log', es', j)
    requires CollisionFree(h, LineageInputs(log, es) + LineageInputs(log', es'))
    requires es[|es| - 1].checkpointHash == es'[|es| - 1].checkpointHash
    ensures SameCheckpoint(es[i], es'[i])
    ensures es[i].checkpointHash == es'[i].checkpointHash
    decreases |es| - i
  {
    hide CheckpointBytes, CanonicalBytes, OwnSnapshot;
    if i + 1 < |es| {
      CheckpointsAgreeBackwards(h, log, es, log', es', i + 1);
      assert EpochAccepted(h, log, es, i + 1) && EpochAccepted(h, log', es', i + 1);
    }
    AcceptedEpochFacts(h, log, es, i);
    AcceptedEpochFacts(h, log', es', i);
    assert CheckpointBytes(es[i]) in LineageInputs(log, es);
    assert CheckpointBytes(es'[i]) in LineageInputs(log', es');
    EqualCheckpointsMeanEqualEpochs(h, es[i], es'[i]);
  }

  lemma AcceptedLineagesAgree(h: Hasher, log: seq<Row>, es: seq<Epoch>, log': seq<Row>, es': seq<Epoch>)
    requires |es| == |es'| && es != []
    requires forall j :: 0 <= j < |es| ==> EpochAccepted(h, log, es, j) && EpochAccepted(h, log', es', j)
    requires CollisionFree(h, LineageInputs(log, es) + LineageInputs(log', es'))
    requires es[|es| - 1].checkpointHash == es'[|es| - 1].checkpointHash
    ensures SameHistory(log, es, log', es')
  {
    hide CheckpointBytes, CanonicalBytes, EpochAccepted, SameDigestedFields;
    var n := |es| - 1;
    forall i | 0 <= i <= n ensures SameCheckpoint(es[i], es'[i]) {
      CheckpointsAgreeBackwards(h, log, es, log', es', i);
    }
    AcceptedEpochFacts(h, log, es, n);
    AcceptedEpochFacts(h, log', es', n);
    EqualDigestsMeanEqualRows(h, RowsUpTo(log, es[n].sourceMaxChainSeq), RowsUpTo(log', es'[n].sourceMaxChainSeq));
  }

  /** The same checkpoints, and the same rows below the last boundary. */
  ghost predicate SameHistory(log: seq<Row>, es: seq<Epoch>, log': seq<Row>, es': seq<Epoch>)
    requires |es| == |es'| && es != []
  {
    && (forall i :: 0 <= i < |es| ==> SameCheckpoint(es[i], es'[i]))
    && var a, b := RowsUpTo(log, es[|es| - 1].sourceMaxChainSeq), RowsUpTo(log', es'[|es| - 1].sourceMaxChainSeq);
       |a| == |b| && forall i :: 0 <= i < |a| ==> SameDigestedFields(a[i], b[i])
  }

  /** Two accepted lineages that end in the same checkpoint agree on every checkpoint and on every row below it. */
  lemma CheckpointPinsHistory(h: Hasher, log: seq<Row>, epochs: seq<Epoch>, log': seq<Row>, epochs': seq<Epoch>, n: nat)
    requires n > 0
    requires LineageVerdict(h, log, epochs, n) == Intact && LineageVerdict(h, log', epochs', n) == Intact
    requires var es, es' := EpochsThrough(epochs, n), EpochsThrough(epochs', n);
             && |es| == |es'| == n
             && es[n - 1].checkpointHash == es'[n - 1].checkpointHash
             && CollisionFree(h, LineageInputs(log, es) + LineageInputs(log', es'))
    ensures SameHistory(log, EpochsThrough(epochs, n), log', EpochsThrough(epochs', n))
  {
    hide *;
    AcceptedEpochByEpoch(h, log, epochs, n);
    AcceptedEpochByEpoch(h, log', epochs', n);
    AcceptedLineagesAgree(h, log, EpochsThrough(epochs, n), log', EpochsThrough(epochs', n));
  }
}
