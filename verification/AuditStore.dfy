/** Writing to the audit log: appending, starting a recovery epoch, and what every run of both keeps. */
module AuditStore {
  import opened Text
  import opened AuditEncoding
  import opened AuditChain
  import opened AuditEpochs
  import opened AuditVerify

  datatype AppendInput = AppendInput(
    actor: string, action: string, target: Option<string>, metadata: Option<string>, severity: Option<Severity>)

  /** What the environment supplies for a new row: a fresh UUID, the clock and SQLite's rowid. */
  datatype Stamp = Stamp(id: string, now: int, rowid: nat)

  /** `incidentEvidence` as the checks in front of `JSON.stringify` and behind it see it. */
  datatype Evidence = NotAnObject | NotSerializable | NothingRetained | Canonical(json: string) {
    function Text(): string {
      if Canonical? then json else ""
    }
  }

  datatype BeginInput = BeginInput(
    acknowledged: bool, expectedFirstInvalidId: string, actor: string, reason: string, evidence: Evidence)

  datatype AuditError =
    | NotAcknowledged
    | FieldsRequired
    | EvidenceNotAnObject
    | EvidenceNotSerializable
    | EvidenceEmpty
    | EvidenceTooLarge
    | ScopeIsValid
    | FirstInvalidChanged(expected: string, observed: string)

  datatype BeginOutcome = Started(db: Database, epoch: Epoch) | Refused(error: AuditError)

  // ---------------------------------------------------------------- appending

  /** COALESCE(MAX(chain_seq), 0) */
  function MaxChainSeq(log: seq<Row>): nat {
    if log == [] then 0 else log[|log| - 1].chainSeq
  }

  function CurrentEpochId(db: Database): string {
    match LatestEpoch(db)
    case None => LEGACY_EPOCH_ID
    case Some(e) => e.epochId
  }

  function CurrentAnchor(db: Database): string {
    match LatestEpoch(db)
    case None => GENESIS_HASH
    case Some(e) => e.anchorHash
  }

  /** The hash that a new entry of an epoch links to: that of its last row, or the anchor it started from. */
  ghost predicate IsTailHash(log: seq<Row>, epochs: seq<Epoch>, epochId: string, hash: string) {
    if forall r :: r in log ==> r.epochId != epochId then
      hash == if epochs == [] then GENESIS_HASH else epochs[|epochs| - 1].anchorHash
    else
      exists k :: IsLastOf(log, epochId, k) && log[k].hash == hash
  }

  predicate IsLastOf(log: seq<Row>, epochId: string, k: int) {
    0 <= k < |log| && log[k].epochId == epochId && forall j :: k < j < |log| ==> log[j].epochId != epochId
  }

  /** The last row of an epoch, if it has any. */
  lemma {:induction false} LastOfEpoch(log: seq<Row>, epochId: string) returns (k: int)
    ensures EpochRows(log, epochId) == [] ==> forall r :: r in log ==> r.epochId != epochId
    ensures var rows := EpochRows(log, epochId); rows != [] ==> IsLastOf(log, epochId, k) && log[k] == rows[|rows| - 1]
  {
    k := 0;
    if log != [] {
      var front, last := log[..|log| - 1], log[|log| - 1];
      assert log == front + [last];
      EpochRowsSnoc(front, last, epochId);
      k := LastOfEpoch(front, epochId);
      hide EpochRows;
      if last.epochId == epochId {
        k := |log| - 1;
      }
    }
  }

  function AppendedRow(h: Hasher, db: Database, input: AppendInput, stamp: Stamp): Row {
    var epochId := CurrentEpochId(db);
    var row := Row(
                 stamp.rowid, MaxChainSeq(db.log) + 1, stamp.id, stamp.now, input.actor, input.action,
                 Some(OrEmpty(input.target)),
                 match input.metadata { case None => "{}" case Some(m) => m },
                 match input.severity { case None => Info case Some(s) => s },
                 "", Tip(EpochRows(db.log, epochId), CurrentAnchor(db)), epochId);
    row.(hash := RowHash(h, row))
  }

  lemma TailIsLinked(db: Database)
    ensures IsTailHash(db.log, db.epochs, CurrentEpochId(db), Tip(EpochRows(db.log, CurrentEpochId(db)), CurrentAnchor(db)))
  {
    hide EpochRows;
    var k := LastOfEpoch(db.log, CurrentEpochId(db));
    EpochRowsComeFromLog(db.log, CurrentEpochId(db));
  }

  /** The new row, field by field. */
  lemma AppendedFields(h: Hasher, db: Database, input: AppendInput, stamp: Stamp)
    ensures var r := AppendedRow(h, db, input, stamp);
            && r.actor == input.actor && r.action == input.action
            && r.target == Some(if input.target.Some? then input.target.value else "")
            && r.metadata == (if input.metadata.Some? then input.metadata.value else "{}")
            && r.severity == (if input.severity.Some? then input.severity.value else Info)
            && r.id == stamp.id && r.timestamp == stamp.now && r.rowid == stamp.rowid
            && r.chainSeq == (if db.log == [] then 1 else db.log[|db.log| - 1].chainSeq + 1)
            && r.epochId == (if db.epochs == [] then LEGACY_EPOCH_ID else db.epochs[|db.epochs| - 1].epochId)
            && IsTailHash(db.log, db.epochs, r.epochId, r.prevHash)
            && r.hash == h(Utf8(Preimage(r)))
  {
    hide Preimage, Utf8, EpochRows, IsTailHash;
    HashIgnoresHash(h, AppendedRow(h, db, input, stamp));
    TailIsLinked(db);
  }

  function Append(h: Hasher, db: Database, input: AppendInput, stamp: Stamp): Database {
    db.(log := db.log + [AppendedRow(h, db, input, stamp)])
  }

  // ---------------------------------------------------------------- starting an epoch

  function InputError(input: BeginInput): Option<AuditError> {
    if !input.acknowledged then Some(NotAcknowledged)
    else if Trim(input.actor) == "" || Trim(input.reason) == "" || Trim(input.expectedFirstInvalidId) == ""
    then Some(FieldsRequired)
    else if input.evidence == NotAnObject then Some(EvidenceNotAnObject)
    else if input.evidence == NotSerializable then Some(EvidenceNotSerializable)
    else if input.evidence == NothingRetained then Some(EvidenceEmpty)
    else if |Utf8(input.evidence.Text())| > 65_536 then Some(EvidenceTooLarge)
    else None
  }

  function ScopeError(h: Hasher, db: Database, input: BeginInput): Option<AuditError> {
    var v := CurrentVerdict(h, db);
    if v.valid || v.firstInvalidId == None || v.firstInvalidId == Some("") then Some(ScopeIsValid)
    else if v.firstInvalidId.value != Trim(input.expectedFirstInvalidId)
    then Some(FirstInvalidChanged(Trim(input.expectedFirstInvalidId), v.firstInvalidId.value))
    else None
  }

  /** The checkpoint over everything logged so far. */
  function NewEpoch(h: Hasher, db: Database, input: BeginInput, epochId: string, now: int): Epoch {
    var max := MaxChainSeq(db.log);
    var tip := LastRow(db.log);
    var rows := RowsUpTo(db.log, max);
    var digest := CanonicalDigest(h, rows);
    var prior := LatestEpoch(db);
    var e := Epoch(
               epochId,
               (match prior { case None => 0 case Some(p) => p.sequenceNo }) + 1,
               now, Trim(input.actor), Trim(input.reason), input.evidence.Text(), Trim(input.expectedFirstInvalidId),
               |rows|, max,
               match tip { case None => 0 case Some(r) => r.rowid },
               TipId(tip), TipHash(tip), digest, digest,
               match prior { case None => GENESIS_HASH case Some(p) => p.checkpointHash },
               "");
    e.(checkpointHash := CheckpointHash(h, e))
  }

  /** The first entry of a new epoch. */
  function StartEntry(e: Epoch): AppendInput {
    AppendInput(
      e.actor, "audit_epoch_started", Some(e.epochId),
      Some("{\"checkpointHash\":" + JsonQuote(e.checkpointHash)
           + ",\"legacyCanonicalDigest\":" + JsonQuote(e.sourceCanonicalDigest)
           + ",\"expectedFirstInvalidId\":" + JsonQuote(e.expectedFirstInvalidId) + "}"),
      Some(Critical))
  }

  function Begin(h: Hasher, db: Database, input: BeginInput, epochId: string, now: int, stamp: Stamp): BeginOutcome {
    match InputError(input)
    case Some(error) => Refused(error)
    case None =>
      match ScopeError(h, db, input)
      case Some(error) => Refused(error)
      case None =>
        var e := NewEpoch(h, db, input, epochId, now);
        Started(Append(h, db.(epochs := db.epochs + [e]), StartEntry(e), stamp), e)
  }

  // ---------------------------------------------------------------- the table invariant

  /** The keys, gap-free epoch numbers, every row in a known epoch, every boundary inside the log. */
  predicate WellFormed(db: Database) {
    && KeysAreUnique(db)
    && (forall i :: 0 <= i < |db.epochs| ==> db.epochs[i].sequenceNo == i + 1)
    && (forall i :: 0 <= i < |db.epochs| ==> db.epochs[i].sourceMaxChainSeq <= MaxChainSeq(db.log))
    && (forall r :: r in db.log ==>
          r.epochId == LEGACY_EPOCH_ID || exists i :: 0 <= i < |db.epochs| && db.epochs[i].epochId == r.epochId)
  }

  predicate FreshRowId(db: Database, id: string) {
    forall i :: 0 <= i < |db.log| ==> db.log[i].id != id
  }

  predicate FreshEpochId(db: Database, epochId: string) {
    epochId != LEGACY_EPOCH_ID && forall i :: 0 <= i < |db.epochs| ==> db.epochs[i].epochId != epochId
  }

  lemma TablesAreOrdered(db: Database)
    requires WellFormed(db)
    ensures InChainOrder(db.log)
  {
  }

  lemma AppendKeepsTables(h: Hasher, db: Database, input: AppendInput, stamp: Stamp)
    requires WellFormed(db) && FreshRowId(db, stamp.id)
    ensures WellFormed(Append(h, db, input, stamp))
  {
    hide RowHash, EpochRows;
    var db' := Append(h, db, input, stamp);
    assert forall i :: 0 <= i < |db.log| ==> db'.log[i] == db.log[i];
    forall r | r in db'.log
      ensures r.epochId == LEGACY_EPOCH_ID || exists i :: 0 <= i < |db.epochs| && db.epochs[i].epochId == r.epochId
    {
      if r !in db.log && db.epochs != [] {
        assert db.epochs[|db.epochs| - 1].epochId == r.epochId;
      }
    }
  }

  lemma NewEpochKeepsTables(h: Hasher, db: Database, input: BeginInput, epochId: string, now: int)
    requires WellFormed(db) && FreshEpochId(db, epochId)
    ensures WellFormed(db.(epochs := db.epochs + [NewEpoch(h, db, input, epochId, now)]))
  {
    hide CheckpointHash, CanonicalDigest, Trim, RowsUpTo;
    var e := NewEpoch(h, db, input, epochId, now);
    var epochs := db.epochs + [e];
    assert forall i :: 0 <= i < |db.epochs| ==> epochs[i] == db.epochs[i];
    forall r | r in db.log
      ensures r.epochId == LEGACY_EPOCH_ID || exists i :: 0 <= i < |epochs| && epochs[i].epochId == r.epochId
    {
      if r.epochId != LEGACY_EPOCH_ID {
        var i :| 0 <= i < |db.epochs| && db.epochs[i].epochId == r.epochId;
        assert epochs[i].epochId == r.epochId;
      }
    }
  }

  // ---------------------------------------------------------------- what a later write leaves alone

  lemma {:induction false} UpToIgnoresLaterRow(log: seq<Row>, r: Row, max: nat)
    requires r.chainSeq > max
    ensures RowsUpTo(log + [r], max) == RowsUpTo(log, max)
  {
    if log == [] {
      assert log + [r] == [r];
    } else {
      assert (log + [r])[1..] == log[1..] + [r];
      UpToIgnoresLaterRow(log[1..], r, max);
    }
  }

  lemma BoundaryIgnoresLaterRow(log: seq<Row>, r: Row, max: nat)
    requires r.chainSeq > max
    ensures IsBoundary(log + [r], max) == IsBoundary(log, max)
  {
    if IsBoundary(log, max) && max != 0 {
      var k :| 0 <= k < |log| && log[k].chainSeq == max;
      assert (log + [r])[k].chainSeq == max;
    }
    if IsBoundary(log + [r], max) && max != 0 {
      var k :| 0 <= k < |log + [r]| && (log + [r])[k].chainSeq == max;
      assert log[k].chainSeq == max;
    }
  }

  lemma {:induction false} SnapshotsIgnoreLaterRow(h: Hasher, log: seq<Row>, r: Row, es: seq<Epoch>, i: nat)
    requires i <= |es|
    requires forall j :: 0 <= j < |es| ==> es[j].sourceMaxChainSeq < r.chainSeq
    ensures SnapshotsVerdict(h, log + [r], es, i) == SnapshotsVerdict(h, log, es, i)
    decreases |es| - i
  {
    hide CanonicalDigest, SnapshotVerdict, IsBoundary;
    if i < |es| {
      UpToIgnoresLaterRow(log, r, es[i].sourceMaxChainSeq);
      BoundaryIgnoresLaterRow(log, r, es[i].sourceMaxChainSeq);
      SnapshotsIgnoreLaterRow(h, log, r, es, i + 1);
    }
  }

  lemma {:induction false} EpochsThroughComeFromTable(epochs: seq<Epoch>, through: nat)
    ensures forall e :: e in EpochsThrough(epochs, through) ==> e in epochs
  {
    if epochs != [] {
      EpochsThroughComeFromTable(epochs[1..], through);
    }
  }

  lemma LineageIgnoresLaterRow(h: Hasher, log: seq<Row>, r: Row, epochs: seq<Epoch>, through: nat)
    requires forall e :: e in epochs ==> e.sourceMaxChainSeq < r.chainSeq
    ensures LineageVerdict(h, log + [r], epochs, through) == LineageVerdict(h, log, epochs, through)
  {
    hide SnapshotsVerdict, LinkVerdict;
    var es := EpochsThrough(epochs, through);
    EpochsThroughComeFromTable(epochs, through);
    forall j | 0 <= j < |es| ensures es[j].sourceMaxChainSeq < r.chainSeq {
      assert es[j] in es;
    }
    SnapshotsIgnoreLaterRow(h, log, r, es, 0);
  }

  lemma {:induction false} ThroughIgnoresLaterEpoch(epochs: seq<Epoch>, e: Epoch, through: nat)
    ensures EpochsThrough(epochs + [e], through)
            == if e.sequenceNo <= through then EpochsThrough(epochs, through) + [e] else EpochsThrough(epochs, through)
  {
    if epochs == [] {
      assert epochs + [e] == [e];
    } else {
      assert (epochs + [e])[1..] == epochs[1..] + [e];
      ThroughIgnoresLaterEpoch(epochs[1..], e, through);
    }
  }

  lemma {:induction false} ThroughEverything(epochs: seq<Epoch>, through: nat)
    requires forall i :: 0 <= i < |epochs| ==> epochs[i].sequenceNo <= through
    ensures EpochsThrough(epochs, through) == epochs
  {
    if epochs != [] {
      assert forall i :: 0 <= i < |epochs| - 1 ==> epochs[1..][i] == epochs[i + 1];
      ThroughEverything(epochs[1..], through);
    }
  }

  /** An entry appended to the current epoch leaves every earlier scope as it was. */
  lemma {:induction false} EarlierScopesIgnoreAppend(h: Hasher, db: Database, r: Row, m: nat)
    requires WellFormed(db) && r.chainSeq > MaxChainSeq(db.log)
    requires m <= |db.epochs|
    requires r.epochId != LEGACY_EPOCH_ID && forall i :: 0 <= i < m ==> db.epochs[i].epochId != r.epochId
    ensures HistoryVerdict(h, db.(log := db.log + [r]), m) == HistoryVerdict(h, db, m)
  {
    hide ChainVerdict, LineageVerdict;
    if m == 0 {
      EpochRowsSnoc(db.log, r, LEGACY_EPOCH_ID);
    } else {
      EarlierScopesIgnoreAppend(h, db, r, m - 1);
      EpochRowsSnoc(db.log, r, db.epochs[m - 1].epochId);
      LineageIgnoresLaterRow(h, db.log, r, db.epochs, db.epochs[m - 1].sequenceNo);
    }
  }

  lemma LineageIgnoresLaterEpoch(h: Hasher, log: seq<Row>, epochs: seq<Epoch>, e: Epoch, through: nat)
    requires e.sequenceNo > through
    ensures LineageVerdict(h, log, epochs + [e], through) == LineageVerdict(h, log, epochs, through)
  {
    hide EpochsThrough, LinkVerdict, SnapshotsVerdict;
    ThroughIgnoresLaterEpoch(epochs, e, through);
  }

  /** A checkpoint added behind them leaves all existing scopes as they were. */
  lemma {:induction false} EarlierScopesIgnoreEpoch(h: Hasher, db: Database, e: Epoch, m: nat)
    requires WellFormed(db) && e.sequenceNo > |db.epochs|
    requires m <= |db.epochs|
    ensures HistoryVerdict(h, db.(epochs := db.epochs + [e]), m) == HistoryVerdict(h, db, m)
  {
    hide ChainVerdict, LineageVerdict, KeysAreUnique;
    if m > 0 {
      EarlierScopesIgnoreEpoch(h, db, e, m - 1);
      LineageIgnoresLaterEpoch(h, db.log, db.epochs, e, db.epochs[m - 1].sequenceNo);
      assert (db.epochs + [e])[m - 1] == db.epochs[m - 1];
    }
  }

  // ---------------------------------------------------------------- what one append does

  /** Appending continues an intact scope and cannot hide a broken one. */
  lemma AppendExtendsCurrent(h: Hasher, db: Database, input: AppendInput, stamp: Stamp)
    requires WellFormed(db)
    ensures var db' := Append(h, db, input, stamp);
            && (CurrentVerdict(h, db).valid ==>
                  CurrentVerdict(h, db') == ChainResult(true, CurrentVerdict(h, db).checkedCount + 1, None, None))
            && (!CurrentVerdict(h, db).valid ==> CurrentVerdict(h, db') == CurrentVerdict(h, db))
  {
    hide LineageVerdict, ChainVerdict, Preimage;
    var row := AppendedRow(h, db, input, stamp);
    var rows := EpochRows(db.log, CurrentEpochId(db));
    EpochRowsSnoc(db.log, row, CurrentEpochId(db));
    HashIgnoresHash(h, row);
    VerdictAfterAppend(h, rows, row, CurrentAnchor(db));
    ChainVerdictMeaning(h, rows, CurrentAnchor(db));
    if db.epochs != [] {
      var e := db.epochs[|db.epochs| - 1];
      LineageIgnoresLaterRow(h, db.log, row, db.epochs, e.sequenceNo);
    }
  }

  /** The stored hash is not part of what is hashed. */
  lemma HashIgnoresHash(h: Hasher, r: Row)
    ensures RowHash(h, r) == RowHash(h, r.(hash := ""))
  {
    assert Preimage(r) == Preimage(r.(hash := ""));
  }

  // ---------------------------------------------------------------- starting an epoch repairs the current scope

  lemma UpToEverything(log: seq<Row>)
    requires InChainOrder(log)
    ensures RowsUpTo(log, MaxChainSeq(log)) == log
  {
    UpToIsPrefix(log, |log|, MaxChainSeq(log));
  }

  lemma NewEpochAccepted(h: Hasher, db: Database, input: BeginInput, epochId: string, now: int)
    requires WellFormed(db)
    ensures EpochAccepted(h, db.log, db.epochs + [NewEpoch(h, db, input, epochId, now)], |db.epochs|)
  {
    hide CanonicalDigest, Trim;
    var e := NewEpoch(h, db, input, epochId, now);
    UpToEverything(db.log);
    if db.log != [] {
      assert db.log[|db.log| - 1].chainSeq == e.sourceMaxChainSeq;
    }
    assert IsBoundary(db.log, e.sourceMaxChainSeq);
    CheckpointIgnoresItself(h, e);
    assert OwnSnapshot(h, db.log, e) == Intact;
  }

  lemma CheckpointIgnoresItself(h: Hasher, e: Epoch)
    ensures CheckpointHash(h, e) == CheckpointHash(h, e.(checkpointHash := ""))
  {
    assert CheckpointFields(e) == CheckpointFields(e.(checkpointHash := ""));
  }

  /** Recovery is refused unless the lineage up to the current epoch is itself intact. */
  lemma ObservedInvalidRowMeansIntactLineage(h: Hasher, db: Database)
    requires WellFormed(db)
    requires CurrentVerdict(h, db).firstInvalidId.Some?
    ensures LineageVerdict(h, db.log, db.epochs, |db.epochs|) == Intact
  {
    hide SnapshotVerdict;
    if db.epochs == [] {
      assert EpochsThrough(db.epochs, 0) == [];
    }
  }

  lemma NewEpochFacts(h: Hasher, db: Database, input: BeginInput, epochId: string, now: int)
    requires WellFormed(db)
    ensures var e := NewEpoch(h, db, input, epochId, now);
            && e.epochId == epochId && e.sequenceNo == |db.epochs| + 1
            && e.sourceMaxChainSeq == MaxChainSeq(db.log)
  {
  }

  lemma NewLineageIntact(h: Hasher, db: Database, input: BeginInput, epochId: string, now: int)
    requires WellFormed(db)
    requires LineageVerdict(h, db.log, db.epochs, |db.epochs|) == Intact
    ensures LineageVerdict(h, db.log, db.epochs + [NewEpoch(h, db, input, epochId, now)], |db.epochs| + 1) == Intact
  {
    hide OwnSnapshot, IsBoundary, LineageVerdict, NewEpoch;
    NewEpochFacts(h, db, input, epochId, now);
    var e := NewEpoch(h, db, input, epochId, now);
    var es := db.epochs + [e];
    ThroughEverything(db.epochs, |db.epochs|);
    ThroughEverything(es, |es|);
    AcceptedEpochByEpoch(h, db.log, db.epochs, |db.epochs|);
    AcceptedEpochByEpoch(h, db.log, es, |es|);
    NewEpochAccepted(h, db, input, epochId, now);
    forall i | 0 <= i < |es| ensures EpochAccepted(h, db.log, es, i) {
      if i < |db.epochs| {
        assert EpochAccepted(h, db.log, db.epochs, i);
      }
    }
  }

  /** Before its first entry the new epoch verifies with nothing in it. */
  lemma NewEpochStartsEmpty(h: Hasher, db: Database, input: BeginInput, epochId: string, now: int)
    requires WellFormed(db) && FreshEpochId(db, epochId)
    requires CurrentVerdict(h, db).firstInvalidId.Some?
    ensures var mid := db.(epochs := db.epochs + [NewEpoch(h, db, input, epochId, now)]);
            CurrentVerdict(h, mid) == ChainResult(true, 0, None, None)
  {
    hide NewEpoch, LineageVerdict, WellFormed;
    var e := NewEpoch(h, db, input, epochId, now);
    NewEpochFacts(h, db, input, epochId, now);
    ObservedInvalidRowMeansIntactLineage(h, db);
    NewLineageIntact(h, db, input, epochId, now);
    NoRowsYet(db, epochId);
    ChainVerdictMeaning(h, [], e.anchorHash);
  }

  /** A successful start leaves a current epoch that verifies with its one entry, and the history as invalid as before. */
  lemma BeginRepairsCurrent(h: Hasher, db: Database, input: BeginInput, epochId: string, now: int, stamp: Stamp)
    requires WellFormed(db) && FreshEpochId(db, epochId) && FreshRowId(db, stamp.id)
    requires Begin(h, db, input, epochId, now, stamp).Started?
    ensures var out := Begin(h, db, input, epochId, now, stamp);
            && WellFormed(out.db)
            && LatestEpoch(out.db) == Some(out.epoch)
            && out.db.epochs == db.epochs + [out.epoch]
            && CurrentVerdict(h, out.db) == ChainResult(true, 1, None, None)
            && HistoryVerdict(h, out.db, |db.epochs|) == WholeHistory(h, db)
            && WholeHistory(h, out.db) == WholeHistory(h, db)
            && !WholeHistory(h, db).valid
  {
    hide NewEpoch, Append, AppendedRow, StartEntry, Trim, LegacyVerdict, EpochVerdict, RowHash;
    var out := Begin(h, db, input, epochId, now, stamp);
    var e := NewEpoch(h, db, input, epochId, now);
    var mid := db.(epochs := db.epochs + [e]);
    NewEpochFacts(h, db, input, epochId, now);
    NewEpochKeepsTables(h, db, input, epochId, now);
    NewEpochStartsEmpty(h, db, input, epochId, now);
    AppendExtendsCurrent(h, mid, StartEntry(e), stamp);
    AppendKeepsTables(h, mid, StartEntry(e), stamp);
    AppendFacts(h, mid, StartEntry(e), stamp);
    CurrentFailureFailsHistory(h, db);
    EarlierScopesIgnoreEpoch(h, db, e, |db.epochs|);
    EarlierScopesIgnoreAppend(h, mid, AppendedRow(h, mid, StartEntry(e), stamp), |db.epochs|);
    FailureIsFinal(h, out.db, |db.epochs|, |out.db.epochs|);
  }

  lemma AppendFacts(h: Hasher, db: Database, input: AppendInput, stamp: Stamp)
    ensures var row := AppendedRow(h, db, input, stamp);
            && Append(h, db, input, stamp) == db.(log := db.log + [row])
            && row.chainSeq == MaxChainSeq(db.log) + 1
            && row.epochId == CurrentEpochId(db)
  {
  }

  lemma {:induction false} NoRowsOf(log: seq<Row>, epochId: string)
    requires forall r :: r in log ==> r.epochId != epochId
    ensures EpochRows(log, epochId) == []
  {
    if log != [] {
      assert log[0] in log;
      NoRowsOf(log[1..], epochId);
    }
  }

  lemma NoRowsYet(db: Database, epochId: string)
    requires WellFormed(db) && FreshEpochId(db, epochId)
    ensures EpochRows(db.log, epochId) == []
  {
    NoRowsOf(db.log, epochId);
  }

  lemma CurrentFailureFailsHistory(h: Hasher, db: Database)
    requires !CurrentVerdict(h, db).valid
    ensures !WholeHistory(h, db).valid
  {
    hide EpochVerdict, LegacyVerdict;
  }

  // ---------------------------------------------------------------- what a start writes, and when it is refused

  /** What the checkpoint says about the log below it. */
  lemma CheckpointOfLog(h: Hasher, db: Database, input: BeginInput, epochId: string, now: int)
    requires WellFormed(db)
    ensures var e := NewEpoch(h, db, input, epochId, now);
            && e.sourceRowCount == |db.log|
            && e.sourceCanonicalDigest == e.anchorHash == h(CanonicalBytes(db.log))
            && e.checkpointHash == h(CheckpointBytes(e))
            && (if db.log == [] then
                  e.sourceMaxChainSeq == e.sourceTipRowid == 0 && e.sourceTipId == e.sourceTipHash == None
                else
                  var tip := db.log[|db.log| - 1];
                  && e.sourceMaxChainSeq == tip.chainSeq && e.sourceTipRowid == tip.rowid
                  && e.sourceTipId == Some(tip.id) && e.sourceTipHash == Some(tip.hash))
  {
    hide Trim, CanonicalBytes, CheckpointBytes, RowsUpTo;
    UpToEverything(db.log);
    CheckpointIgnoresItself(h, NewEpoch(h, db, input, epochId, now));
  }

  /** The checkpoint of a started epoch, field by field. */
  lemma StartedCheckpoint(h: Hasher, db: Database, input: BeginInput, epochId: string, now: int, stamp: Stamp)
    requires WellFormed(db) && Begin(h, db, input, epochId, now, stamp).Started?
    ensures var out := Begin(h, db, input, epochId, now, stamp);
            var e := out.epoch;
            && out.db.epochs == db.epochs + [e]
            && e.epochId == epochId && e.sequenceNo == |db.epochs| + 1 && e.createdAt == now
            && e.actor == Trim(input.actor) && e.reason == Trim(input.reason)
            && input.evidence == Canonical(e.incidentEvidence)
            && e.expectedFirstInvalidId == Trim(input.expectedFirstInvalidId)
            && e.sourceRowCount == |db.log|
            && e.sourceCanonicalDigest == e.anchorHash == h(CanonicalBytes(db.log))
            && e.previousCheckpointHash
               == (if db.epochs == [] then GENESIS_HASH else db.epochs[|db.epochs| - 1].checkpointHash)
            && e.checkpointHash == h(CheckpointBytes(e))
            && (if db.log == [] then
                  e.sourceMaxChainSeq == e.sourceTipRowid == 0 && e.sourceTipId == e.sourceTipHash == None
                else
                  var tip := db.log[|db.log| - 1];
                  && e.sourceMaxChainSeq == tip.chainSeq && e.sourceTipRowid == tip.rowid
                  && e.sourceTipId == Some(tip.id) && e.sourceTipHash == Some(tip.hash))
  {
    hide CurrentVerdict, Trim, Utf8, AppendedRow, StartEntry, CanonicalBytes, CheckpointBytes, RowsUpTo, MaxChainSeq;
    CheckpointOfLog(h, db, input, epochId, now);
  }

  /** The first entry of a started epoch, field by field; it links to the anchor. */
  lemma StartedEntry(h: Hasher, db: Database, input: BeginInput, epochId: string, now: int, stamp: Stamp)
    requires WellFormed(db) && FreshEpochId(db, epochId) && Begin(h, db, input, epochId, now, stamp).Started?
    ensures var out := Begin(h, db, input, epochId, now, stamp);
            var e := out.epoch;
            && |out.db.log| == |db.log| + 1 && out.db.log[..|db.log|] == db.log
            && var row := out.db.log[|db.log|];
            && row.actor == Trim(input.actor) && row.action == "audit_epoch_started" && row.target == Some(epochId)
            && row.severity == Critical && row.id == stamp.id && row.timestamp == stamp.now && row.rowid == stamp.rowid
            && row.metadata == "{\"checkpointHash\":" + JsonQuote(e.checkpointHash)
                               + ",\"legacyCanonicalDigest\":" + JsonQuote(e.sourceCanonicalDigest)
                               + ",\"expectedFirstInvalidId\":" + JsonQuote(e.expectedFirstInvalidId) + "}"
            && row.epochId == epochId && row.prevHash == e.anchorHash && row.hash == h(Utf8(Preimage(row)))
            && row.chainSeq == e.sourceMaxChainSeq + 1
  {
    hide CurrentVerdict, InputError, Trim, Utf8, CanonicalDigest, CheckpointHash, Preimage, JsonQuote, EpochRows, AppendedRow,
      IsTailHash;
    var e := NewEpoch(h, db, input, epochId, now);
    var mid := db.(epochs := db.epochs + [e]);
    var row := AppendedRow(h, mid, StartEntry(e), stamp);
    AppendedFields(h, mid, StartEntry(e), stamp);
    NewEpochIsLinked(h, db, e, StartEntry(e), stamp);
    assert Begin(h, db, input, epochId, now, stamp) == Started(Append(h, mid, StartEntry(e), stamp), e);
    assert (db.log + [row])[..|db.log|] == db.log && (db.log + [row])[|db.log|] == row;
  }

  /** An epoch without rows has its anchor for a tail. */
  lemma NewEpochIsLinked(h: Hasher, db: Database, e: Epoch, input: AppendInput, stamp: Stamp)
    requires WellFormed(db) && FreshEpochId(db, e.epochId)
    ensures AppendedRow(h, db.(epochs := db.epochs + [e]), input, stamp).prevHash == e.anchorHash
  {
    NoRowsYet(db, e.epochId);
    hide WellFormed, RowHash;
    assert LatestEpoch(db.(epochs := db.epochs + [e])) == Some(e);
  }

  /** A start is granted exactly to a complete request that names the first invalid entry of the current scope. */
  lemma StartedExactly(h: Hasher, db: Database, input: BeginInput, epochId: string, now: int, stamp: Stamp)
    ensures Begin(h, db, input, epochId, now, stamp).Started?
            <==> && input.acknowledged
                 && Trim(input.actor) != "" && Trim(input.reason) != "" && Trim(input.expectedFirstInvalidId) != ""
                 && input.evidence.Canonical? && |Utf8(input.evidence.json)| <= 65_536
                 && !CurrentVerdict(h, db).valid
                 && CurrentVerdict(h, db).firstInvalidId == Some(Trim(input.expectedFirstInvalidId))
  {
    hide CurrentVerdict, Trim, Utf8, NewEpoch, Append, StartEntry;
  }

  /** A refused request is told its first fault. */
  lemma FirstFaultIsReported(h: Hasher, db: Database, input: BeginInput, epochId: string, now: int, stamp: Stamp)
    ensures var out := Begin(h, db, input, epochId, now, stamp);
            var named := Trim(input.actor) != "" && Trim(input.reason) != "" && Trim(input.expectedFirstInvalidId) != "";
            var isFit := input.evidence.Canonical? && |Utf8(input.evidence.json)| <= 65_536;
            var found := CurrentVerdict(h, db).firstInvalidId;
            var isFound := !CurrentVerdict(h, db).valid && found.Some? && found.value != "";
            && (out == Refused(NotAcknowledged) <==> !input.acknowledged)
            && (out == Refused(FieldsRequired) <==> input.acknowledged && !named)
            && (out == Refused(EvidenceNotAnObject) <==> input.acknowledged && named && input.evidence.NotAnObject?)
            && (out == Refused(EvidenceNotSerializable) <==> input.acknowledged && named && input.evidence.NotSerializable?)
            && (out == Refused(EvidenceEmpty) <==> input.acknowledged && named && input.evidence.NothingRetained?)
            && (out == Refused(EvidenceTooLarge)
                <==> input.acknowledged && named && input.evidence.Canonical? && !isFit)
            && (out == Refused(ScopeIsValid) <==> input.acknowledged && named && isFit && !isFound)
            && (forall a, b :: (out == Refused(FirstInvalidChanged(a, b)))
                  <==> (input.acknowledged && named && isFit && isFound
                        && a == Trim(input.expectedFirstInvalidId) && b == found.value && a != b))
  {
    hide CurrentVerdict, Trim, Utf8, NewEpoch, Append, StartEntry;
  }

  // ---------------------------------------------------------------- runs

  /** One step of the environment. A tamper may rewrite content, hash and link of an existing row. */
  datatype Step =
    | DoAppend(input: AppendInput, stamp: Stamp)
    | DoBegin(begin: BeginInput, epochId: string, now: int, first: Stamp)
    | DoTamper(index: nat, content: Row)

  function Overwrite(old_: Row, content: Row): Row {
    content.(rowid := old_.rowid, chainSeq := old_.chainSeq, id := old_.id, epochId := old_.epochId)
  }

  /** UUIDs are fresh; a tamper hits an existing row. */
  predicate Enabled(db: Database, step: Step) {
    match step
    case DoAppend(_, stamp) => FreshRowId(db, stamp.id)
    case DoBegin(_, epochId, _, first) => FreshEpochId(db, epochId) && FreshRowId(db, first.id)
    case DoTamper(index, _) => index < |db.log|
  }

  function Apply(h: Hasher, db: Database, step: Step): Database
    requires Enabled(db, step)
  {
    match step
    case DoAppend(input, stamp) => Append(h, db, input, stamp)
    case DoBegin(begin, epochId, now, first) =>
      (match Begin(h, db, begin, epochId, now, first)
       case Started(db', _) => db'
       case Refused(_) => db)
    case DoTamper(index, content) => db.(log := db.log[index := Overwrite(db.log[index], content)])
  }

  /** `steps` is a run from `db` in which every step is enabled when it happens. */
  predicate IsRun(h: Hasher, db: Database, steps: seq<Step>)
    decreases |steps|
  {
    steps == [] || (Enabled(db, steps[0]) && IsRun(h, Apply(h, db, steps[0]), steps[1..]))
  }

  function Run(h: Hasher, db: Database, steps: seq<Step>): Database
    requires IsRun(h, db, steps)
    decreases |steps|
  {
    if steps == [] then db else Run(h, Apply(h, db, steps[0]), steps[1..])
  }

  const EMPTY := Database([], [])

  predicate SameKeys(a: seq<Row>, b: seq<Row>) {
    |a| == |b|
    && forall i :: 0 <= i < |a| ==>
         a[i].chainSeq == b[i].chainSeq && a[i].id == b[i].id && a[i].epochId == b[i].epochId
  }

  lemma SameKeysStayUnique(db: Database, log': seq<Row>)
    requires KeysAreUnique(db) && SameKeys(log', db.log)
    ensures KeysAreUnique(db.(log := log'))
  {
  }

  lemma SameKeysStayWellFormed(db: Database, log': seq<Row>)
    requires WellFormed(db) && SameKeys(log', db.log)
    ensures WellFormed(db.(log := log'))
  {
    hide KeysAreUnique;
    SameKeysStayUnique(db, log');
    forall r | r in log'
      ensures r.epochId == LEGACY_EPOCH_ID || exists i :: 0 <= i < |db.epochs| && db.epochs[i].epochId == r.epochId
    {
      var k :| 0 <= k < |log'| && log'[k] == r;
      assert db.log[k] in db.log;
    }
  }

  lemma TamperKeepsTables(db: Database, index: nat, content: Row)
    requires WellFormed(db) && index < |db.log|
    ensures WellFormed(db.(log := db.log[index := Overwrite(db.log[index], content)]))
  {
    hide WellFormed;
    SameKeysStayWellFormed(db, db.log[index := Overwrite(db.log[index], content)]);
  }

  lemma StepKeepsTables(h: Hasher, db: Database, step: Step)
    requires WellFormed(db) && Enabled(db, step)
    ensures WellFormed(Apply(h, db, step))
  {
    hide WellFormed, Append, Begin;
    match step
    case DoAppend(input, stamp) => AppendKeepsTables(h, db, input, stamp);
    case DoBegin(begin, epochId, now, first) =>
      if Begin(h, db, begin, epochId, now, first).Started? {
        BeginRepairsCurrent(h, db, begin, epochId, now, first);
      }
    case DoTamper(index, content) => TamperKeepsTables(db, index, content);
  }

  /** Every run of appends, tampers and epoch starts keeps the tables well formed. */
  lemma {:induction false} RunKeepsTables(h: Hasher, db: Database, steps: seq<Step>)
    requires WellFormed(db) && IsRun(h, db, steps)
    ensures WellFormed(Run(h, db, steps))
    decreases |steps|
  {
    hide WellFormed, Apply;
    if steps != [] {
      StepKeepsTables(h, db, steps[0]);
      RunKeepsTables(h, Apply(h, db, steps[0]), steps[1..]);
    }
  }

  predicate NoTampering(steps: seq<Step>) {
    forall i :: 0 <= i < |steps| ==> !steps[i].DoTamper?
  }

  function CountAppends(steps: seq<Step>): nat {
    if steps == [] then 0 else (if steps[0].DoAppend? then 1 else 0) + CountAppends(steps[1..])
  }

  /** While the current scope is valid, nobody can start an epoch. */
  lemma BeginIsRefused(h: Hasher, db: Database, begin: BeginInput, epochId: string, now: int, first: Stamp)
    requires CurrentVerdict(h, db).valid
    ensures Begin(h, db, begin, epochId, now, first).Refused?
  {
    hide CurrentVerdict, InputError, NewEpoch, Append;
  }

  /**
   * Without tampering a valid current epoch stays valid, its count grows by one with each append, attempts to start
   * another epoch are refused, and older scopes do not move.
   */
  lemma {:induction false} AppendsKeepRecovery(h: Hasher, db: Database, steps: seq<Step>)
    requires WellFormed(db) && IsRun(h, db, steps) && NoTampering(steps)
    requires CurrentVerdict(h, db).valid
    requires db.epochs != [] && !HistoryVerdict(h, db, |db.epochs| - 1).valid
    ensures var end := Run(h, db, steps);
            && WellFormed(end) && end.epochs == db.epochs
            && CurrentVerdict(h, end).valid
            && CurrentVerdict(h, end).checkedCount == CurrentVerdict(h, db).checkedCount + CountAppends(steps)
            && WholeHistory(h, end) == WholeHistory(h, db)
    decreases |steps|
  {
    hide WellFormed, Append, Begin, CurrentVerdict, HistoryVerdict;
    if steps != [] {
      assert NoTampering(steps[1..]) by {
        assert forall i :: 0 <= i < |steps| - 1 ==> steps[1..][i] == steps[i + 1];
      }
      match steps[0]
      case DoAppend(input, stamp) =>
        var next := Append(h, db, input, stamp);
        AppendKeepsHistory(h, db, input, stamp);
        AppendsKeepRecovery(h, next, steps[1..]);
      case DoBegin(begin, epochId, now, first) =>
        BeginIsRefused(h, db, begin, epochId, now, first);
        AppendsKeepRecovery(h, db, steps[1..]);
      case DoTamper(index, content) =>
        assert false;
    }
  }

  /** One append to a valid current epoch with a broken past. */
  lemma AppendKeepsHistory(h: Hasher, db: Database, input: AppendInput, stamp: Stamp)
    requires WellFormed(db) && FreshRowId(db, stamp.id) && CurrentVerdict(h, db).valid
    requires db.epochs != [] && !HistoryVerdict(h, db, |db.epochs| - 1).valid
    ensures var next := Append(h, db, input, stamp);
            && WellFormed(next) && next.epochs == db.epochs
            && CurrentVerdict(h, next).valid
            && CurrentVerdict(h, next).checkedCount == CurrentVerdict(h, db).checkedCount + 1
            && !HistoryVerdict(h, next, |db.epochs| - 1).valid
            && WholeHistory(h, next) == WholeHistory(h, db)
  {
    hide WellFormed, Append, CurrentVerdict, HistoryVerdict;
    var next := Append(h, db, input, stamp);
    var last := |db.epochs| - 1;
    AppendKeepsTables(h, db, input, stamp);
    AppendExtendsCurrent(h, db, input, stamp);
    AppendFacts(h, db, input, stamp);
    CurrentEpochIsLast(db);
    EarlierScopesIgnoreAppend(h, db, AppendedRow(h, db, input, stamp), last);
    FailureIsFinal(h, db, last, |db.epochs|);
    FailureIsFinal(h, next, last, |db.epochs|);
  }

  lemma CurrentEpochIsLast(db: Database)
    requires WellFormed(db) && db.epochs != []
    ensures CurrentEpochId(db) == db.epochs[|db.epochs| - 1].epochId
    ensures CurrentEpochId(db) != LEGACY_EPOCH_ID
    ensures forall i :: 0 <= i < |db.epochs| - 1 ==> db.epochs[i].epochId != CurrentEpochId(db)
  {
  }

  /**
   * Recovery, over every run: whatever happened before, once an epoch start succeeds, every continuation without
   * tampering leaves the current epoch valid with one entry more for each append, refuses further starts, and
   * leaves the whole history exactly as invalid as it was, with the same first invalid entry.
   */
  lemma RecoveryHolds(h: Hasher, past: seq<Step>, begin: BeginInput, epochId: string, now: int, first: Stamp,
                      later: seq<Step>)
    requires IsRun(h, EMPTY, past)
    requires var db := Run(h, EMPTY, past);
             && Enabled(db, DoBegin(begin, epochId, now, first))
             && Begin(h, db, begin, epochId, now, first).Started?
             && IsRun(h, Begin(h, db, begin, epochId, now, first).db, later)
    requires NoTampering(later)
    ensures var db := Run(h, EMPTY, past);
            var end := Run(h, Begin(h, db, begin, epochId, now, first).db, later);
            && CurrentVerdict(h, end) == ChainResult(true, 1 + CountAppends(later), None, None)
            && end.epochs == db.epochs + [Begin(h, db, begin, epochId, now, first).epoch]
            && WholeHistory(h, end) == WholeHistory(h, db)
            && !WholeHistory(h, end).valid
  {
    hide *;
    EmptyIsWellFormed();
    RunKeepsTables(h, EMPTY, past);
    var db := Run(h, EMPTY, past);
    EnabledBegin(db, begin, epochId, now, first);
    BeginRepairsCurrent(h, db, begin, epochId, now, first);
    var started := Begin(h, db, begin, epochId, now, first).db;
    AppendsKeepRecovery(h, started, later);
    ValidVerdictShape(h, Run(h, started, later));
  }

  /** A stored row that does not link to the row before it. */
  function Unlinked(r: Row): Row {
    r.(prevHash := GENESIS_HASH + "!")
  }

  lemma UnlinkedRowIsFound(h: Hasher, r: Row)
    requires r.epochId == LEGACY_EPOCH_ID
    ensures CurrentVerdict(h, Database([Unlinked(r)], [])).firstInvalidId == Some(r.id)
  {
    var rows := [Unlinked(r)];
    assert EpochRows(rows, LEGACY_EPOCH_ID) == rows;
    assert !RowIntact(h, rows, GENESIS_HASH, 0);
    ChainVerdictMeaning(h, rows, GENESIS_HASH);
  }

  /** One entry, then its link is overwritten. */
  function TamperedPast(h: Hasher, entry: AppendInput, stamp: Stamp): seq<Step> {
    [DoAppend(entry, stamp), DoTamper(0, Unlinked(AppendedRow(h, EMPTY, entry, stamp)))]
  }

  lemma TamperedPastIsRun(h: Hasher, entry: AppendInput, stamp: Stamp)
    ensures IsRun(h, EMPTY, TamperedPast(h, entry, stamp))
    ensures Run(h, EMPTY, TamperedPast(h, entry, stamp)) == Database([Unlinked(AppendedRow(h, EMPTY, entry, stamp))], [])
  {
    var r := AppendedRow(h, EMPTY, entry, stamp);
    hide AppendedRow;
    var past := TamperedPast(h, entry, stamp);
    var logged, tampered := Database([r], []), Database([Unlinked(r)], []);
    assert Append(h, EMPTY, entry, stamp) == logged;
    hide Append, Begin;
    assert [r][0 := Overwrite(r, Unlinked(r))] == [Unlinked(r)];
    assert past[1..] == [past[1]] && past[1..][1..] == [];
    assert IsRun(h, tampered, []) && Run(h, tampered, []) == tampered;
    assert IsRun(h, logged, past[1..]) && Run(h, logged, past[1..]) == tampered;
  }

  /** Recovery does happen: after such a past every well-formed request to start an epoch succeeds. */
  lemma RecoveryCanHappen(h: Hasher, entry: AppendInput, stamp: Stamp, begin: BeginInput, epochId: string, now: int,
                          first: Stamp)
    requires InputError(begin) == None && Trim(begin.expectedFirstInvalidId) == stamp.id
    requires epochId != LEGACY_EPOCH_ID && first.id != stamp.id
    ensures IsRun(h, EMPTY, TamperedPast(h, entry, stamp))
    ensures var db := Run(h, EMPTY, TamperedPast(h, entry, stamp));
            && Enabled(db, DoBegin(begin, epochId, now, first))
            && Begin(h, db, begin, epochId, now, first).Started?
  {
    hide Run, IsRun, TamperedPast, Begin, CurrentVerdict, InputError;
    TamperedPastIsRun(h, entry, stamp);
    var r := AppendedRow(h, EMPTY, entry, stamp);
    RowOfEmptyLog(h, entry, stamp);
    hide AppendedRow;
    UnlinkedRowIsFound(h, r);
    BeginIsGranted(h, Database([Unlinked(r)], []), begin, epochId, now, first);
  }

  lemma RowOfEmptyLog(h: Hasher, entry: AppendInput, stamp: Stamp)
    ensures var r := AppendedRow(h, EMPTY, entry, stamp); r.epochId == LEGACY_EPOCH_ID && r.id == stamp.id
  {
    hide RowHash, Tip;
  }

  /** A well-formed request that names the first invalid row of the current scope is granted. */
  lemma BeginIsGranted(h: Hasher, db: Database, begin: BeginInput, epochId: string, now: int, first: Stamp)
    requires InputError(begin) == None && CurrentVerdict(h, db).firstInvalidId == Some(Trim(begin.expectedFirstInvalidId))
    ensures Begin(h, db, begin, epochId, now, first).Started?
  {
    hide CurrentVerdict, Trim, Utf8, NewEpoch, Append, StartEntry;
    FoundMeansInvalid(h, db);
  }

  lemma FoundMeansInvalid(h: Hasher, db: Database)
    requires CurrentVerdict(h, db).firstInvalidId.Some?
    ensures !CurrentVerdict(h, db).valid
  {
    hide LineageVerdict;
  }

  lemma EmptyIsWellFormed()
    ensures WellFormed(EMPTY)
  {
  }

  lemma EnabledBegin(db: Database, begin: BeginInput, epochId: string, now: int, first: Stamp)
    requires Enabled(db, DoBegin(begin, epochId, now, first))
    ensures FreshEpochId(db, epochId) && FreshRowId(db, first.id)
  {
  }

  lemma ValidVerdictShape(h: Hasher, db: Database)
    requires CurrentVerdict(h, db).valid
    ensures CurrentVerdict(h, db) == ChainResult(true, CurrentVerdict(h, db).checkedCount, None, None)
  {
    hide LineageVerdict;
  }

  /** Without tampering the log always verifies, and every attempt to start an epoch is refused. */
  lemma {:induction false} HonestRunsVerify(h: Hasher, db: Database, steps: seq<Step>)
    requires WellFormed(db) && IsRun(h, db, steps) && NoTampering(steps)
    requires db.epochs == [] && CurrentVerdict(h, db) == ChainResult(true, |db.log|, None, None)
    ensures var end := Run(h, db, steps);
            && end.epochs == []
            && CurrentVerdict(h, end) == WholeHistory(h, end) == ChainResult(true, |end.log|, None, None)
            && forall input, epochId, now, stamp :: Begin(h, end, input, epochId, now, stamp).Refused?
    decreases |steps|
  {
    hide WellFormed, AppendedRow, EpochVerdict, LegacyVerdict, InputError;
    if steps != [] {
      var next := Apply(h, db, steps[0]);
      StepKeepsTables(h, db, steps[0]);
      match steps[0] {
        case DoAppend(input, stamp) => AppendExtendsCurrent(h, db, input, stamp);
        case _ =>
      }
      assert NoTampering(steps[1..]) by {
        assert forall i :: 0 <= i < |steps| - 1 ==> steps[1..][i] == steps[i + 1];
      }
      HonestRunsVerify(h, next, steps[1..]);
    }
  }

  // ---------------------------------------------------------------- the database object

  /** The database that both mutators write to, each in one transaction. */
  class AuditDatabase {
    var log: seq<Row>
    var epochs: seq<Epoch>

    ghost predicate Valid()
      reads this
    {
      WellFormed(Tables())
    }

    function Tables(): Database
      reads this
    {
      Database(log, epochs)
    }

    constructor ()
      ensures Valid() && Tables() == EMPTY
    {
      log, epochs := [], [];
    }

    /** `appendAudit`: link to the tail of the current epoch, or to its anchor. */
    method AppendAudit(h: Hasher, input: AppendInput, stamp: Stamp) returns (entry: Row)
      requires Valid() && FreshRowId(Tables(), stamp.id)
      modifies this
      ensures Valid()
      ensures log == old(log) + [entry] && epochs == old(epochs)
      ensures entry.actor == input.actor && entry.action == input.action
      ensures entry.target == Some(if input.target.Some? then input.target.value else "")
      ensures entry.metadata == if input.metadata.Some? then input.metadata.value else "{}"
      ensures entry.severity == if input.severity.Some? then input.severity.value else Info
      ensures entry.id == stamp.id && entry.timestamp == stamp.now && entry.rowid == stamp.rowid
      ensures entry.chainSeq == if old(log) == [] then 1 else old(log)[|old(log)| - 1].chainSeq + 1
      ensures entry.epochId == if epochs == [] then LEGACY_EPOCH_ID else epochs[|epochs| - 1].epochId
      ensures IsTailHash(old(log), epochs, entry.epochId, entry.prevHash) && entry.hash == h(Utf8(Preimage(entry)))
      ensures Tables() == Append(h, old(Tables()), input, stamp)
    {
      hide WellFormed, EpochRows, RowHash, Utf8, Preimage, IsTailHash;
      ghost var before := Tables();
      AppendKeepsTables(h, Tables(), input, stamp);
      var epochId, anchor := LEGACY_EPOCH_ID, GENESIS_HASH;
      if epochs != [] {
        epochId, anchor := epochs[|epochs| - 1].epochId, epochs[|epochs| - 1].anchorHash;
      }
      var rows := EpochRows(log, epochId);
      var prevHash := if rows == [] then anchor else rows[|rows| - 1].hash;
      var chainSeq := (if log == [] then 0 else log[|log| - 1].chainSeq) + 1;
      var metadata := match input.metadata { case None => "{}" case Some(m) => m };
      var severity := match input.severity { case None => Info case Some(s) => s };
      var target := Some(OrEmpty(input.target));
      entry := Row(stamp.rowid, chainSeq, stamp.id, stamp.now, input.actor, input.action, target, metadata, severity,
                   "", prevHash, epochId);
      entry := entry.(hash := RowHash(h, entry));
      log := log + [entry];
      assert entry == AppendedRow(h, before, input, stamp);
      AppendedFields(h, before, input, stamp);
    }

    /** `beginAuditEpoch`: refused without a trace, or a checkpoint and its first entry together. */
    method BeginAuditEpoch(h: Hasher, input: BeginInput, epochId: string, now: int, stamp: Stamp) returns (out: BeginOutcome)
      requires Valid() && FreshEpochId(Tables(), epochId) && FreshRowId(Tables(), stamp.id)
      modifies this
      ensures Valid()
      ensures out == Begin(h, old(Tables()), input, epochId, now, stamp)
      ensures out.Refused? ==> Tables() == old(Tables())
      ensures out.Started? ==> epochs == old(epochs) + [out.epoch] && |log| == |old(log)| + 1 && log[..|old(log)|] == old(log)
      ensures out.Started? ==>
                var entry := log[|log| - 1];
                && entry.action == "audit_epoch_started" && entry.severity == Critical && entry.target == Some(epochId)
                && entry.actor == out.epoch.actor == Trim(input.actor) && entry.epochId == epochId == out.epoch.epochId
                && entry.prevHash == out.epoch.anchorHash == h(CanonicalBytes(old(log)))
      ensures out.Started? ==> Tables() == out.db && CurrentVerdict(h, Tables()) == ChainResult(true, 1, None, None)
    {
      hide WellFormed, NewEpoch, Append, StartEntry, Trim, CurrentVerdict, WholeHistory, AppendedRow, IsTailHash,
        CanonicalBytes, CheckpointBytes, Utf8, JsonQuote, Preimage;
      ghost var before := Tables();
      var inputError := InputError(input);
      if inputError.Some? {
        return Refused(inputError.value);
      }
      TablesAreOrdered(before);
      var compromised := VerifyCurrent(h, Tables(), Finite(1000.0));
      if compromised.valid || compromised.firstInvalidId == None || compromised.firstInvalidId == Some("") {
        return Refused(ScopeIsValid);
      }
      var expected := Trim(input.expectedFirstInvalidId);
      if compromised.firstInvalidId.value != expected {
        return Refused(FirstInvalidChanged(expected, compromised.firstInvalidId.value));
      }
      var e := NewEpoch(h, Tables(), input, epochId, now);
      NewEpochKeepsTables(h, before, input, epochId, now);
      BeginRepairsCurrent(h, before, input, epochId, now, stamp);
      StartedCheckpoint(h, before, input, epochId, now, stamp);
      StartedEntry(h, before, input, epochId, now, stamp);
      epochs := epochs + [e];
      var entry := AppendAudit(h, StartEntry(e), stamp);
      return Started(Tables(), e);
    }
  }
}
