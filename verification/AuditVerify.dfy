/** The verifiers of the audit log: one epoch, the whole history, a single entry; and how they agree. */
module AuditVerify {
  import opened Text
  import opened AuditEncoding
  import opened AuditChain
  import opened AuditEpochs

  /** The two tables, `nova_audit_log` by `chain_seq` and `nova_audit_epochs` by `sequence_no`. */
  datatype Database = Database(log: seq<Row>, epochs: seq<Epoch>)

  function LatestEpoch(db: Database): Option<Epoch> {
    if db.epochs == [] then None else Some(db.epochs[|db.epochs| - 1])
  }

  /** Primary keys and the unique index of the two tables. */
  predicate KeysAreUnique(db: Database) {
    && InChainOrder(db.log)
    && (forall i, j :: 0 <= i < j < |db.log| ==> db.log[i].id != db.log[j].id)
    && (forall i, j :: 0 <= i < j < |db.epochs| ==> db.epochs[i].epochId != db.epochs[j].epochId)
    && (forall i :: 0 <= i < |db.epochs| ==> db.epochs[i].epochId != LEGACY_EPOCH_ID)
  }

  // ---------------------------------------------------------------- verdicts

  function LegacyVerdict(h: Hasher, db: Database): ChainResult {
    ChainVerdict(h, EpochRows(db.log, LEGACY_EPOCH_ID), GENESIS_HASH)
  }

  function EpochVerdict(h: Hasher, db: Database, e: Epoch): ChainResult {
    match LineageVerdict(h, db.log, db.epochs, e.sequenceNo)
    case Broken(error) => ChainResult(false, 0, None, Some(error))
    case Intact => ChainVerdict(h, EpochRows(db.log, e.epochId), e.anchorHash)
  }

  /** The scope a new entry is appended to. */
  function CurrentVerdict(h: Hasher, db: Database): ChainResult {
    match LatestEpoch(db)
    case None => LegacyVerdict(h, db)
    case Some(e) => EpochVerdict(h, db, e)
  }

  /** The legacy rows and the first `m` epochs, stopping at the first scope that fails. */
  function HistoryVerdict(h: Hasher, db: Database, m: nat): ChainResult
    requires m <= |db.epochs|
  {
    if m == 0 then LegacyVerdict(h, db)
    else
      var before := HistoryVerdict(h, db, m - 1);
      if !before.valid then before
      else
        var r := EpochVerdict(h, db, db.epochs[m - 1]);
        r.(checkedCount := before.checkedCount + r.checkedCount)
  }

  function WholeHistory(h: Hasher, db: Database): ChainResult {
    HistoryVerdict(h, db, |db.epochs|)
  }

  method VerifyLegacy(h: Hasher, db: Database, pageSize: PageSize) returns (r: ChainResult)
    requires InChainOrder(db.log)
    ensures r == LegacyVerdict(h, db)
  {
    var rows := RowsForEpoch(db.log, LEGACY_EPOCH_ID, pageSize);
    r := VerifyRows(h, rows, GENESIS_HASH);
  }

  method VerifyEpoch(h: Hasher, db: Database, e: Epoch, pageSize: PageSize) returns (r: ChainResult)
    requires InChainOrder(db.log)
    ensures r == EpochVerdict(h, db, e)
  {
    var lineage := ValidateEpochLineage(h, db.log, db.epochs, e.sequenceNo);
    if lineage.Broken? {
      return ChainResult(false, 0, None, Some(lineage.error));
    }
    var rows := RowsForEpoch(db.log, e.epochId, pageSize);
    r := VerifyRows(h, rows, e.anchorHash);
  }

  /** The scope that `beginAuditEpoch` recovers and `verifyAuditIntegrity` reports as current. */
  method VerifyCurrent(h: Hasher, db: Database, pageSize: PageSize) returns (r: ChainResult)
    requires InChainOrder(db.log)
    ensures r == CurrentVerdict(h, db)
  {
    if db.epochs == [] {
      r := VerifyLegacy(h, db, pageSize);
    } else {
      r := VerifyEpoch(h, db, db.epochs[|db.epochs| - 1], pageSize);
    }
  }

  /** The number of entries checked in the legacy rows and the first `m` epochs. */
  function CheckedIn(h: Hasher, db: Database, m: nat): nat
    requires m <= |db.epochs|
  {
    if m == 0 then LegacyVerdict(h, db).checkedCount
    else CheckedIn(h, db, m - 1) + EpochVerdict(h, db, db.epochs[m - 1]).checkedCount
  }

  predicate ScopesAreValid(h: Hasher, db: Database, m: nat)
    requires m <= |db.epochs|
  {
    LegacyVerdict(h, db).valid && forall i :: 0 <= i < m ==> EpochVerdict(h, db, db.epochs[i]).valid
  }

  /**
   * The whole history is valid exactly when every scope is, with the sum of their counts; otherwise it fails as the
   * first failing scope does, and counts what was checked up to there.
   */
  lemma {:induction false} HistoryMeaning(h: Hasher, db: Database, m: nat)
    requires m <= |db.epochs|
    ensures HistoryVerdict(h, db, m).valid <==> ScopesAreValid(h, db, m)
    ensures HistoryVerdict(h, db, m).valid ==> HistoryVerdict(h, db, m) == ChainResult(true, CheckedIn(h, db, m), None, None)
    ensures !LegacyVerdict(h, db).valid ==> HistoryVerdict(h, db, m) == LegacyVerdict(h, db)
  {
    hide EpochVerdict, LegacyVerdict;
    if m == 0 {
      ValidShape(h, db);
    } else {
      HistoryMeaning(h, db, m - 1);
      ValidEpochShape(h, db, db.epochs[m - 1]);
    }
  }

  /** The first epoch that fails decides how the history fails. */
  lemma FirstFailureIsReported(h: Hasher, db: Database, k: nat, m: nat)
    requires k < m <= |db.epochs| && ScopesAreValid(h, db, k) && !EpochVerdict(h, db, db.epochs[k]).valid
    ensures HistoryVerdict(h, db, m) == EpochVerdict(h, db, db.epochs[k]).(checkedCount := CheckedIn(h, db, k + 1))
  {
    hide EpochVerdict, LegacyVerdict;
    HistoryMeaning(h, db, k);
    FailureIsFinal(h, db, k + 1, m);
  }

  lemma ValidShape(h: Hasher, db: Database)
    ensures LegacyVerdict(h, db).valid ==>
              LegacyVerdict(h, db) == ChainResult(true, LegacyVerdict(h, db).checkedCount, None, None)
  {
  }

  lemma ValidEpochShape(h: Hasher, db: Database, e: Epoch)
    ensures EpochVerdict(h, db, e).valid ==>
              EpochVerdict(h, db, e) == ChainResult(true, EpochVerdict(h, db, e).checkedCount, None, None)
  {
    hide LineageVerdict;
  }

  /** An epoch stands on its lineage: a broken one is reported before any entry is looked at. */
  lemma EpochVerdictMeaning(h: Hasher, db: Database, e: Epoch)
    ensures var lineage := LineageVerdict(h, db.log, db.epochs, e.sequenceNo);
            && (lineage.Broken? ==> EpochVerdict(h, db, e) == ChainResult(false, 0, None, Some(lineage.error)))
            && (EpochVerdict(h, db, e).valid
                <==> lineage == Intact && ChainIntact(h, EpochRows(db.log, e.epochId), e.anchorHash))
  {
    hide LineageVerdict;
    ChainVerdictMeaning(h, EpochRows(db.log, e.epochId), e.anchorHash);
  }

  /** Later epochs cannot repair a history that already failed. */
  lemma {:induction false} FailureIsFinal(h: Hasher, db: Database, m: nat, n: nat)
    requires m <= n <= |db.epochs|
    requires !HistoryVerdict(h, db, m).valid
    ensures HistoryVerdict(h, db, n) == HistoryVerdict(h, db, m)
  {
    hide EpochVerdict, LegacyVerdict;
    if m < n {
      FailureIsFinal(h, db, m, n - 1);
    }
  }

  /** `verifyWholeHistory`, for every page size. */
  method VerifyWholeHistory(h: Hasher, db: Database, pageSize: PageSize) returns (r: ChainResult)
    requires InChainOrder(db.log)
    ensures r == WholeHistory(h, db)
  {
    hide EpochVerdict, LegacyVerdict;
    var legacy := VerifyLegacy(h, db, pageSize);
    if !legacy.valid {
      FailureIsFinal(h, db, 0, |db.epochs|);
      return legacy;
    }
    var checkedCount := legacy.checkedCount;
    var i := 0;
    r := legacy;
    while i < |db.epochs|
      invariant 0 <= i <= |db.epochs|
      invariant r == HistoryVerdict(h, db, i) && r.valid && r.checkedCount == checkedCount
    {
      var result := VerifyEpoch(h, db, db.epochs[i], pageSize);
      r := result.(checkedCount := checkedCount + result.checkedCount);
      i := i + 1;
      if !result.valid {
        FailureIsFinal(h, db, i, |db.epochs|);
        return;
      }
      checkedCount := r.checkedCount;
    }
  }

  // ---------------------------------------------------------------- a single entry

  datatype EntryResult = EntryResult(valid: bool, entry: Option<Row>, error: Option<string>)

  function FindRow(log: seq<Row>, id: string): Option<Row> {
    if log == [] then None else if log[0].id == id then Some(log[0]) else FindRow(log[1..], id)
  }

  function FindEpoch(epochs: seq<Epoch>, epochId: string): Option<Epoch> {
    if epochs == [] then None
    else if epochs[0].epochId == epochId then Some(epochs[0])
    else FindEpoch(epochs[1..], epochId)
  }

  /** WHERE epoch_id = ? AND chain_seq < ? ORDER BY chain_seq DESC LIMIT 1 */
  function PreviousRow(log: seq<Row>, r: Row): Option<Row> {
    if r.chainSeq == 0 then None else LastRow(RowsUpTo(EpochRows(log, r.epochId), r.chainSeq - 1))
  }

  /** The entry itself, its link to the row before it in its epoch, and that row's own hash. */
  predicate EntryIntact(h: Hasher, log: seq<Row>, r: Row, anchor: string) {
    && r.hash == RowHash(h, r)
    && match PreviousRow(log, r)
       case None => r.prevHash == anchor
       case Some(p) => r.prevHash == p.hash && p.hash == RowHash(h, p)
  }

  /** `verifyEntry` */
  function VerifyEntry(h: Hasher, db: Database, id: string): EntryResult {
    match FindRow(db.log, id)
    case None => EntryResult(false, None, None)
    case Some(r) =>
      if r.epochId == LEGACY_EPOCH_ID then EntryResult(EntryIntact(h, db.log, r, GENESIS_HASH), Some(r), None)
      else
        match FindEpoch(db.epochs, r.epochId)
        case None => EntryResult(false, Some(r), Some("epoch metadata missing"))
        case Some(e) =>
          match LineageVerdict(h, db.log, db.epochs, e.sequenceNo)
          case Broken(error) => EntryResult(false, Some(r), Some(error))
          case Intact => EntryResult(EntryIntact(h, db.log, r, e.anchorHash), Some(r), None)
  }

  lemma {:induction false} NoSuchRow(log: seq<Row>, id: string)
    ensures FindRow(log, id) == None <==> forall r :: r in log ==> r.id != id
  {
    if log != [] {
      assert forall r :: r in log <==> r == log[0] || r in log[1..];
      NoSuchRow(log[1..], id);
    }
  }

  lemma {:induction false} NoSuchEpoch(epochs: seq<Epoch>, epochId: string)
    ensures FindEpoch(epochs, epochId) == None <==> forall e :: e in epochs ==> e.epochId != epochId
  {
    if epochs != [] {
      assert forall e :: e in epochs <==> e == epochs[0] || e in epochs[1..];
      NoSuchEpoch(epochs[1..], epochId);
    }
  }

  /** What is answered for an id: nothing for an unknown one, the entry with its fault or its own validity otherwise. */
  lemma VerifyEntryMeaning(h: Hasher, db: Database, id: string)
    requires KeysAreUnique(db)
    ensures (forall r :: r in db.log ==> r.id != id) ==> VerifyEntry(h, db, id) == EntryResult(false, None, None)
    ensures forall r | r in db.log && r.id == id ::
              var result := VerifyEntry(h, db, id);
              && result.entry == Some(r)
              && (r.epochId == LEGACY_EPOCH_ID ==>
                    result.error == None && (result.valid <==> EntryIntact(h, db.log, r, GENESIS_HASH)))
              && (r.epochId != LEGACY_EPOCH_ID && (forall e :: e in db.epochs ==> e.epochId != r.epochId) ==>
                    !result.valid && result.error == Some("epoch metadata missing"))
    ensures forall r, e | r in db.log && r.id == id && e in db.epochs && e.epochId == r.epochId ::
              var result := VerifyEntry(h, db, id);
              match LineageVerdict(h, db.log, db.epochs, e.sequenceNo)
              case Broken(error) => !result.valid && result.error == Some(error)
              case Intact => result.error == None && (result.valid <==> EntryIntact(h, db.log, r, e.anchorHash))
  {
    hide EntryIntact, LineageVerdict;
    NoSuchRow(db.log, id);
    forall r | r in db.log && r.id == id
      ensures FindRow(db.log, id) == Some(r)
      ensures FindEpoch(db.epochs, r.epochId) == None <==> forall e :: e in db.epochs ==> e.epochId != r.epochId
    {
      FindRowById(db.log, r);
      NoSuchEpoch(db.epochs, r.epochId);
    }
    forall e | e in db.epochs
      ensures FindEpoch(db.epochs, e.epochId) == Some(e)
    {
      FindEpochById(db.epochs, e);
    }
  }

  lemma {:induction false} FindRowById(log: seq<Row>, r: Row)
    requires forall i, j :: 0 <= i < j < |log| ==> log[i].id != log[j].id
    requires r in log
    ensures FindRow(log, r.id) == Some(r)
  {
    if log[0] != r {
      var k :| 0 <= k < |log| && log[k] == r;
      assert log[1..][k - 1] == r;
      assert log[0].id != log[k].id;
      FindRowById(log[1..], r);
    }
  }

  lemma {:induction false} FindEpochById(epochs: seq<Epoch>, e: Epoch)
    requires forall i, j :: 0 <= i < j < |epochs| ==> epochs[i].epochId != epochs[j].epochId
    requires e in epochs
    ensures FindEpoch(epochs, e.epochId) == Some(e)
  {
    if epochs[0] != e {
      var k :| 0 <= k < |epochs| && epochs[k] == e;
      assert epochs[1..][k - 1] == e;
      assert epochs[0].epochId != epochs[k].epochId;
      FindEpochById(epochs[1..], e);
    }
  }

  /** The row before the `k`-th row of an epoch is the `k-1`-th. */
  lemma PreviousInEpoch(log: seq<Row>, epochId: string, k: nat)
    requires InChainOrder(log) && k < |EpochRows(log, epochId)|
    ensures PreviousRow(log, EpochRows(log, epochId)[k])
            == if k == 0 then None else Some(EpochRows(log, epochId)[k - 1])
  {
    hide EpochRows;
    var rows := EpochRows(log, epochId);
    EpochRowsInChainOrder(log, epochId);
    EpochRowsComeFromLog(log, epochId);
    assert rows[k] in rows;
    UpToIsPrefix(rows, k, rows[k].chainSeq - 1);
  }

  lemma EntryInChain(h: Hasher, log: seq<Row>, epochId: string, anchor: string, k: nat)
    requires InChainOrder(log) && k < |EpochRows(log, epochId)|
    ensures var rows := EpochRows(log, epochId);
            EntryIntact(h, log, rows[k], anchor)
            <==> RowIntact(h, rows, anchor, k) && (k > 0 ==> rows[k - 1].hash == RowHash(h, rows[k - 1]))
  {
    hide RowHash;
    PreviousInEpoch(log, epochId, k);
  }

  /** Checking every entry of an epoch on its own is as strong as checking the chain. */
  lemma EntriesCoverTheChain(h: Hasher, log: seq<Row>, epochId: string, anchor: string)
    requires InChainOrder(log)
    ensures ChainIntact(h, EpochRows(log, epochId), anchor)
            <==> forall r :: r in EpochRows(log, epochId) ==> EntryIntact(h, log, r, anchor)
  {
    hide RowHash, EntryIntact;
    var rows := EpochRows(log, epochId);
    if ChainIntact(h, rows, anchor) {
      forall r | r in rows ensures EntryIntact(h, log, r, anchor) {
        var k :| 0 <= k < |rows| && rows[k] == r;
        EntryInChain(h, log, epochId, anchor, k);
        assert RowIntact(h, rows, anchor, k);
        if k > 0 {
          assert RowIntact(h, rows, anchor, k - 1);
        }
      }
    }
    if forall r :: r in rows ==> EntryIntact(h, log, r, anchor) {
      forall k | 0 <= k < |rows| ensures RowIntact(h, rows, anchor, k) {
        EntryInChain(h, log, epochId, anchor, k);
        assert rows[k] in rows;
      }
    }
  }

  /** Local and global checks of the legacy rows agree. */
  lemma LegacyChecksAgree(h: Hasher, db: Database)
    requires KeysAreUnique(db)
    ensures LegacyVerdict(h, db).valid
            <==> forall r :: r in EpochRows(db.log, LEGACY_EPOCH_ID) ==> VerifyEntry(h, db, r.id).valid
  {
    hide ChainVerdict, EntryIntact;
    var rows := EpochRows(db.log, LEGACY_EPOCH_ID);
    ChainVerdictMeaning(h, rows, GENESIS_HASH);
    EntriesCoverTheChain(h, db.log, LEGACY_EPOCH_ID, GENESIS_HASH);
    EpochRowsComeFromLog(db.log, LEGACY_EPOCH_ID);
    forall r | r in rows ensures VerifyEntry(h, db, r.id).valid <==> EntryIntact(h, db.log, r, GENESIS_HASH) {
      FindRowById(db.log, r);
    }
  }

  /** Local and global checks of an epoch agree; an epoch without rows stands on its lineage alone. */
  lemma EpochChecksAgree(h: Hasher, db: Database, e: Epoch)
    requires KeysAreUnique(db) && e in db.epochs
    ensures EpochRows(db.log, e.epochId) != [] ==>
              (EpochVerdict(h, db, e).valid
               <==> forall r :: r in EpochRows(db.log, e.epochId) ==> VerifyEntry(h, db, r.id).valid)
    ensures EpochRows(db.log, e.epochId) == [] ==>
              (EpochVerdict(h, db, e).valid <==> LineageVerdict(h, db.log, db.epochs, e.sequenceNo) == Intact)
  {
    hide ChainVerdict, EntryIntact, LineageVerdict;
    var rows := EpochRows(db.log, e.epochId);
    ChainVerdictMeaning(h, rows, e.anchorHash);
    EntriesCoverTheChain(h, db.log, e.epochId, e.anchorHash);
    EpochRowsComeFromLog(db.log, e.epochId);
    FindEpochById(db.epochs, e);
    var intact := LineageVerdict(h, db.log, db.epochs, e.sequenceNo) == Intact;
    forall r | r in rows
      ensures VerifyEntry(h, db, r.id).valid <==> intact && EntryIntact(h, db.log, r, e.anchorHash)
    {
      FindRowById(db.log, r);
    }
    if rows != [] {
      assert rows[0] in rows;
    }
  }
}
