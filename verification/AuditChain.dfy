/** The hash chain inside one epoch: how it is checked, how it is paged, what it makes evident. */
module AuditChain {
  import opened Text
  import opened AuditEncoding

  datatype ChainResult = ChainResult(valid: bool, checkedCount: nat, firstInvalidId: Option<string>, error: Option<string>)

  /** The hash that row `k` has to point back to. */
  function Predecessor(rows: seq<Row>, init: string, k: nat): string
    requires k <= |rows|
  {
    if k == 0 then init else rows[k - 1].hash
  }

  /** Row `k` is linked to its predecessor and carries the hash of its own content. */
  predicate RowIntact(h: Hasher, rows: seq<Row>, init: string, k: nat)
    requires k < |rows|
  {
    rows[k].prevHash == Predecessor(rows, init, k) && rows[k].hash == RowHash(h, rows[k])
  }

  predicate ChainIntact(h: Hasher, rows: seq<Row>, init: string) {
    forall k :: 0 <= k < |rows| ==> RowIntact(h, rows, init, k)
  }

  /** How many leading rows are intact. */
  function LeadingIntact(h: Hasher, rows: seq<Row>, init: string): (k: nat)
    ensures k <= |rows|
    ensures forall i :: 0 <= i < k ==> RowIntact(h, rows, init, i)
    ensures k < |rows| ==> !RowIntact(h, rows, init, k)
  {
    if rows == [] || !RowIntact(h, rows, init, 0) then 0
    else
      var rest := LeadingIntact(h, rows[1..], rows[0].hash);
      assert forall i :: 1 <= i < |rows| ==>
        RowIntact(h, rows, init, i) == RowIntact(h, rows[1..], rows[0].hash, i - 1);
      1 + rest
  }

  function ChainVerdict(h: Hasher, rows: seq<Row>, init: string): ChainResult {
    var k := LeadingIntact(h, rows, init);
    if k == |rows| then ChainResult(true, k, None, None)
    else if rows[k].prevHash != Predecessor(rows, init, k) then
      ChainResult(false, k, Some(rows[k].id), Some("prev_hash mismatch"))
    else
      ChainResult(false, k, Some(rows[k].id), Some("hash mismatch (tampered)"))
  }

  /** A verdict is positive exactly for an intact chain, and a negative one names the first bad row. */
  lemma ChainVerdictMeaning(h: Hasher, rows: seq<Row>, init: string)
    ensures ChainVerdict(h, rows, init).valid <==> ChainIntact(h, rows, init)
    ensures var v := ChainVerdict(h, rows, init);
            !v.valid ==>
              && v.checkedCount < |rows|
              && v.firstInvalidId == Some(rows[v.checkedCount].id)
              && !RowIntact(h, rows, init, v.checkedCount)
              && (forall i :: 0 <= i < v.checkedCount ==> RowIntact(h, rows, init, i))
              && v.error == Some(if rows[v.checkedCount].prevHash != Predecessor(rows, init, v.checkedCount)
                                 then "prev_hash mismatch" else "hash mismatch (tampered)")
    ensures ChainVerdict(h, rows, init).valid ==> ChainVerdict(h, rows, init) == ChainResult(true, |rows|, None, None)
  {
    var k := LeadingIntact(h, rows, init);
    if k < |rows| {
      assert !RowIntact(h, rows, init, k);
    }
  }

  lemma IntactFields(h: Hasher, rows: seq<Row>, init: string, n: nat)
    requires n <= |rows| && forall i :: 0 <= i < n ==> RowIntact(h, rows, init, i)
    ensures forall k :: 0 <= k < n ==>
              rows[k].prevHash == (if k == 0 then init else rows[k - 1].hash) && rows[k].hash == h(Utf8(Preimage(rows[k])))
  {
    hide Utf8, Preimage;
    forall k | 0 <= k < n
      ensures rows[k].prevHash == (if k == 0 then init else rows[k - 1].hash) && rows[k].hash == h(Utf8(Preimage(rows[k])))
    {
      assert RowIntact(h, rows, init, k);
    }
  }

  /** `verifyRows`: one pass that only remembers the previous hash and a count. */
  method VerifyRows(h: Hasher, rows: seq<Row>, init: string) returns (r: ChainResult)
    ensures r == ChainVerdict(h, rows, init)
    ensures r.valid <==> r.checkedCount == |rows|
    ensures forall k :: 0 <= k < r.checkedCount && k < |rows| ==>
              rows[k].prevHash == (if k == 0 then init else rows[k - 1].hash) && rows[k].hash == h(Utf8(Preimage(rows[k])))
    ensures r.valid ==> r.firstInvalidId == None && r.error == None
    ensures !r.valid ==>
              var k := r.checkedCount;
              && k < |rows| && r.firstInvalidId == Some(rows[k].id)
              && if rows[k].prevHash != (if k == 0 then init else rows[k - 1].hash) then
                   r.error == Some("prev_hash mismatch")
                 else
                   rows[k].hash != h(Utf8(Preimage(rows[k]))) && r.error == Some("hash mismatch (tampered)")
  {
    hide Utf8, Preimage;
    var prevHash := init;
    var checkedCount := 0;
    while checkedCount < |rows|
      invariant checkedCount <= |rows|
      invariant prevHash == Predecessor(rows, init, checkedCount)
      invariant forall i :: 0 <= i < checkedCount ==> RowIntact(h, rows, init, i)
    {
      IntactFields(h, rows, init, checkedCount);
      var row := rows[checkedCount];
      var expectedHash := RowHash(h, row);
      if row.prevHash != prevHash {
        FirstBadIsUnique(h, rows, init, checkedCount);
        return ChainResult(false, checkedCount, Some(row.id), Some("prev_hash mismatch"));
      }
      if row.hash != expectedHash {
        FirstBadIsUnique(h, rows, init, checkedCount);
        return ChainResult(false, checkedCount, Some(row.id), Some("hash mismatch (tampered)"));
      }
      prevHash := row.hash;
      checkedCount := checkedCount + 1;
    }
    FirstBadIsUnique(h, rows, init, checkedCount);
    IntactFields(h, rows, init, checkedCount);
    return ChainResult(true, checkedCount, None, None);
  }

  lemma FirstBadIsUnique(h: Hasher, rows: seq<Row>, init: string, k: nat)
    requires k <= |rows|
    requires forall i :: 0 <= i < k ==> RowIntact(h, rows, init, i)
    requires k < |rows| ==> !RowIntact(h, rows, init, k)
    ensures LeadingIntact(h, rows, init) == k
  {
    var n := LeadingIntact(h, rows, init);
    assert n < |rows| ==> !RowIntact(h, rows, init, n);
    assert k < |rows| ==> !RowIntact(h, rows, init, k);
  }

  /** What one more row does to a verdict. */
  lemma VerdictAfterAppend(h: Hasher, rows: seq<Row>, r: Row, init: string)
    ensures !ChainIntact(h, rows, init) ==> ChainVerdict(h, rows + [r], init) == ChainVerdict(h, rows, init)
    ensures ChainIntact(h, rows, init) && r.prevHash == Predecessor(rows, init, |rows|) && r.hash == RowHash(h, r)
            ==> ChainVerdict(h, rows + [r], init) == ChainResult(true, |rows| + 1, None, None)
  {
    hide RowHash;
    var more := rows + [r];
    var k := LeadingIntact(h, rows, init);
    forall i | 0 <= i < |rows| ensures RowIntact(h, more, init, i) == RowIntact(h, rows, init, i) {
    }
    ChainVerdictMeaning(h, rows, init);
    if k < |rows| {
      FirstBadIsUnique(h, more, init, k);
    } else if r.prevHash == Predecessor(rows, init, |rows|) && r.hash == RowHash(h, r) {
      FirstBadIsUnique(h, more, init, |more|);
    }
  }

  // ---------------------------------------------------------------- tamper evidence

  /** The hash a chain ends in. */
  function Tip(rows: seq<Row>, init: string): string {
    Predecessor(rows, init, |rows|)
  }

  lemma PrevHashesArePipeFree(h: Hasher, rows: seq<Row>, init: string)
    requires DigestsArePipeFree(h) && '|' !in init
    requires ChainIntact(h, rows, init)
    ensures forall k :: 0 <= k < |rows| ==> '|' !in rows[k].prevHash
  {
    forall k | 0 <= k < |rows| ensures '|' !in rows[k].prevHash {
      assert RowIntact(h, rows, init, k);
      if k > 0 {
        assert RowIntact(h, rows, init, k - 1);
      }
    }
  }

  /** Rows with equal hashes hashed the same text, so they also point back to the same hash. */
  lemma EqualHashesAgree(h: Hasher, a: seq<Row>, b: seq<Row>, init: string, k: nat)
    requires k < |a| && k < |b| && a[k].hash == b[k].hash
    requires DigestsArePipeFree(h) && '|' !in init
    requires CollisionFree(h, Preimages(a) + Preimages(b))
    requires ChainIntact(h, a, init) && ChainIntact(h, b, init)
    ensures Preimage(a[k]) == Preimage(b[k])
    ensures a[k].prevHash == b[k].prevHash
  {
    assert RowIntact(h, a, init, k) && RowIntact(h, b, init, k);
    assert Utf8(Preimage(a[k])) in Preimages(a) && Utf8(Preimage(b[k])) in Preimages(b);
    Utf8Injective(Preimage(a[k]), Preimage(b[k]));
    PrevHashesArePipeFree(h, a, init);
    PrevHashesArePipeFree(h, b, init);
    PreimageDeterminesPrevHash(a[k], b[k]);
  }

  lemma IntactLink(h: Hasher, rows: seq<Row>, init: string, k: nat)
    requires ChainIntact(h, rows, init) && k + 1 < |rows|
    ensures rows[k + 1].prevHash == rows[k].hash
  {
    assert RowIntact(h, rows, init, k + 1);
  }

  /** Equal tips force equal hashes all the way back to the first row. */
  lemma {:induction false} HashesAgree(h: Hasher, a: seq<Row>, b: seq<Row>, init: string, k: nat)
    requires |a| == |b| && k < |a|
    requires DigestsArePipeFree(h) && '|' !in init
    requires CollisionFree(h, Preimages(a) + Preimages(b))
    requires ChainIntact(h, a, init) && ChainIntact(h, b, init)
    requires Tip(a, init) == Tip(b, init)
    ensures a[k].hash == b[k].hash
    decreases |a| - k
  {
    hide ChainIntact, CollisionFree, DigestsArePipeFree, Preimage, Preimages;
    if k + 1 < |a| {
      HashesAgree(h, a, b, init, k + 1);
      EqualHashesAgree(h, a, b, init, k + 1);
      IntactLink(h, a, init, k);
      IntactLink(h, b, init, k);
    }
  }

  /** Two accepted chains with the same start, length and tip hashed the same texts, row by row. */
  lemma EqualTipsMeanEqualPreimages(h: Hasher, a: seq<Row>, b: seq<Row>, init: string)
    requires |a| == |b|
    requires DigestsArePipeFree(h) && '|' !in init
    requires CollisionFree(h, Preimages(a) + Preimages(b))
    requires ChainVerdict(h, a, init).valid && ChainVerdict(h, b, init).valid
    requires Tip(a, init) == Tip(b, init)
    ensures forall k :: 0 <= k < |a| ==> Preimage(a[k]) == Preimage(b[k]) && a[k].hash == b[k].hash
  {
    ChainVerdictMeaning(h, a, init);
    ChainVerdictMeaning(h, b, init);
    forall k | 0 <= k < |a| ensures Preimage(a[k]) == Preimage(b[k]) && a[k].hash == b[k].hash {
      HashesAgree(h, a, b, init, k);
      EqualHashesAgree(h, a, b, init, k);
    }
  }

  /** Field by field, when identifiers contain no separator; metadata may contain any number of them. */
  lemma EqualTipsMeanEqualFields(h: Hasher, a: seq<Row>, b: seq<Row>, init: string)
    requires |a| == |b|
    requires DigestsArePipeFree(h) && '|' !in init
    requires CollisionFree(h, Preimages(a) + Preimages(b))
    requires ChainVerdict(h, a, init).valid && ChainVerdict(h, b, init).valid
    requires Tip(a, init) == Tip(b, init)
    requires forall r :: r in a + b ==> '|' !in r.id && '|' !in r.actor && '|' !in r.action && '|' !in OrEmpty(r.target)
    ensures forall k :: 0 <= k < |a| ==> SameHashedFields(a[k], b[k]) && a[k].hash == b[k].hash
  {
    EqualTipsMeanEqualPreimages(h, a, b, init);
    ChainVerdictMeaning(h, a, init);
    ChainVerdictMeaning(h, b, init);
    PrevHashesArePipeFree(h, a, init);
    PrevHashesArePipeFree(h, b, init);
    forall k | 0 <= k < |a| ensures SameHashedFields(a[k], b[k]) {
      assert a[k] in a + b && b[k] in a + b;
      PreimageDeterminesFields(a[k], b[k]);
    }
  }

  // ---------------------------------------------------------------- keyset paging

  /** The log is kept in `chain_seq` order; the column is unique and starts at 1. */
  predicate InChainOrder(log: seq<Row>) {
    && (forall i :: 0 <= i < |log| ==> log[i].chainSeq >= 1)
    && (forall i, j :: 0 <= i < j < |log| ==> log[i].chainSeq < log[j].chainSeq)
  }

  function EpochRows(log: seq<Row>, epochId: string): seq<Row> {
    if log == [] then []
    else if log[0].epochId == epochId then [log[0]] + EpochRows(log[1..], epochId)
    else EpochRows(log[1..], epochId)
  }

  /** WHERE epoch_id = ? AND chain_seq > ? ORDER BY chain_seq ASC */
  function RowsAfter(log: seq<Row>, epochId: string, after: int): seq<Row> {
    if log == [] then []
    else if log[0].epochId == epochId && log[0].chainSeq > after then [log[0]] + RowsAfter(log[1..], epochId, after)
    else RowsAfter(log[1..], epochId, after)
  }

  function Page(log: seq<Row>, epochId: string, after: int, limit: nat): seq<Row> {
    var rows := RowsAfter(log, epochId, after);
    if |rows| <= limit then rows else rows[..limit]
  }

  datatype PageSize = NotFinite | Finite(x: real)

  function NormalizedPageSize(p: PageSize): (n: nat)
    ensures 1 <= n <= 10_000
  {
    match p
    case NotFinite => 1000
    case Finite(x) => if x.Floor < 1 then 1 else if x.Floor > 10_000 then 10_000 else x.Floor
  }

  lemma {:induction false} EveryRowIsAfterTheStart(log: seq<Row>, epochId: string, a: int, b: int)
    requires forall i :: 0 <= i < |log| ==> log[i].chainSeq > a && log[i].chainSeq > b
    ensures RowsAfter(log, epochId, a) == RowsAfter(log, epochId, b) == EpochRows(log, epochId)
  {
    if log != [] {
      assert forall i :: 0 <= i < |log| - 1 ==> log[1..][i] == log[i + 1];
      EveryRowIsAfterTheStart(log[1..], epochId, a, b);
    }
  }

  lemma {:induction false} RowsAfterComeFromLog(log: seq<Row>, epochId: string, after: int)
    ensures forall r :: r in RowsAfter(log, epochId, after) <==> r in log && r.epochId == epochId && r.chainSeq > after
  {
    if log != [] {
      assert forall r :: r in log <==> r == log[0] || r in log[1..];
      RowsAfterComeFromLog(log[1..], epochId, after);
    }
  }

  /** Restarting after the row at position `k` continues exactly behind it. */
  lemma {:induction false} KeysetContinues(log: seq<Row>, epochId: string, after: int, k: nat)
    requires InChainOrder(log)
    requires k < |RowsAfter(log, epochId, after)|
    ensures RowsAfter(log, epochId, RowsAfter(log, epochId, after)[k].chainSeq) == RowsAfter(log, epochId, after)[k + 1..]
    ensures RowsAfter(log, epochId, after)[k].chainSeq > after
  {
    var rows := RowsAfter(log, epochId, after);
    var rest := log[1..];
    assert forall i :: 0 <= i < |rest| ==> rest[i] == log[i + 1];
    var inner := RowsAfter(rest, epochId, after);
    RowsAfterComeFromLog(rest, epochId, after);
    if log[0].epochId == epochId && log[0].chainSeq > after {
      if k == 0 {
        EveryRowIsAfterTheStart(rest, epochId, after, log[0].chainSeq);
        assert rows[1..] == inner;
      } else {
        assert rows[k] == inner[k - 1] && rows[k + 1..] == inner[k..];
        assert inner[k - 1] in inner;
        KeysetContinues(rest, epochId, after, k - 1);
      }
    } else {
      assert rows[k] in rows;
      KeysetContinues(rest, epochId, after, k);
    }
  }

  /** `rowsForEpoch`: whatever the page size, each row of the epoch once and in order. */
  method RowsForEpoch(log: seq<Row>, epochId: string, requested: PageSize) returns (out: seq<Row>)
    requires InChainOrder(log)
    ensures out == EpochRows(log, epochId)
    ensures forall r :: r in out <==> r in log && r.epochId == epochId
    ensures forall i, j :: 0 <= i < j < |out| ==> out[i].chainSeq < out[j].chainSeq
  {
    EpochRowsComeFromLog(log, epochId);
    EpochRowsInChainOrder(log, epochId);
    var pageSize := NormalizedPageSize(requested);
    var lastChainSeq: int := -1;
    out := [];
    EveryRowIsAfterTheStart(log, epochId, -1, -1);
    while true
      invariant out + RowsAfter(log, epochId, lastChainSeq) == EpochRows(log, epochId)
      decreases |RowsAfter(log, epochId, lastChainSeq)|
    {
      var page := Page(log, epochId, lastChainSeq, pageSize);
      if |page| == 0 {
        return;
      }
      KeysetContinues(log, epochId, lastChainSeq, |page| - 1);
      assert page + RowsAfter(log, epochId, lastChainSeq)[|page|..] == RowsAfter(log, epochId, lastChainSeq);
      out := out + page;
      lastChainSeq := page[|page| - 1].chainSeq;
    }
  }

  lemma {:induction false} EpochRowsSnoc(log: seq<Row>, r: Row, epochId: string)
    ensures EpochRows(log + [r], epochId)
            == if r.epochId == epochId then EpochRows(log, epochId) + [r] else EpochRows(log, epochId)
  {
    if log == [] {
      assert log + [r] == [r];
    } else {
      assert (log + [r])[1..] == log[1..] + [r];
      EpochRowsSnoc(log[1..], r, epochId);
    }
  }

  lemma {:induction false} EpochRowsComeFromLog(log: seq<Row>, epochId: string)
    ensures forall r :: r in EpochRows(log, epochId) <==> r in log && r.epochId == epochId
  {
    if log != [] {
      assert forall r :: r in log <==> r == log[0] || r in log[1..];
      EpochRowsComeFromLog(log[1..], epochId);
    }
  }

  lemma {:induction false} EpochRowsInChainOrder(log: seq<Row>, epochId: string)
    requires InChainOrder(log)
    ensures InChainOrder(EpochRows(log, epochId))
  {
    if log != [] {
      assert forall i :: 0 <= i < |log| - 1 ==> log[1..][i] == log[i + 1];
      EpochRowsInChainOrder(log[1..], epochId);
      EpochRowsComeFromLog(log[1..], epochId);
      var rest := EpochRows(log[1..], epochId);
      assert forall i :: 0 <= i < |rest| ==> rest[i] in rest;
    }
  }
}
