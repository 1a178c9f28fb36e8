/**
 * The `address_snapshots` upsert, which merges column by column: the earliest known first transaction, the
 * greatest wallet age and fetch time, the first known funder, and the source of the last record. Only the
 * last two look at the order of arrival.
 */
module AddressSnapshots {
  import opened Reordering
  import opened Wrappers

  /** A snapshot record, and equally a stored row. An oldest transaction at time 0 is not known. */
  datatype Snapshot = Snapshot(
    address: string, oldestTxMs: nat, walletAgeDays: nat, firstFunder: Option<string>, source: string,
    fetchedAtMs: nat)

  function Merge(stored: Snapshot, incoming: Snapshot): Snapshot {
    Snapshot(
      stored.address,
      if stored.oldestTxMs == 0 then incoming.oldestTxMs
      else if incoming.oldestTxMs == 0 then stored.oldestTxMs
      else Min(stored.oldestTxMs, incoming.oldestTxMs),
      Max(stored.walletAgeDays, incoming.walletAgeDays),
      if stored.firstFunder.Some? then stored.firstFunder else incoming.firstFunder,
      incoming.source,
      Max(stored.fetchedAtMs, incoming.fetchedAtMs))
  }

  /** The row after all records of one address have been inserted in this order. */
  function Fold(records: seq<Snapshot>): Snapshot
    requires records != []
  {
    if |records| == 1 then records[0] else Merge(Fold(records[..|records| - 1]), records[|records| - 1])
  }

  /** The table; an upsert rewrites the address's row in place or creates it. */
  class Table {
    var rows: map<string, Snapshot>

    constructor ()
      ensures rows == map[]
    {
      rows := map[];
    }

    method UpsertAddressSnapshot(record: Snapshot)
      modifies this
      ensures rows == old(rows)[record.address :=
                        if record.address in old(rows) then Merge(old(rows)[record.address], record) else record]
    {
      if record.address !in rows {
        rows := rows[record.address := record];
        return;
      }
      var stored := rows[record.address];
      var row := stored;
      if stored.oldestTxMs == 0 || (record.oldestTxMs != 0 && record.oldestTxMs < stored.oldestTxMs) {
        row := row.(oldestTxMs := record.oldestTxMs);
      }
      row := row.(walletAgeDays := Max(stored.walletAgeDays, record.walletAgeDays));
      if stored.firstFunder.None? {
        row := row.(firstFunder := record.firstFunder);
      }
      row := row.(source := record.source);
      row := row.(fetchedAtMs := Max(stored.fetchedAtMs, record.fetchedAtMs));
      rows := rows[record.address := row];
    }

    /** Inserting an address's records one after the other leaves their fold, and no other row changes. */
    method UpsertAll(records: seq<Snapshot>)
      requires records != [] && forall r :: r in records ==> r.address == records[0].address
      requires records[0].address !in rows
      modifies this
      ensures rows == old(rows)[records[0].address := Fold(records)]
    {
      UpsertAddressSnapshot(records[0]);
      for i := 1 to |records|
        invariant rows == old(rows)[records[0].address := Fold(records[..i])]
      {
        assert records[..i + 1][..i] == records[..i] && records[i] in records;
        UpsertAddressSnapshot(records[i]);
      }
      assert records[..|records|] == records;
    }
  }

  // ---------------------------------------------------------------- what the row says

  /** The least time that is known, or 0 if none is. */
  ghost predicate IsOldest(oldest: nat, records: seq<Snapshot>) {
    && (forall r :: r in records && r.oldestTxMs != 0 ==> 0 < oldest <= r.oldestTxMs)
    && (oldest != 0 ==> exists r :: r in records && r.oldestTxMs == oldest)
  }

  ghost predicate IsGreatestAge(days: nat, records: seq<Snapshot>) {
    (forall r :: r in records ==> r.walletAgeDays <= days) && exists r :: r in records && r.walletAgeDays == days
  }

  ghost predicate IsLatestFetch(atMs: nat, records: seq<Snapshot>) {
    (forall r :: r in records ==> r.fetchedAtMs <= atMs) && exists r :: r in records && r.fetchedAtMs == atMs
  }

  /** What the row says about its records, without reference to their order. */
  ghost predicate IsJoin(row: Snapshot, records: seq<Snapshot>) {
    && IsOldest(row.oldestTxMs, records) && IsGreatestAge(row.walletAgeDays, records)
    && IsLatestFetch(row.fetchedAtMs, records)
  }

  /** `f` is the funder of the first record that has one. */
  ghost predicate IsFirstFunder(f: Option<string>, records: seq<Snapshot>) {
    match f
    case None => forall r :: r in records ==> r.firstFunder.None?
    case Some(_) =>
      exists k :: 0 <= k < |records| && records[k].firstFunder == f
        && forall l :: 0 <= l < k ==> records[l].firstFunder.None?
  }

  lemma JoinSnoc(row: Snapshot, records: seq<Snapshot>, r: Snapshot)
    requires IsJoin(row, records)
    ensures IsJoin(Merge(row, r), records + [r])
  {
    var all := records + [r];
    var d :| d in records && d.walletAgeDays == row.walletAgeDays;
    var f :| f in records && f.fetchedAtMs == row.fetchedAtMs;
    assert r in all && d in all && f in all;
    if row.oldestTxMs != 0 {
      var o :| o in records && o.oldestTxMs == row.oldestTxMs;
      assert o in all;
    }
  }

  lemma FunderSnoc(f: Option<string>, records: seq<Snapshot>, r: Snapshot)
    requires IsFirstFunder(f, records)
    ensures IsFirstFunder(if f.Some? then f else r.firstFunder, records + [r])
  {
    var all := records + [r];
    if f.Some? {
      var k :| 0 <= k < |records| && records[k].firstFunder == f
               && forall l :: 0 <= l < k ==> records[l].firstFunder.None?;
      assert all[k].firstFunder == f;
    } else {
      assert all[|records|].firstFunder == r.firstFunder;
      assert forall l :: 0 <= l < |records| ==> all[l] in records;
    }
  }

  /**
   * Whatever was inserted: the oldest known transaction, the greatest age and fetch time of any record, the
   * first known funder, and the last source.
   */
  lemma {:induction false} FoldMeaning(records: seq<Snapshot>)
    requires records != []
    ensures IsJoin(Fold(records), records) && IsFirstFunder(Fold(records).firstFunder, records)
    ensures Fold(records).source == records[|records| - 1].source && Fold(records).address == records[0].address
  {
    var n := |records| - 1;
    if n == 0 {
      assert records[0] in records;
    } else {
      FoldMeaning(records[..n]);
      JoinSnoc(Fold(records[..n]), records[..n], records[n]);
      FunderSnoc(Fold(records[..n]).firstFunder, records[..n], records[n]);
      assert records[..n] + [records[n]] == records;
    }
  }

  // ---------------------------------------------------------------- arrival order

  ghost predicate OneAddress(records: seq<Snapshot>) {
    forall r, q :: r in records && q in records ==> r.address == q.address
  }

  ghost predicate FundersAgree(records: seq<Snapshot>) {
    forall r, q :: r in records && q in records && r.firstFunder.Some? && q.firstFunder.Some? ==>
      r.firstFunder == q.firstFunder
  }

  ghost predicate SourcesAgree(records: seq<Snapshot>) {
    forall r, q :: r in records && q in records ==> r.source == q.source
  }

  ghost predicate OrderFree(records: seq<Snapshot>)
    requires records != []
  {
    forall perm :: Reorders(perm, records) ==> Fold(perm) == Fold(records)
  }

  lemma JoinUnique(a: Snapshot, b: Snapshot, records: seq<Snapshot>, perm: seq<Snapshot>)
    requires IsJoin(a, records) && IsJoin(b, perm)
    requires forall r :: r in perm <==> r in records
    ensures a.oldestTxMs == b.oldestTxMs && a.walletAgeDays == b.walletAgeDays && a.fetchedAtMs == b.fetchedAtMs
  {
  }

  /** Whatever the order of arrival, the row is the same up to its funder and its source. */
  lemma OrderFreeButOrigin(records: seq<Snapshot>, perm: seq<Snapshot>)
    requires Reorders(perm, records) && OneAddress(records)
    ensures records != []
    ensures Fold(perm).(firstFunder := None, source := "") == Fold(records).(firstFunder := None, source := "")
  {
    ReordersMembers(perm, records);
    FoldMeaning(records);
    FoldMeaning(perm);
    assert perm[0] in perm && records[0] in records;
    JoinUnique(Fold(records), Fold(perm), records, perm);
  }

  /**
   * The whole row is independent of the order of arrival if and only if no two known funders and no two sources
   * differ.
   */
  lemma OrderFreeIff(records: seq<Snapshot>)
    requires records != [] && OneAddress(records)
    ensures OrderFree(records) <==> FundersAgree(records) && SourcesAgree(records)
  {
    if FundersAgree(records) && SourcesAgree(records) {
      forall perm | Reorders(perm, records) ensures Fold(perm) == Fold(records) {
        OrderFreeButOrigin(records, perm);
        OriginsAgree(records, perm);
      }
    }
    if OrderFree(records) {
      forall r | r in records
        ensures r.source == Fold(records).source
        ensures r.firstFunder.Some? ==> r.firstFunder == Fold(records).firstFunder
      {
        var i :| 0 <= i < |records| && records[i] == r;
        MovesReorder(records, i);
        FoldMeaning(MovedLast(records, i));
        FoldMeaning(MovedFirst(records, i));
        if r.firstFunder.Some? {
          FirstIsFirst(MovedFirst(records, i), Fold(MovedFirst(records, i)).firstFunder);
        }
      }
    }
  }

  lemma FirstIsFirst(records: seq<Snapshot>, f: Option<string>)
    requires records != [] && IsFirstFunder(f, records) && records[0].firstFunder.Some?
    ensures f == records[0].firstFunder
  {
    assert records[0] in records;
  }

  lemma OriginsAgree(records: seq<Snapshot>, perm: seq<Snapshot>)
    requires Reorders(perm, records) && FundersAgree(records) && SourcesAgree(records)
    ensures records != []
    ensures Fold(perm).firstFunder == Fold(records).firstFunder && Fold(perm).source == Fold(records).source
  {
    ReordersMembers(perm, records);
    FoldMeaning(records);
    FoldMeaning(perm);
    assert perm[|perm| - 1] in perm && records[|records| - 1] in records;
  }
}
