/**
 * The `filter_results` upsert. It looks like the timeline upsert, but the stored `ts` is the maximum
 * over all records, also over those whose fields lost. A record of equal rank is therefore compared
 * with times that may not belong to the stored fields, and the outcome can depend on the order of arrival.
 */
module FilterResults {
  import opened Reordering
  import opened Wrappers

  /** The columns that are replaced together. */
  datatype Fields = Fields(
    creator: string, symbol: string, passed: bool, rejectGate: Option<string>, score: Option<nat>, reason: string)

  /** A result record, and equally a stored row. */
  datatype Row = Row(mint: string, fields: Fields, ts: nat)

  function Rank(f: Fields): nat {
    if f.passed then 5
    else if f.rejectGate == Some("gate4") then 4
    else if f.rejectGate == Some("gate3") then 3
    else if f.rejectGate == Some("gate2") then 2
    else if f.rejectGate == Some("gate1") then 1
    else 0
  }

  predicate Wins(incoming: Row, stored: Row) {
    || Rank(incoming.fields) > Rank(stored.fields)
    || (Rank(incoming.fields) == Rank(stored.fields) && incoming.ts >= stored.ts)
  }

  function Merge(stored: Row, incoming: Row): Row {
    Row(stored.mint, if Wins(incoming, stored) then incoming.fields else stored.fields, Max(stored.ts, incoming.ts))
  }

  function Fold(records: seq<Row>): Row
    requires records != []
  {
    if |records| == 1 then records[0] else Merge(Fold(records[..|records| - 1]), records[|records| - 1])
  }

  class Table {
    var rows: map<string, Row>

    constructor ()
      ensures rows == map[]
    {
      rows := map[];
    }

    /** A conflicting record rewrites the row column by column. */
    method InsertFilterResult(record: Row)
      modifies this
      ensures rows == old(rows)[record.mint := if record.mint in old(rows) then Merge(old(rows)[record.mint], record)
          else record]
      ensures record.mint in old(rows) && old(rows)[record.mint].fields.passed ==> rows[record.mint].fields.passed
    {
      if record.mint !in rows {
        rows := rows[record.mint := record];
        return;
      }
      var row := rows[record.mint];
      var wins := Wins(record, row);
      var (r, f) := (record.fields, row.fields);
      if wins {
        f := f.(creator := r.creator, symbol := r.symbol);
        f := f.(passed := r.passed, rejectGate := r.rejectGate);
        f := f.(score := r.score, reason := r.reason);
      }
      row := row.(fields := f);
      row := row.(ts := Max(row.ts, record.ts));
      rows := rows[record.mint := row];
    }
  }

  // ---------------------------------------------------------------- which record the row holds

  predicate TopAt(records: seq<Row>, i: nat)
    requires i < |records|
  {
    forall j :: 0 <= j < |records| ==> Rank(records[j].fields) <= Rank(records[i].fields)
  }

  /** No earlier record, of whatever rank, has a later time. */
  predicate DominatesAt(records: seq<Row>, i: nat)
    requires i < |records|
  {
    forall j :: 0 <= j < i ==> records[j].ts <= records[i].ts
  }

  predicate FirstTopAt(records: seq<Row>, i: nat)
    requires i < |records|
  {
    TopAt(records, i) && forall j: nat :: j < i ==> !TopAt(records, j)
  }

  /**
   * The record that the row's fields come from: among the records of the highest rank, the last one that
   * is either the first of them or at least as late as everything before it.
   */
  predicate IsLeader(records: seq<Row>, i: nat) {
    && i < |records| && TopAt(records, i)
    && (FirstTopAt(records, i) || DominatesAt(records, i))
    && forall k: nat :: i < k < |records| && TopAt(records, k) ==> !DominatesAt(records, k)
  }

  predicate IsMaxTs(records: seq<Row>, ts: nat) {
    && (forall j :: 0 <= j < |records| ==> records[j].ts <= ts)
    && exists j :: 0 <= j < |records| && records[j].ts == ts
  }

  lemma TopSnoc(records: seq<Row>, r: Row, i: nat)
    requires i < |records| && TopAt(records, i)
    ensures TopAt(records + [r], i) <==> Rank(r.fields) <= Rank(records[i].fields)
    ensures TopAt(records + [r], |records|) <==> Rank(r.fields) >= Rank(records[i].fields)
    ensures Rank(r.fields) <= Rank(records[i].fields) ==>
              forall j: nat :: j < |records| ==> (TopAt(records + [r], j) <==> TopAt(records, j))
  {
    var all := records + [r];
    assert all[i] == records[i] && all[|records|] == r;
    assert forall j :: 0 <= j < |records| ==> all[j] == records[j];
  }

  lemma LeaderSnoc(records: seq<Row>, r: Row, i: nat, ts: nat)
    requires IsLeader(records, i) && IsMaxTs(records, ts)
    ensures IsLeader(records + [r], if Wins(r, Row(r.mint, records[i].fields, ts)) then |records| else i)
    ensures IsMaxTs(records + [r], Max(ts, r.ts))
  {
    var all, n := records + [r], |records|;
    TopSnoc(records, r, i);
    assert forall j :: 0 <= j < n ==> all[j] == records[j];
    assert all[n] == r;
    assert DominatesAt(all, n) <==> r.ts >= ts;
    forall k: nat | k < n ensures DominatesAt(all, k) <==> DominatesAt(records, k) {
    }
    if Rank(r.fields) > Rank(records[i].fields) {
      forall j: nat | j < n ensures !TopAt(all, j) {
        assert all[n] == r && Rank(all[j].fields) <= Rank(records[i].fields);
      }
    }
  }

  /** For every list of records: the row's fields are those of the leader, and its time is the latest. */
  lemma {:induction false} FoldLeader(records: seq<Row>) returns (i: nat)
    requires records != []
    ensures IsLeader(records, i) && Fold(records).fields == records[i].fields
    ensures IsMaxTs(records, Fold(records).ts)
    ensures Fold(records).mint == records[0].mint
  {
    var n := |records| - 1;
    if n == 0 {
      i := 0;
    } else {
      var before := records[..n];
      i := FoldLeader(before);
      LeaderSnoc(before, records[n], i, Fold(before).ts);
      assert records == before + [records[n]];
      if Wins(records[n], Fold(before)) {
        i := n;
      }
    }
  }

  lemma LeaderIsLast(records: seq<Row>, i: nat, j: nat)
    requires IsLeader(records, i) && i < j
    ensures !IsLeader(records, j)
  {
    if j < |records| && TopAt(records, j) {
      assert !DominatesAt(records, j);
    }
  }

  lemma LeaderUnique(records: seq<Row>, i: nat, j: nat)
    requires IsLeader(records, i) && IsLeader(records, j)
    ensures i == j
  {
    if i < j {
      LeaderIsLast(records, i, j);
    } else if j < i {
      LeaderIsLast(records, j, i);
    }
  }

  /** The stored rank is the highest rank ever inserted; in particular a pass is never replaced by a reject. */
  lemma RankIsHighest(records: seq<Row>)
    requires records != []
    ensures forall r :: r in records ==> Rank(r.fields) <= Rank(Fold(records).fields)
    ensures (exists r :: r in records && r.fields.passed) ==> Fold(records).fields.passed
  {
    var i := FoldLeader(records);
  }

  /** How far a result got: a reject at the gate of this number, with 5 for a pass. */
  predicate GotTo(f: Fields, gate: nat) {
    match gate
    case 5 => f.passed
    case 4 => !f.passed && f.rejectGate == Some("gate4")
    case 3 => !f.passed && f.rejectGate == Some("gate3")
    case 2 => !f.passed && f.rejectGate == Some("gate2")
    case 1 => !f.passed && f.rejectGate == Some("gate1")
    case _ => false
  }

  lemma RankByGate(f: Fields, gate: nat)
    requires 1 <= gate <= 5
    ensures Rank(f) == gate <==> GotTo(f, gate)
    ensures Rank(f) <= 5
  {
    assert "gate1"[4] != "gate2"[4] && "gate1"[4] != "gate3"[4] && "gate1"[4] != "gate4"[4];
    assert "gate2"[4] != "gate3"[4] && "gate2"[4] != "gate4"[4] && "gate3"[4] != "gate4"[4];
  }

  /** The row got exactly as far as its records did: a pass outlasts every reject, a later gate an earlier one. */
  lemma RowGotFurthest(records: seq<Row>, gate: nat)
    requires records != [] && 1 <= gate <= 5
    ensures GotTo(Fold(records).fields, gate) <==>
              && (exists r :: r in records && GotTo(r.fields, gate))
              && (forall r, g: nat :: r in records && gate < g <= 5 ==> !GotTo(r.fields, g))
  {
    var i := FoldLeader(records);
    assert records[i] in records && TopAt(records, i);
    RankByGate(records[i].fields, gate);
    forall r | r in records
      ensures Rank(r.fields) <= Rank(records[i].fields)
      ensures forall g: nat :: 1 <= g <= 5 ==> (Rank(r.fields) == g <==> GotTo(r.fields, g))
    {
      var j :| 0 <= j < |records| && records[j] == r;
      forall g: nat | 1 <= g <= 5 ensures Rank(r.fields) == g <==> GotTo(r.fields, g) {
        RankByGate(r.fields, g);
      }
    }
    if exists r :: r in records && GotTo(r.fields, gate) {
      var top := Rank(records[i].fields);
      assert top >= gate;
      if top > gate {
        assert GotTo(records[i].fields, top);
      }
    }
  }

  predicate LastTopAt(records: seq<Row>, i: nat) {
    && i < |records| && TopAt(records, i)
    && forall k: nat :: i < k < |records| ==> !TopAt(records, k)
  }

  /**
   * The row holds the last record of the highest rank if that record is the only one of its rank or no
   * record before it was later; and only then, unless an earlier record of that rank says the same.
   */
  lemma LastTopHeldIff(records: seq<Row>, last: nat)
    requires records != [] && LastTopAt(records, last)
    ensures FirstTopAt(records, last) || DominatesAt(records, last) ==> Fold(records).fields == records[last].fields
    ensures (forall i: nat :: i < last && TopAt(records, i) ==> records[i].fields != records[last].fields) ==>
              (Fold(records).fields == records[last].fields <==>
                  FirstTopAt(records, last) || DominatesAt(records, last))
  {
    var i := FoldLeader(records);
    if FirstTopAt(records, last) || DominatesAt(records, last) {
      assert IsLeader(records, last);
      LeaderUnique(records, i, last);
    } else {
      assert TopAt(records, i) && i < last;
    }
  }

  /** Records that arrive in time order: the row is the last record of the highest rank. */
  lemma TimeOrderedHoldsLastTop(records: seq<Row>, last: nat)
    requires records != [] && LastTopAt(records, last)
    requires forall i, j :: 0 <= i < j < |records| ==> records[i].ts <= records[j].ts
    ensures Fold(records).fields == records[last].fields
    ensures Fold(records).ts == records[|records| - 1].ts
  {
    assert DominatesAt(records, last);
    LastTopHeldIff(records, last);
    var i := FoldLeader(records);
    LatestIsLast(records, Fold(records).ts);
  }

  lemma LatestIsLast(records: seq<Row>, ts: nat)
    requires records != [] && IsMaxTs(records, ts)
    requires forall i, j :: 0 <= i < j < |records| ==> records[i].ts <= records[j].ts
    ensures ts == records[|records| - 1].ts
  {
    var j :| 0 <= j < |records| && records[j].ts == ts;
  }

  // ---------------------------------------------------------------- arrival order

  predicate Top(r: Row, records: seq<Row>) {
    r in records && forall x :: x in records ==> Rank(x.fields) <= Rank(r.fields)
  }

  predicate Latest(r: Row, records: seq<Row>) {
    forall x :: x in records ==> x.ts <= r.ts
  }

  /**
   * The records that can end up in the row for some order of arrival: those of the highest rank with the
   * latest time of all, or every record of the highest rank if none of them has that time.
   */
  ghost predicate Contender(r: Row, records: seq<Row>) {
    Top(r, records) && (Latest(r, records) || forall q :: Top(q, records) ==> !Latest(q, records))
  }

  lemma SameContenders(perm: seq<Row>, records: seq<Row>)
    requires Reorders(perm, records)
    ensures forall r :: Contender(r, perm) <==> Contender(r, records)
  {
    ReordersMembers(perm, records);
    forall r ensures (Top(r, perm) <==> Top(r, records)) && (Latest(r, perm) <==> Latest(r, records)) {
    }
  }

  lemma LeaderContends(records: seq<Row>, i: nat)
    requires IsLeader(records, i)
    ensures Contender(records[i], records)
  {
    assert Top(records[i], records) by {
      forall x | x in records ensures Rank(x.fields) <= Rank(records[i].fields) {
        var j :| 0 <= j < |records| && records[j] == x;
      }
    }
    forall q | Top(q, records) && Latest(q, records) ensures Latest(records[i], records) {
      var k :| 0 <= k < |records| && records[k] == q;
      assert TopAt(records, k) by {
        forall j | 0 <= j < |records| ensures Rank(records[j].fields) <= Rank(records[k].fields) {
          assert records[j] in records;
        }
      }
      assert DominatesAt(records, k) by {
        forall j | 0 <= j < k ensures records[j].ts <= records[k].ts {
          assert records[j] in records;
        }
      }
      assert !(i < k);
      if k < i {
        assert !FirstTopAt(records, i);
        assert DominatesAt(records, i);
      }
    }
  }

  /** Some order of arrival makes a given contender the leader. */
  lemma ContenderCanLead(records: seq<Row>, r: Row) returns (perm: seq<Row>)
    requires Contender(r, records)
    ensures Reorders(perm, records) && Fold(perm).fields == r.fields
  {
    var i :| 0 <= i < |records| && records[i] == r;
    if Latest(r, records) {
      perm := MovedLast(records, i);
      MovesReorder(records, i);
      ReordersMembers(perm, records);
      SameContenders(perm, records);
      LatestTopLastLeads(perm, |perm| - 1);
    } else {
      perm := BehindLatest(records, i);
      ReordersMembers(perm, records);
      SameContenders(perm, records);
      OvertakenFirstLeads(perm, r);
    }
  }

  /** The records with a given one in second place behind one with the latest time. */
  lemma BehindLatest(records: seq<Row>, i: nat) returns (perm: seq<Row>)
    requires i < |records| && !Latest(records[i], records)
    ensures Reorders(perm, records) && |perm| > 1 && perm[1] == records[i] && Latest(perm[0], perm)
  {
    var x := LatestOf(records);
    var with := MovedFirst(records, i);
    MovesReorder(records, i);
    assert x in with by {
      ReordersMembers(with, records);
    }
    var k :| 0 <= k < |with| && with[k] == x;
    assert with[0] == records[i] && k != 0;
    perm := MovedFirst(with, k);
    MovesReorder(with, k);
    assert perm[0] == x && perm[1] == with[0];
    assert Latest(x, perm) by {
      ReordersMembers(perm, records);
    }
  }

  lemma LatestTopLastLeads(perm: seq<Row>, n: nat)
    requires perm != [] && n == |perm| - 1
    requires Top(perm[n], perm) && Latest(perm[n], perm)
    ensures Fold(perm).fields == perm[n].fields
  {
    forall j | 0 <= j < |perm|
      ensures Rank(perm[j].fields) <= Rank(perm[n].fields) && perm[j].ts <= perm[n].ts
    {
      assert perm[j] in perm;
    }
    assert TopAt(perm, n) && DominatesAt(perm, n);
    assert IsLeader(perm, n);
    var i := FoldLeader(perm);
    LeaderUnique(perm, i, n);
  }

  /** After a late record of lower rank, the first record of the highest rank stays. */
  lemma OvertakenFirstLeads(perm: seq<Row>, r: Row)
    requires |perm| > 1 && perm[1] == r && Contender(r, perm) && !Latest(r, perm) && Latest(perm[0], perm)
    ensures Fold(perm).fields == r.fields
  {
    assert TopAt(perm, 1) by {
      forall j | 0 <= j < |perm| ensures Rank(perm[j].fields) <= Rank(perm[1].fields) {
        assert perm[j] in perm;
      }
    }
    forall k: nat | k < |perm| && TopAt(perm, k) ensures k != 0 && (k > 1 ==> !DominatesAt(perm, k)) {
      assert Top(perm[k], perm) by {
        forall x | x in perm ensures Rank(x.fields) <= Rank(perm[k].fields) {
          var j :| 0 <= j < |perm| && perm[j] == x;
        }
      }
      assert !Latest(perm[k], perm);
      assert perm[0].ts > perm[k].ts;
    }
    assert FirstTopAt(perm, 1);
    assert IsLeader(perm, 1);
    var i := FoldLeader(perm);
    LeaderUnique(perm, i, 1);
  }

  lemma {:induction false} LatestOf(records: seq<Row>) returns (r: Row)
    requires records != []
    ensures r in records && Latest(r, records)
  {
    r := records[0];
    if |records| > 1 {
      var q := LatestOf(records[1..]);
      if q.ts > r.ts {
        r := q;
      }
      assert records == [records[0]] + records[1..];
    }
  }

  ghost predicate OneMint(records: seq<Row>) {
    forall r, q :: r in records && q in records ==> r.mint == q.mint
  }

  ghost predicate OrderFree(records: seq<Row>)
    requires records != []
  {
    forall perm :: Reorders(perm, records) ==> Fold(perm) == Fold(records)
  }

  ghost predicate ContendersAgree(records: seq<Row>) {
    forall r, q :: Contender(r, records) && Contender(q, records) ==> r.fields == q.fields
  }

  lemma RowIsAContender(records: seq<Row>) returns (r: Row)
    requires records != []
    ensures Contender(r, records) && Fold(records).fields == r.fields
  {
    var i := FoldLeader(records);
    LeaderContends(records, i);
    r := records[i];
  }

  lemma SameLatestTime(records: seq<Row>, perm: seq<Row>)
    requires Reorders(perm, records)
    ensures records != [] && Fold(perm).ts == Fold(records).ts
  {
    ReordersMembers(perm, records);
    var _ := FoldLeader(records);
    var _ := FoldLeader(perm);
    MaxTsAtMost(records, perm, Fold(records).ts, Fold(perm).ts);
    MaxTsAtMost(perm, records, Fold(perm).ts, Fold(records).ts);
  }

  lemma MaxTsAtMost(records: seq<Row>, perm: seq<Row>, a: nat, b: nat)
    requires IsMaxTs(records, a) && IsMaxTs(perm, b) && forall r :: r in records ==> r in perm
    ensures a <= b
  {
    var i :| 0 <= i < |records| && records[i].ts == a;
    assert records[i] in perm;
  }

  lemma AgreeingContendersFixTheRow(records: seq<Row>, perm: seq<Row>)
    requires Reorders(perm, records) && OneMint(records) && ContendersAgree(records)
    ensures records != [] && Fold(perm) == Fold(records)
  {
    ReordersMembers(perm, records);
    SameContenders(perm, records);
    var r := RowIsAContender(records);
    var q := RowIsAContender(perm);
    SameLatestTime(records, perm);
    var _ := FoldLeader(records);
    var _ := FoldLeader(perm);
    assert perm[0] in perm && records[0] in records;
  }

  lemma EveryContenderIsTheRow(records: seq<Row>, r: Row)
    requires records != [] && OrderFree(records) && Contender(r, records)
    ensures r.fields == Fold(records).fields
  {
    var perm := ContenderCanLead(records, r);
  }

  /** The row is independent of the order of arrival if and only if all contenders say the same. */
  lemma OrderFreeIff(records: seq<Row>)
    requires records != [] && OneMint(records)
    ensures OrderFree(records) <==> ContendersAgree(records)
  {
    if OrderFree(records) {
      forall r | Contender(r, records) ensures r.fields == Fold(records).fields {
        EveryContenderIsTheRow(records, r);
      }
    }
    if ContendersAgree(records) {
      forall perm | Reorders(perm, records) ensures Fold(perm) == Fold(records) {
        AgreeingContendersFixTheRow(records, perm);
      }
    }
  }

  /** A low-ranked record with a late time freezes the first of two higher-ranked records that follow it. */
  lemma OrderDependenceWitness()
    ensures var low := Row("m", Fields("c", "s", false, Some("gate1"), None, "low"), 10);
            var a := Row("m", Fields("c", "s", false, Some("gate3"), None, "a"), 1);
            var b := Row("m", Fields("c", "s", false, Some("gate3"), None, "b"), 2);
            && multiset([low, a, b]) == multiset([a, b, low])
            && Fold([low, a, b]).fields == a.fields
            && Fold([a, b, low]).fields == b.fields
            && a.fields != b.fields
  {
    var low := Row("m", Fields("c", "s", false, Some("gate1"), None, "low"), 10);
    var a := Row("m", Fields("c", "s", false, Some("gate3"), None, "a"), 1);
    var b := Row("m", Fields("c", "s", false, Some("gate3"), None, "b"), 2);
    var (x, y) := ([low, a, b], [a, b, low]);
    assert x[..2] == [low, a] && x[..2][..1] == [low];
    assert y[..2] == [a, b] && y[..2][..1] == [a];
    assert Fold([low, a]) == Row("m", a.fields, 10);
    assert Fold([a, b]) == Row("m", b.fields, 2);
    assert a.fields.reason[0] != b.fields.reason[0];
  }
}
