/**
 * The `filter_timelines` upsert. Every text field of the row follows the record that got furthest
 * (gate rank, then latest final time); every gate time keeps its earliest value. Apart from the branch
 * tag the row is therefore a join of the records and does not depend on the order in which they arrive.
 */
module Timelines {
  import opened Reordering
  import opened Wrappers

  /** The nullable times, in column order. */
  datatype Column =
    | Gate1At | Gate1Applied | Gate2At | Gate2Spawned | GateEntered | CacheLookupDone | RefreshReturned
    | RemoteStarted | ResultReady | ResultApplied | Gate3Open | Gate3Trigger | Gate4At

  datatype Times = Times(
    gate1At: Option<nat>, gate1Applied: Option<nat>, gate2At: Option<nat>, gate2Spawned: Option<nat>,
    gateEntered: Option<nat>, cacheLookupDone: Option<nat>, refreshReturned: Option<nat>,
    remoteStarted: Option<nat>, resultReady: Option<nat>, resultApplied: Option<nat>,
    gate3Open: Option<nat>, gate3Trigger: Option<nat>, gate4At: Option<nat>)
  {
    function At(c: Column): Option<nat> {
      match c
      case Gate1At => gate1At
      case Gate1Applied => gate1Applied
      case Gate2At => gate2At
      case Gate2Spawned => gate2Spawned
      case GateEntered => gateEntered
      case CacheLookupDone => cacheLookupDone
      case RefreshReturned => refreshReturned
      case RemoteStarted => remoteStarted
      case ResultReady => resultReady
      case ResultApplied => resultApplied
      case Gate3Open => gate3Open
      case Gate3Trigger => gate3Trigger
      case Gate4At => gate4At
    }
  }

  /** The fields that are replaced together. */
  datatype Verdict = Verdict(decision: string, mode: string, path: string, latencyMs: nat)

  /** A timing record, and equally a stored row. */
  datatype Row = Row(
    mint: string, verdict: Verdict, detectedAtMs: nat, times: Times, branchTag: Option<string>,
    finalAtMs: nat, earlyBuyCount: nat, matchedBuyers: nat)

  /** The furthest gate for which a time is known. */
  function Rank(t: Times): nat {
    if t.gate4At.Some? then 4
    else if t.gate3Trigger.Some? then 3
    else if t.gate2At.Some? then 2
    else if t.gate1At.Some? then 1
    else 0
  }

  function Earliest(a: Option<nat>, b: Option<nat>): Option<nat> {
    if a.None? then b else if b.None? then a else Some(Min(a.value, b.value))
  }

  function MergeTimes(a: Times, b: Times): Times {
    Times(
      Earliest(a.gate1At, b.gate1At), Earliest(a.gate1Applied, b.gate1Applied), Earliest(a.gate2At, b.gate2At),
      Earliest(a.gate2Spawned, b.gate2Spawned), Earliest(a.gateEntered, b.gateEntered),
      Earliest(a.cacheLookupDone, b.cacheLookupDone), Earliest(a.refreshReturned, b.refreshReturned),
      Earliest(a.remoteStarted, b.remoteStarted), Earliest(a.resultReady, b.resultReady),
      Earliest(a.resultApplied, b.resultApplied), Earliest(a.gate3Open, b.gate3Open),
      Earliest(a.gate3Trigger, b.gate3Trigger), Earliest(a.gate4At, b.gate4At))
  }

  /** The later record wins ties. */
  predicate Wins(incoming: Row, stored: Row) {
    || Rank(incoming.times) > Rank(stored.times)
    || (Rank(incoming.times) == Rank(stored.times) && incoming.finalAtMs >= stored.finalAtMs)
  }

  function Merge(stored: Row, incoming: Row): Row {
    var winner := if Wins(incoming, stored) then incoming else stored;
    Row(stored.mint, winner.verdict, Min(stored.detectedAtMs, incoming.detectedAtMs),
        MergeTimes(stored.times, incoming.times),
        if stored.branchTag.Some? then stored.branchTag else incoming.branchTag,
        winner.finalAtMs, Max(stored.earlyBuyCount, incoming.earlyBuyCount),
            Max(stored.matchedBuyers, incoming.matchedBuyers))
  }

  /** The row after all records of one mint have been inserted in this order. */
  function Fold(records: seq<Row>): Row
    requires records != []
  {
    if |records| == 1 then records[0] else Merge(Fold(records[..|records| - 1]), records[|records| - 1])
  }

  /** The table; an insertion rewrites the mint's row in place or creates it. */
  class Table {
    var rows: map<string, Row>

    constructor ()
      ensures rows == map[]
    {
      rows := map[];
    }

    method InsertFilterTiming(record: Row)
      modifies this
      ensures rows == old(rows)[record.mint := if record.mint in old(rows) then Merge(old(rows)[record.mint], record)
          else record]
    {
      if record.mint !in rows {
        rows := rows[record.mint := record];
        return;
      }
      var row := rows[record.mint];
      var stored := row;
      if Wins(record, stored) {
        row := row.(verdict := record.verdict, finalAtMs := record.finalAtMs);
      }
      row := row.(detectedAtMs := Min(stored.detectedAtMs, record.detectedAtMs));
      row := row.(times := MergeTimes(stored.times, record.times));
      if stored.branchTag.None? {
        row := row.(branchTag := record.branchTag);
      }
      row := row.(earlyBuyCount := Max(stored.earlyBuyCount, record.earlyBuyCount));
      row := row.(matchedBuyers := Max(stored.matchedBuyers, record.matchedBuyers));
      rows := rows[record.mint := row];
    }

    /** Inserting a mint's records one after the other leaves their fold, and no other row changes. */
    method InsertAll(records: seq<Row>)
      requires records != [] && forall r :: r in records ==> r.mint == records[0].mint
      requires records[0].mint !in rows
      modifies this
      ensures rows == old(rows)[records[0].mint := Fold(records)]
    {
      InsertFilterTiming(records[0]);
      for i := 1 to |records|
        invariant rows == old(rows)[records[0].mint := Fold(records[..i])]
      {
        assert records[..i + 1][..i] == records[..i] && records[i] in records;
        InsertFilterTiming(records[i]);
      }
      assert records[..|records|] == records;
    }
  }

  // ---------------------------------------------------------------- the join

  /** Lexicographic order on (rank, final time). */
  predicate AtMost(a: Row, b: Row) {
    Rank(a.times) < Rank(b.times) || (Rank(a.times) == Rank(b.times) && a.finalAtMs <= b.finalAtMs)
  }

  predicate SameKey(a: Row, b: Row) {
    Rank(a.times) == Rank(b.times) && a.finalAtMs == b.finalAtMs
  }

  /** `least` is the least of the known times in a column, `None` when there is none. */
  ghost predicate IsEarliest(least: Option<nat>, c: Column, records: seq<Row>) {
    && (forall r :: r in records && r.times.At(c).Some? ==> least.Some? && least.value <= r.times.At(c).value)
    && (least.Some? ==> exists r :: r in records && r.times.At(c) == least)
  }

  ghost predicate JoinsTimes(row: Row, records: seq<Row>) {
    forall c :: IsEarliest(row.times.At(c), c, records)
  }

  /** The row's key is the greatest of its records' keys, and its verdict is that of a record with this key. */
  ghost predicate JoinsVerdict(row: Row, records: seq<Row>) {
    && (forall r :: r in records ==> AtMost(r, row))
    && (exists r :: r in records && SameKey(r, row) && r.verdict == row.verdict)
  }

  ghost predicate JoinsCounts(row: Row, records: seq<Row>) {
    && (forall r :: r in records ==>
          row.detectedAtMs <= r.detectedAtMs && row.earlyBuyCount >= r.earlyBuyCount
              && row.matchedBuyers >= r.matchedBuyers)
    && (exists r :: r in records && row.detectedAtMs == r.detectedAtMs)
    && (exists r :: r in records && row.earlyBuyCount == r.earlyBuyCount)
    && (exists r :: r in records && row.matchedBuyers == r.matchedBuyers)
  }

  /** What the row says about its records, without reference to their order. */
  ghost predicate IsJoin(row: Row, records: seq<Row>) {
    JoinsTimes(row, records) && JoinsVerdict(row, records) && JoinsCounts(row, records)
  }

  lemma MergeTimesAt(a: Times, b: Times, c: Column)
    ensures MergeTimes(a, b).At(c) == Earliest(a.At(c), b.At(c))
  {
  }

  /** Merging times keeps the higher of the two ranks, so the row's rank is that of its best record. */
  lemma MergeRank(a: Times, b: Times)
    ensures Rank(MergeTimes(a, b)) == Max(Rank(a), Rank(b))
  {
  }

  lemma EarliestSnoc(least: Option<nat>, c: Column, records: seq<Row>, r: Row)
    requires IsEarliest(least, c, records)
    ensures IsEarliest(Earliest(least, r.times.At(c)), c, records + [r])
  {
    var both := Earliest(least, r.times.At(c));
    if both.Some? {
      if both == r.times.At(c) {
        assert r in records + [r];
      } else {
        var w :| w in records && w.times.At(c) == least;
        assert w in records + [r];
      }
    }
  }

  lemma TimesSnoc(row: Row, records: seq<Row>, r: Row)
    requires JoinsTimes(row, records)
    ensures JoinsTimes(Merge(row, r), records + [r])
  {
    forall c ensures IsEarliest(Merge(row, r).times.At(c), c, records + [r]) {
      MergeTimesAt(row.times, r.times, c);
      EarliestSnoc(row.times.At(c), c, records, r);
    }
  }

  lemma VerdictSnoc(row: Row, records: seq<Row>, r: Row)
    requires JoinsVerdict(row, records)
    ensures JoinsVerdict(Merge(row, r), records + [r])
  {
    MergeRank(row.times, r.times);
    var w :| w in records && SameKey(w, row) && w.verdict == row.verdict;
    var winner := if Wins(r, row) then r else w;
    assert winner in records + [r];
    assert SameKey(winner, Merge(row, r)) && winner.verdict == Merge(row, r).verdict;
  }

  lemma CountsSnoc(row: Row, records: seq<Row>, r: Row)
    requires JoinsCounts(row, records)
    ensures JoinsCounts(Merge(row, r), records + [r])
  {
    var d :| d in records && row.detectedAtMs == d.detectedAtMs;
    var e :| e in records && row.earlyBuyCount == e.earlyBuyCount;
    var b :| b in records && row.matchedBuyers == b.matchedBuyers;
    var all := records + [r];
    assert r in all && d in all && e in all && b in all;
  }

  lemma JoinSnoc(row: Row, records: seq<Row>, r: Row)
    requires IsJoin(row, records)
    ensures IsJoin(Merge(row, r), records + [r])
  {
    TimesSnoc(row, records, r);
    VerdictSnoc(row, records, r);
    CountsSnoc(row, records, r);
  }

  lemma SingleJoin(r: Row)
    ensures IsJoin(r, [r])
  {
    assert r in [r];
    forall c ensures IsEarliest(r.times.At(c), c, [r]) {
    }
  }

  /** After any insertions the row is the join of the records. */
  lemma {:induction false} FoldIsJoin(records: seq<Row>)
    requires records != []
    ensures IsJoin(Fold(records), records)
  {
    var n := |records| - 1;
    if n == 0 {
      SingleJoin(records[0]);
      assert records == [records[0]];
    } else {
      FoldIsJoin(records[..n]);
      JoinSnoc(Fold(records[..n]), records[..n], records[n]);
      assert records[..n] + [records[n]] == records;
    }
  }

  /** The record shows that the fourth, third, second or first gate was reached. */
  predicate ReachedGate(r: Row, gate: nat) {
    match gate
    case 4 => r.times.gate4At.Some?
    case 3 => r.times.gate3Trigger.Some?
    case 2 => r.times.gate2At.Some?
    case 1 => r.times.gate1At.Some?
    case _ => gate == 0
  }

  predicate FurthestGate(r: Row, gate: nat) {
    ReachedGate(r, gate) && forall g :: gate < g <= 4 ==> !ReachedGate(r, g)
  }

  lemma RankByGate(r: Row, gate: nat)
    requires gate <= 4 && FurthestGate(r, gate)
    ensures Rank(r.times) == gate
  {
    assert ReachedGate(r, 4) <==> r.times.gate4At.Some?;
    assert ReachedGate(r, 3) <==> r.times.gate3Trigger.Some?;
    assert ReachedGate(r, 2) <==> r.times.gate2At.Some?;
    assert ReachedGate(r, 1) <==> r.times.gate1At.Some?;
  }

  /**
   * The row's verdict is that of a record that got as far as any did, and among those that got as far one whose
   * final time is the latest.
   */
  lemma VerdictGotFurthest(records: seq<Row>) returns (w: Row, gate: nat)
    requires records != []
    ensures w in records && gate <= 4 && FurthestGate(w, gate) && Fold(records).verdict == w.verdict
    ensures forall r, g: nat :: r in records && gate < g <= 4 ==> !ReachedGate(r, g)
    ensures forall r :: r in records && FurthestGate(r, gate) ==> r.finalAtMs <= w.finalAtMs
  {
    FoldIsJoin(records);
    w :| w in records && SameKey(w, Fold(records)) && w.verdict == Fold(records).verdict;
    gate := Furthest(w);
    RankByGate(w, gate);
    forall r | r in records
      ensures forall g: nat :: gate < g <= 4 ==> !ReachedGate(r, g)
      ensures FurthestGate(r, gate) ==> r.finalAtMs <= w.finalAtMs
    {
      assert AtMost(r, Fold(records));
      var g := Furthest(r);
      RankByGate(r, g);
      forall h: nat | gate < h <= 4 ensures !ReachedGate(r, h) {
        assert g <= gate;
      }
    }
  }

  lemma Furthest(r: Row) returns (gate: nat)
    ensures gate <= 4 && FurthestGate(r, gate)
  {
    gate := 4;
    while !ReachedGate(r, gate)
      invariant gate <= 4 && forall g :: gate < g <= 4 ==> !ReachedGate(r, g)
      decreases gate
    {
      gate := gate - 1;
    }
  }

  // ---------------------------------------------------------------- arrival order

  ghost predicate Top(r: Row, records: seq<Row>) {
    r in records && forall x :: x in records ==> AtMost(x, r)
  }

  /** Records that tie for the furthest gate and latest final time say the same. */
  ghost predicate TopAgrees(records: seq<Row>) {
    forall r, q :: Top(r, records) && Top(q, records) ==> r.verdict == q.verdict
  }

  ghost predicate TagsAgree(records: seq<Row>) {
    forall r, q :: r in records && q in records && r.branchTag.Some? && q.branchTag.Some? ==> r.branchTag == q.branchTag
  }

  ghost predicate OneMint(records: seq<Row>) {
    forall r, q :: r in records && q in records ==> r.mint == q.mint
  }

  /** The gate times of a join are determined by its records. */
  lemma EarliestUnique(a: Option<nat>, b: Option<nat>, c: Column, records: seq<Row>, perm: seq<Row>)
    requires IsEarliest(a, c, records) && IsEarliest(b, c, perm)
    requires forall r :: r in perm <==> r in records
    ensures a == b
  {
  }

  lemma TimesByColumn(a: Times, b: Times)
    requires forall c :: a.At(c) == b.At(c)
    ensures a == b
  {
    assert a.At(Gate1At) == b.At(Gate1At) && a.At(Gate1Applied) == b.At(Gate1Applied);
    assert a.At(Gate2At) == b.At(Gate2At) && a.At(Gate2Spawned) == b.At(Gate2Spawned);
    assert a.At(GateEntered) == b.At(GateEntered) && a.At(CacheLookupDone) == b.At(CacheLookupDone);
    assert a.At(RefreshReturned) == b.At(RefreshReturned) && a.At(RemoteStarted) == b.At(RemoteStarted);
    assert a.At(ResultReady) == b.At(ResultReady) && a.At(ResultApplied) == b.At(ResultApplied);
    assert a.At(Gate3Open) == b.At(Gate3Open) && a.At(Gate3Trigger) == b.At(Gate3Trigger);
    assert a.At(Gate4At) == b.At(Gate4At);
  }

  lemma TimesUnique(a: Row, b: Row, records: seq<Row>, perm: seq<Row>)
    requires JoinsTimes(a, records) && JoinsTimes(b, perm)
    requires forall r :: r in perm <==> r in records
    ensures a.times == b.times
  {
    forall c ensures a.times.At(c) == b.times.At(c) {
      EarliestUnique(a.times.At(c), b.times.At(c), c, records, perm);
    }
    TimesByColumn(a.times, b.times);
  }

  lemma VerdictUnique(a: Row, b: Row, records: seq<Row>, perm: seq<Row>)
    requires JoinsVerdict(a, records) && JoinsVerdict(b, perm) && TopAgrees(records)
    requires forall r :: r in perm <==> r in records
    ensures a.verdict == b.verdict && SameKey(a, b)
  {
    var r :| r in records && SameKey(r, a) && r.verdict == a.verdict;
    var q :| q in perm && SameKey(q, b) && q.verdict == b.verdict;
    assert AtMost(q, a) && AtMost(r, b);
    assert Top(r, records) && Top(q, records);
  }

  lemma CountsUnique(a: Row, b: Row, records: seq<Row>, perm: seq<Row>)
    requires JoinsCounts(a, records) && JoinsCounts(b, perm)
    requires forall r :: r in perm <==> r in records
    ensures a.detectedAtMs == b.detectedAtMs && a.earlyBuyCount == b.earlyBuyCount && a.matchedBuyers == b.matchedBuyers
  {
  }

  function FirstTag(records: seq<Row>): Option<string> {
    if records == [] then None
    else if records[0].branchTag.Some? then records[0].branchTag
    else FirstTag(records[1..])
  }

  /** The branch tag is the first known one in order of arrival. */
  lemma {:induction false} FoldTag(records: seq<Row>)
    requires records != []
    ensures Fold(records).branchTag == FirstTag(records)
    ensures Fold(records).mint == records[0].mint
  {
    var n := |records| - 1;
    if n > 0 {
      FoldTag(records[..n]);
      FirstTagSnoc(records[..n], records[n]);
      assert records == records[..n] + [records[n]];
    }
  }

  lemma {:induction false} FirstTagSnoc(records: seq<Row>, r: Row)
    ensures FirstTag(records + [r]) == if FirstTag(records).Some? then FirstTag(records) else r.branchTag
  {
    if records != [] {
      FirstTagSnoc(records[1..], r);
      assert (records + [r])[1..] == records[1..] + [r];
    }
  }

  lemma {:induction false} FirstTagMember(records: seq<Row>)
    ensures FirstTag(records).Some? ==> exists r :: r in records && r.branchTag == FirstTag(records)
    ensures FirstTag(records).None? ==> forall r :: r in records ==> r.branchTag.None?
  {
    if records != [] {
      FirstTagMember(records[1..]);
    }
  }

  /** Whatever the order of arrival, the row is the same up to its branch tag, as long as the top records agree. */
  lemma OrderFreeButTag(records: seq<Row>, perm: seq<Row>)
    requires Reorders(perm, records) && OneMint(records) && TopAgrees(records)
    ensures records != []
    ensures Fold(perm).(branchTag := None) == Fold(records).(branchTag := None)
  {
    ReordersMembers(perm, records);
    FoldIsJoin(records);
    FoldIsJoin(perm);
    FoldTag(records);
    FoldTag(perm);
    assert perm[0] in perm && records[0] in records;
    TimesUnique(Fold(records), Fold(perm), records, perm);
    VerdictUnique(Fold(records), Fold(perm), records, perm);
    CountsUnique(Fold(records), Fold(perm), records, perm);
  }

  /** Records with pairwise distinct keys trivially agree at the top. */
  lemma DistinctKeysAgree(records: seq<Row>)
    requires forall r, q :: r in records && q in records && SameKey(r, q) ==> r == q
    ensures TopAgrees(records)
  {
    forall r, q | Top(r, records) && Top(q, records) ensures r.verdict == q.verdict {
      assert AtMost(r, q) && AtMost(q, r);
    }
  }

  /** A top record that arrives last decides the verdict. */
  lemma TopLastWins(records: seq<Row>)
    requires records != [] && Top(records[|records| - 1], records)
    ensures Fold(records).verdict == records[|records| - 1].verdict
  {
    var n := |records| - 1;
    if n > 0 {
      FoldIsJoin(records[..n]);
      var w :| w in records[..n] && SameKey(w, Fold(records[..n])) && w.verdict == Fold(records[..n]).verdict;
      assert w in records && AtMost(w, records[n]);
    }
  }

  ghost predicate OrderFree(records: seq<Row>)
    requires records != []
  {
    forall perm :: Reorders(perm, records) ==> Fold(perm) == Fold(records)
  }

  /**
   * The whole row is independent of the order of arrival if and only if the records that tie at the top
   * say the same and no two known branch tags differ.
   */
  lemma OrderFreeIff(records: seq<Row>)
    requires records != [] && OneMint(records)
    ensures OrderFree(records) <==> TopAgrees(records) && TagsAgree(records)
  {
    if TopAgrees(records) && TagsAgree(records) {
      forall perm | Reorders(perm, records) ensures Fold(perm) == Fold(records) {
        OrderFreeButTag(records, perm);
        ReordersMembers(perm, records);
        FoldTag(records);
        FoldTag(perm);
        FirstTagMember(records);
        FirstTagMember(perm);
      }
    }
    if OrderFree(records) {
      forall r | Top(r, records) ensures r.verdict == Fold(records).verdict {
        var i :| 0 <= i < |records| && records[i] == r;
        MovesReorder(records, i);
        ReordersMembers(MovedLast(records, i), records);
        TopLastWins(MovedLast(records, i));
      }
      forall r | r in records && r.branchTag.Some? ensures r.branchTag == Fold(records).branchTag {
        var i :| 0 <= i < |records| && records[i] == r;
        MovesReorder(records, i);
        FoldTag(MovedFirst(records, i));
      }
    }
  }
}
