/** Several feeds deliver the same buy. The first delivery is kept and later ones may improve it. */
module BuyFeed {
  import opened Wrappers
  import opened FilterTypes

  function AsciiLower(c: char): char {
    if 'A' <= c <= 'Z' then (c as int + 32) as char else c
  }

  function Lowered(s: string): string {
    seq(|s|, i requires 0 <= i < |s| => AsciiLower(s[i]))
  }

  predicate Contains(s: string, part: string) {
    |part| <= |s| && (s[..|part|] == part || (s != [] && Contains(s[1..], part)))
  }

  /** Pre-execution ("deshred") feeds rank below the feeds that have seen the transaction processed. */
  function FeedRank(source: string): nat {
    if Contains(Lowered(source), "deshred") then 0 else 1
  }

  /** The name contains "deshred", each letter in either case. */
  ghost predicate NamesDeshred(source: string) {
    exists i: nat :: DeshredAt(source, i)
  }

  predicate DeshredAt(source: string, i: nat) {
    && i + 7 <= |source|
    && source[i] in {'d', 'D'} && source[i + 1] in {'e', 'E'} && source[i + 2] in {'s', 'S'}
    && source[i + 3] in {'h', 'H'} && source[i + 4] in {'r', 'R'} && source[i + 5] in {'e', 'E'}
    && source[i + 6] in {'d', 'D'}
  }

  predicate OccursAt(s: string, part: string, i: nat) {
    i + |part| <= |s| && s[i..i + |part|] == part
  }

  lemma {:induction false} ContainsAt(s: string, part: string)
    ensures Contains(s, part) <==> exists i: nat :: OccursAt(s, part, i)
  {
    assert OccursAt(s, part, 0) <==> |part| <= |s| && s[..|part|] == part;
    if s != [] {
      ContainsAt(s[1..], part);
      forall i: nat ensures OccursAt(s[1..], part, i) <==> OccursAt(s, part, i + 1) {
        assert i + 1 + |part| <= |s| ==> s[1..][i..i + |part|] == s[i + 1..i + 1 + |part|];
      }
      if i: nat :| OccursAt(s, part, i) && i > 0 {
        assert OccursAt(s[1..], part, i - 1);
      }
    }
  }

  lemma LoweredDeshred(source: string, i: nat)
    ensures OccursAt(Lowered(source), "deshred", i) <==> DeshredAt(source, i)
  {
    if i + 7 <= |source| {
      var low := Lowered(source);
      assert forall j :: i <= j < i + 7 ==> low[j] == AsciiLower(source[j]);
      assert low[i..i + 7] == [low[i], low[i + 1], low[i + 2], low[i + 3], low[i + 4], low[i + 5], low[i + 6]];
    }
  }

  lemma NamedDeshred(source: string)
    ensures Contains(Lowered(source), "deshred") <==> NamesDeshred(source)
  {
    ContainsAt(Lowered(source), "deshred");
    forall i: nat ensures OccursAt(Lowered(source), "deshred", i) <==> DeshredAt(source, i) {
      LoweredDeshred(source, i);
    }
  }

  /** Of two feeds, one outranks the other exactly when only the other's name contains "deshred". */
  lemma RanksByName(better: string, worse: string)
    ensures FeedRank(better) > FeedRank(worse) <==> !NamesDeshred(better) && NamesDeshred(worse)
  {
    NamedDeshred(better);
    NamedDeshred(worse);
  }

  /** A later delivery raises the SOL estimate, and replaces the instruction if its feed ranks higher. */
  function Upgrade(existing: Buy, incoming: Buy): Buy {
    var richer := existing.(lamports := Max(existing.lamports, incoming.lamports));
    if FeedRank(incoming.feedSource) > FeedRank(existing.feedSource) then
      richer.(feedSource := incoming.feedSource, tokenProgram := incoming.tokenProgram,
              instructionData := incoming.instructionData, instructionAccounts := incoming.instructionAccounts)
    else richer
  }

  /** The in-place update; the flag says whether anything changed. */
  method UpgradeExistingBuyEvent(existing: Buy, incoming: Buy) returns (buy: Buy, upgraded: bool)
    ensures buy == Upgrade(existing, incoming)
    ensures upgraded <==> buy != existing
    ensures SameInstruction(buy, if NamesDeshred(existing.feedSource) && !NamesDeshred(incoming.feedSource)
                                 then incoming else existing)
  {
    RanksByName(incoming.feedSource, existing.feedSource);
    buy, upgraded := existing, false;
    if incoming.lamports > existing.lamports {
      buy := buy.(lamports := incoming.lamports);
      upgraded := true;
    }
    if FeedRank(incoming.feedSource) > FeedRank(existing.feedSource) {
      buy := buy.(feedSource := incoming.feedSource, tokenProgram := incoming.tokenProgram);
      buy := buy.(instructionData := incoming.instructionData, instructionAccounts := incoming.instructionAccounts);
      upgraded := true;
    }
  }

  /** What is stored after a series of deliveries of one buy. */
  function Absorb(deliveries: seq<Buy>): Buy
    requires deliveries != []
  {
    if |deliveries| == 1 then deliveries[0]
    else Upgrade(Absorb(deliveries[..|deliveries| - 1]), deliveries[|deliveries| - 1])
  }

  predicate SameInstruction(a: Buy, b: Buy) {
    a.feedSource == b.feedSource && a.tokenProgram == b.tokenProgram
    && a.instructionData == b.instructionData && a.instructionAccounts == b.instructionAccounts
  }

  /** `k` is the first delivery from the best-ranked feed. */
  predicate FirstBest(deliveries: seq<Buy>, k: nat) {
    && k < |deliveries|
    && (forall j :: 0 <= j < |deliveries| ==> FeedRank(deliveries[j].feedSource) <= FeedRank(deliveries[k].feedSource))
    && (forall j :: 0 <= j < k ==> FeedRank(deliveries[j].feedSource) < FeedRank(deliveries[k].feedSource))
  }

  /** The first delivery whose feed name does not contain "deshred", or the first of all if every name does. */
  ghost predicate FirstProcessed(deliveries: seq<Buy>, k: nat) {
    && k < |deliveries|
    && (forall j :: 0 <= j < k ==> NamesDeshred(deliveries[j].feedSource))
    && (NamesDeshred(deliveries[k].feedSource) ==>
          k == 0 && forall j :: 0 <= j < |deliveries| ==> NamesDeshred(deliveries[j].feedSource))
  }

  lemma FirstBestByName(deliveries: seq<Buy>, k: nat)
    requires FirstBest(deliveries, k)
    ensures FirstProcessed(deliveries, k)
  {
    var best := deliveries[k].feedSource;
    forall j | 0 <= j < |deliveries|
      ensures NamesDeshred(best) ==> NamesDeshred(deliveries[j].feedSource)
      ensures j < k ==> NamesDeshred(deliveries[j].feedSource) && !NamesDeshred(best)
    {
      RanksByName(best, deliveries[j].feedSource);
      RanksByName(deliveries[j].feedSource, best);
    }
    assert k > 0 ==> NamesDeshred(deliveries[0].feedSource) && !NamesDeshred(best);
  }

  predicate IsMaxLamports(deliveries: seq<Buy>, n: nat) {
    && (forall j :: 0 <= j < |deliveries| ==> deliveries[j].lamports <= n)
    && exists j :: 0 <= j < |deliveries| && deliveries[j].lamports == n
  }

  lemma {:induction false} AbsorbLamports(deliveries: seq<Buy>)
    requires deliveries != []
    ensures IsMaxLamports(deliveries, Absorb(deliveries).lamports)
  {
    var n := |deliveries| - 1;
    if n > 0 {
      var before := deliveries[..n];
      AbsorbLamports(before);
      var m :| 0 <= m < n && before[m].lamports == Absorb(before).lamports;
      assert deliveries[m].lamports == Absorb(before).lamports;
    }
  }

  lemma {:induction false} AbsorbInstruction(deliveries: seq<Buy>) returns (k: nat)
    requires deliveries != []
    ensures FirstBest(deliveries, k) && SameInstruction(Absorb(deliveries), deliveries[k])
  {
    var n := |deliveries| - 1;
    if n == 0 {
      k := 0;
    } else {
      k := AbsorbInstruction(deliveries[..n]);
      var best, last := FeedRank(deliveries[k].feedSource), FeedRank(deliveries[n].feedSource);
      assert FeedRank(Absorb(deliveries[..n]).feedSource) == best;
      if last > best {
        k := n;
      }
    }
  }

  lemma {:induction false} AbsorbIdentity(deliveries: seq<Buy>)
    requires deliveries != []
    ensures var (a, d) := (Absorb(deliveries), deliveries[0]);
            a.mint == d.mint && a.buyer == d.buyer && a.signature == d.signature
            && a.detectedAtMs == d.detectedAtMs && a.detectedAt == d.detectedAt
  {
    if |deliveries| > 1 {
      AbsorbIdentity(deliveries[..|deliveries| - 1]);
    }
  }

  /**
   * The stored buy carries the largest SOL estimate ever delivered, the instruction of the first delivery from a
   * feed that is not a "deshred" one (of the very first, if there is none), and otherwise the fields of the very
   * first delivery.
   */
  lemma AbsorbMeaning(deliveries: seq<Buy>)
    requires deliveries != []
    ensures IsMaxLamports(deliveries, Absorb(deliveries).lamports)
    ensures exists k: nat :: FirstProcessed(deliveries, k) && SameInstruction(Absorb(deliveries), deliveries[k])
    ensures var (a, d) := (Absorb(deliveries), deliveries[0]);
            a.mint == d.mint && a.buyer == d.buyer && a.signature == d.signature
            && a.detectedAtMs == d.detectedAtMs && a.detectedAt == d.detectedAt
  {
    AbsorbLamports(deliveries);
    var k := AbsorbInstruction(deliveries);
    FirstBestByName(deliveries, k);
    AbsorbIdentity(deliveries);
  }

  lemma AbsorbSnoc(deliveries: seq<Buy>, buy: Buy)
    requires deliveries != []
    ensures Absorb(deliveries + [buy]) == Upgrade(Absorb(deliveries), buy)
  {
    assert (deliveries + [buy])[..|deliveries|] == deliveries;
  }

  function OfSignature(log: seq<Buy>, signature: string): seq<Buy> {
    if log == [] then []
    else
      var before := OfSignature(log[..|log| - 1], signature);
      if log[|log| - 1].signature == signature then before + [log[|log| - 1]] else before
  }

  lemma OfSignatureSnoc(log: seq<Buy>, buy: Buy, signature: string)
    ensures OfSignature(log + [buy], signature)
            == if buy.signature == signature then OfSignature(log, signature) + [buy] else OfSignature(log, signature)
  {
    assert (log + [buy])[..|log|] == log;
  }

  lemma {:induction false} OfSignatureEmpty(log: seq<Buy>, signature: string)
    requires forall d :: d in log ==> d.signature != signature
    ensures OfSignature(log, signature) == []
  {
    if log != [] {
      assert log[|log| - 1] in log;
      OfSignatureEmpty(log[..|log| - 1], signature);
    }
  }

  /**
   * What a candidate keeps of its deliveries: one entry per signature, in `buySignatures` too, at most
   * `maxBuys` of them, each the merge of all that was delivered under that signature since it was accepted.
   */
  ghost predicate Faithful(c: Candidate, maxBuys: nat) {
    && |c.earlyBuys| <= maxBuys
    && (forall a, b :: 0 <= a < b < |c.earlyBuys| ==> c.earlyBuys[a].signature != c.earlyBuys[b].signature)
    && c.buySignatures == (set b | b in c.earlyBuys :: b.signature)
    && (forall d :: d in c.log ==> d.signature in c.buySignatures)
    && (forall k :: 0 <= k < |c.earlyBuys| ==> Merged(c, k))
  }

  ghost predicate Merged(c: Candidate, k: nat)
    requires k < |c.earlyBuys|
  {
    var deliveries := OfSignature(c.log, c.earlyBuys[k].signature);
    deliveries != [] && c.earlyBuys[k] == Absorb(deliveries)
  }

  /** The position of the entry with this signature, if there is one. */
  function FindBuy(buys: seq<Buy>, signature: string): (hit: Option<nat>)
    ensures hit.Some? ==> hit.value < |buys| && buys[hit.value].signature == signature
    ensures hit.None? ==> forall b :: b in buys ==> b.signature != signature
  {
    if buys == [] then None
    else if buys[0].signature == signature then Some(0)
    else match FindBuy(buys[1..], signature)
         case Some(i) => Some(i + 1)
         case None => None
  }

  /** A candidate after a repeated delivery has been merged into entry `k`. */
  function Merge(c: Candidate, k: nat, buy: Buy): Candidate
    requires k < |c.earlyBuys|
  {
    c.(earlyBuys := c.earlyBuys[k := Upgrade(c.earlyBuys[k], buy)], log := c.log + [buy])
  }

  /** A candidate after a first delivery has been accepted. */
  function Accept(c: Candidate, buy: Buy): Candidate {
    c.(earlyBuys := c.earlyBuys + [buy], buySignatures := c.buySignatures + {buy.signature}, log := c.log + [buy])
  }

  lemma UpgradeKeepsSignature(existing: Buy, incoming: Buy)
    ensures Upgrade(existing, incoming).signature == existing.signature
    ensures Upgrade(existing, incoming).mint == existing.mint
  {
  }

  lemma MergeKeepsMerged(c: Candidate, k: nat, buy: Buy, j: nat)
    requires k < |c.earlyBuys| && c.earlyBuys[k].signature == buy.signature
    requires j < |c.earlyBuys| && (j != k ==> c.earlyBuys[j].signature != buy.signature)
    requires Merged(c, j)
    ensures Merged(Merge(c, k, buy), j)
  {
    UpgradeKeepsSignature(c.earlyBuys[k], buy);
    OfSignatureSnoc(c.log, buy, c.earlyBuys[j].signature);
    if j == k {
      AbsorbSnoc(OfSignature(c.log, buy.signature), buy);
    }
  }

  lemma MergeFaithful(c: Candidate, maxBuys: nat, k: nat, buy: Buy)
    requires Faithful(c, maxBuys) && k < |c.earlyBuys| && c.earlyBuys[k].signature == buy.signature
    ensures Faithful(Merge(c, k, buy), maxBuys)
  {
    var c' := Merge(c, k, buy);
    UpgradeKeepsSignature(c.earlyBuys[k], buy);
    var up := c'.earlyBuys[k];
    assert c'.earlyBuys == c.earlyBuys[k := up] && up.signature == buy.signature;
    forall s | s in c.buySignatures
      ensures s in (set b | b in c'.earlyBuys :: b.signature)
    {
      var j :| 0 <= j < |c.earlyBuys| && c.earlyBuys[j].signature == s;
      assert c'.earlyBuys[j] in c'.earlyBuys && c'.earlyBuys[j].signature == s;
    }
    assert c.earlyBuys[k] in c.earlyBuys;
    forall j: nat | j < |c.earlyBuys|
      ensures Merged(c', j)
    {
      MergeKeepsMerged(c, k, buy, j);
    }
  }

  lemma AcceptKeepsMerged(c: Candidate, buy: Buy, j: nat)
    requires j < |c.earlyBuys| && Merged(c, j) && c.earlyBuys[j].signature != buy.signature
    ensures Merged(Accept(c, buy), j)
  {
    OfSignatureSnoc(c.log, buy, c.earlyBuys[j].signature);
  }

  lemma AcceptedIsMerged(c: Candidate, buy: Buy)
    requires forall d :: d in c.log ==> d.signature != buy.signature
    ensures Merged(Accept(c, buy), |c.earlyBuys|)
  {
    OfSignatureEmpty(c.log, buy.signature);
    OfSignatureSnoc(c.log, buy, buy.signature);
    assert OfSignature(c.log + [buy], buy.signature) == [buy];
    assert Absorb([buy]) == buy;
  }

  lemma AcceptFaithful(c: Candidate, maxBuys: nat, buy: Buy)
    requires Faithful(c, maxBuys) && |c.earlyBuys| < maxBuys
    requires forall b :: b in c.earlyBuys ==> b.signature != buy.signature
    ensures Faithful(Accept(c, buy), maxBuys)
  {
    var c' := Accept(c, buy);
    assert buy.signature !in c.buySignatures;
    forall j: nat | j < |c'.earlyBuys|
      ensures Merged(c', j)
    {
      if j < |c.earlyBuys| {
        assert c.earlyBuys[j] in c.earlyBuys;
        AcceptKeepsMerged(c, buy, j);
      } else {
        AcceptedIsMerged(c, buy);
      }
    }
    assert c'.buySignatures == (set b | b in c'.earlyBuys :: b.signature) by {
      assert forall b :: b in c'.earlyBuys <==> b in c.earlyBuys || b == buy;
    }
  }
}
