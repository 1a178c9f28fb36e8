/** Gate 4 scores: capped penalties, the narrative bonus cut, and the score totals. */
module Scoring {
  import opened Wrappers
  import opened FilterTypes
  import opened SmartMoney
  import opened Gate3

  const SUSPICIOUS_WALLETS := 10
  const SUSPICIOUS_RUGS := 1
  const SUSPICIOUS_PENALTY := 6
  const SAME_CLUSTER_PENALTY := 8
  const QUALITY_BONUS := 6
  const FAST_QUALITY_RELIEF := 4
  const SINGLE_FUNDER_PENALTY := 6

  // ---------------------------------------------------------------- capped penalties

  function Sum(xs: seq<nat>): nat {
    if xs == [] then 0 else xs[0] + Sum(xs[1..])
  }

  /** One penalty: saturating addition, then the cap. */
  function AddCapped(total: nat, penalty: nat, cap: nat): nat {
    Min(SatAdd32(total, penalty), cap)
  }

  function FoldCapped(total: nat, penalties: seq<nat>, cap: nat): nat
    decreases penalties
  {
    if penalties == [] then total else FoldCapped(AddCapped(total, penalties[0], cap), penalties[1..], cap)
  }

  /** Capping after every step gives the same result as capping the exact sum once. */
  lemma {:induction false} CappedStepsAreCappedSum(total: nat, penalties: seq<nat>, cap: nat)
    requires total <= cap <= U32_MAX
    ensures FoldCapped(total, penalties, cap) == Min(total + Sum(penalties), cap)
    decreases penalties
  {
    if penalties != [] {
      CappedStepsAreCappedSum(AddCapped(total, penalties[0], cap), penalties[1..], cap);
    }
  }

  lemma {:induction false} SumRemove(xs: seq<nat>, i: nat)
    requires i < |xs|
    ensures Sum(xs) == xs[i] + Sum(xs[..i] + xs[i + 1..])
  {
    if i == 0 {
      assert xs[..0] + xs[1..] == xs[1..];
    } else {
      SumRemove(xs[1..], i - 1);
      assert (xs[..i] + xs[i + 1..])[1..] == xs[1..][..i - 1] + xs[1..][i..];
    }
  }

  lemma {:induction false} SumPermuted(xs: seq<nat>, ys: seq<nat>)
    requires multiset(xs) == multiset(ys)
    ensures Sum(xs) == Sum(ys)
  {
    if xs == [] {
      assert |multiset(ys)| == 0;
    } else {
      assert xs[0] in multiset(ys);
      var i :| 0 <= i < |ys| && ys[i] == xs[0];
      SumRemove(ys, i);
      assert xs == [xs[0]] + xs[1..];
      assert ys == ys[..i] + [ys[i]] + ys[i + 1..];
      assert multiset(xs) == multiset{xs[0]} + multiset(xs[1..]);
      assert multiset(ys) == multiset{xs[0]} + multiset(ys[..i] + ys[i + 1..]);
      assert multiset(xs[1..]) == multiset(xs) - multiset{xs[0]};
      assert multiset(ys[..i] + ys[i + 1..]) == multiset(ys) - multiset{xs[0]};
      SumPermuted(xs[1..], ys[..i] + ys[i + 1..]);
    }
  }

  /** The order in which penalties are added does not matter. */
  lemma CappedOrderFree(penalties: seq<nat>, other: seq<nat>, cap: nat)
    requires multiset(penalties) == multiset(other) && cap <= U32_MAX
    ensures FoldCapped(0, penalties, cap) == FoldCapped(0, other, cap)
  {
    CappedStepsAreCappedSum(0, penalties, cap);
    CappedStepsAreCappedSum(0, other, cap);
    SumPermuted(penalties, other);
  }

  function Half(score: nat): nat {
    Max(score / 2, 1)
  }

  lemma {:induction false} SumConcat(xs: seq<nat>, ys: seq<nat>)
    ensures Sum(xs + ys) == Sum(xs) + Sum(ys)
  {
    if xs == [] {
      assert xs + ys == ys;
    } else {
      SumConcat(xs[1..], ys);
      assert (xs + ys)[1..] == xs[1..] + ys;
    }
  }

  /** What each runtime finding costs, in the order in which they are examined; zero where there is none. */
  function RuntimePenalties(cfg: Config, stats: WindowStats, templateRepeats: nat): seq<nat> {
    [ if stats.maxBuyerShare >= 0.92 then cfg.riskConcentration
      else if stats.maxBuyerShare >= 0.80 then Half(cfg.riskConcentration) else 0,
      if Sol(stats.eligibleLamports) >= 2.5 && stats.eligibleBuyers <= 2 then cfg.riskLiquidity else 0,
      if stats.creatorFunderCount >= 2 && Sol(stats.creatorFunderLamports) >= 0.5 then cfg.riskCreatorFunder else 0,
      if stats.eligibleBuyers >= 3 && stats.uniqueFunders <= 1 then 3 else 0,
      if templateRepeats >= cfg.riskTemplateThreshold then Half(cfg.riskTemplate) else 0 ]
  }

  function RuntimeRisk(cfg: Config, stats: WindowStats, gate1Penalty: nat, templateRepeats: nat): nat {
    Min(Sum(RuntimePenalties(cfg, stats, templateRepeats)) + gate1Penalty, cfg.riskCap)
  }

  /** The program's closure: a finding that holds adds its penalty under the cap. */
  method AddPenalty(penalty: nat, found: bool, amount: nat, cap: nat, ghost sum: nat) returns (penalty': nat)
    requires cap <= U32_MAX && penalty == Min(sum, cap)
    ensures penalty' == Min(sum + (if found then amount else 0), cap)
  {
    penalty' := if found then AddCapped(penalty, amount, cap) else penalty;
  }

  /** The accumulation as the program performs it, one capped addition per finding. */
  method AnalyzeRuntimeRisk(cfg: Config, stats: WindowStats, gate1Penalty: nat, templateRepeats: nat)
    returns (penalty: nat)
    requires cfg.riskCap <= U32_MAX
    ensures penalty == RuntimeRisk(cfg, stats, gate1Penalty, templateRepeats)
  {
    ghost var xs := RuntimePenalties(cfg, stats, templateRepeats);
    if stats.maxBuyerShare >= 0.92 {
      penalty := AddPenalty(0, true, cfg.riskConcentration, cfg.riskCap, 0);
    } else {
      penalty := AddPenalty(0, stats.maxBuyerShare >= 0.80, Half(cfg.riskConcentration), cfg.riskCap, 0);
    }
    penalty := AddPenalty(penalty, Sol(stats.eligibleLamports) >= 2.5 && stats.eligibleBuyers <= 2,
                          cfg.riskLiquidity, cfg.riskCap, xs[0]);
    penalty := AddPenalty(penalty, stats.creatorFunderCount >= 2 && Sol(stats.creatorFunderLamports) >= 0.5,
                          cfg.riskCreatorFunder, cfg.riskCap, xs[0] + xs[1]);
    penalty := AddPenalty(penalty, stats.eligibleBuyers >= 3 && stats.uniqueFunders <= 1,
                          3, cfg.riskCap, xs[0] + xs[1] + xs[2]);
    penalty := AddPenalty(penalty, templateRepeats >= cfg.riskTemplateThreshold,
                          Half(cfg.riskTemplate), cfg.riskCap, xs[0] + xs[1] + xs[2] + xs[3]);
    SumFive(xs[0], xs[1], xs[2], xs[3], xs[4]);
    assert xs == [xs[0], xs[1], xs[2], xs[3], xs[4]];
    penalty := AddPenalty(penalty, true, gate1Penalty, cfg.riskCap, Sum(xs));
  }

  lemma SumFive(a: nat, b: nat, c: nat, d: nat, e: nat)
    ensures Sum([a, b, c, d, e]) == a + b + c + d + e
  {
    assert [e][1..] == [] && Sum([e]) == e;
    assert [d, e][1..] == [e] && Sum([d, e]) == d + e;
    assert [c, d, e][1..] == [d, e] && Sum([c, d, e]) == c + d + e;
    assert [b, c, d, e][1..] == [c, d, e];
    assert [a, b, c, d, e][1..] == [b, c, d, e];
  }

  // ---------------------------------------------------------------- narrative bonuses

  datatype Narrative = Narrative(
    preheatHits: nat, baseHits: nat, confirmedHits: nat,
    preheatBonus: nat, baseBonus: nat, confirmedBonus: nat,
    fastRelief: nat)

  function TierHits(tiers: seq<Tier>, tier: Tier): nat {
    if tiers == [] then 0
    else TierHits(tiers[..|tiers| - 1], tier) + if tiers[|tiers| - 1] == tier then 1 else 0
  }

  /** A tier's bonus before the cut: hits narrowed to 32 bits, times the bonus per hit, saturating. */
  function RawBonus(hits: nat, perHit: nat): nat {
    Min((hits % 0x1_0000_0000) * perHit, U32_MAX)
  }

  /** How far the saturating total of the raw bonuses exceeds the cap. */
  function Overflow(preheat: nat, base: nat, confirmed: nat, cap: nat): nat {
    SatSub(SatAdd32(SatAdd32(preheat, base), confirmed), cap)
  }

  /** The bonuses after the cut: confirmed gives way first, then base, then preheat. */
  function NarrativeOf(cfg: Config, tiers: seq<Tier>, path: Gate3Path): Narrative {
    var (h1, h2, h3) := (TierHits(tiers, Preheat), TierHits(tiers, Base), TierHits(tiers, Confirmed));
    var (p, b, c) := (RawBonus(h1, cfg.preheatPerHit), RawBonus(h2, cfg.basePerHit), RawBonus(h3, cfg.confirmedPerHit));
    var overflow := Overflow(p, b, c, cfg.narrativeCap);
    Narrative(h1, h2, h3, SatSub(p, SatSub(overflow, b + c)), SatSub(b, SatSub(overflow, c)), SatSub(c, overflow),
              if path == Fast && h3 > 0 then cfg.confirmedFastRelief else 0)
  }

  function RawTotal(cfg: Config, tiers: seq<Tier>): nat {
    RawBonus(TierHits(tiers, Preheat), cfg.preheatPerHit)
    + RawBonus(TierHits(tiers, Base), cfg.basePerHit)
    + RawBonus(TierHits(tiers, Confirmed), cfg.confirmedPerHit)
  }

  /** The program's own steps: count the hits, then cut the three bonuses one after the other. */
  method BuildNarrative(cfg: Config, tiers: seq<Tier>, path: Gate3Path) returns (n: Narrative)
    ensures n == NarrativeOf(cfg, tiers, path)
    ensures RawTotal(cfg, tiers) <= U32_MAX ==> n.preheatBonus + n.baseBonus + n.confirmedBonus <= cfg.narrativeCap
  {
    n := Narrative(0, 0, 0, 0, 0, 0, 0);
    for i := 0 to |tiers|
      invariant n == Narrative(TierHits(tiers[..i], Preheat), TierHits(tiers[..i], Base),
          TierHits(tiers[..i], Confirmed), 0, 0, 0, 0)
    {
      assert tiers[..i + 1][..i] == tiers[..i];
      match tiers[i]
      case Preheat => n := n.(preheatHits := n.preheatHits + 1);
      case Base => n := n.(baseHits := n.baseHits + 1);
      case Confirmed => n := n.(confirmedHits := n.confirmedHits + 1);
    }
    assert tiers[..|tiers|] == tiers;
    n := n.(preheatBonus := RawBonus(n.preheatHits, cfg.preheatPerHit));
    n := n.(baseBonus := RawBonus(n.baseHits, cfg.basePerHit));
    n := n.(confirmedBonus := RawBonus(n.confirmedHits, cfg.confirmedPerHit));
    var overflow := Overflow(n.preheatBonus, n.baseBonus, n.confirmedBonus, cfg.narrativeCap);
    if overflow > 0 {
      var cut := Min(n.confirmedBonus, overflow);
      n := n.(confirmedBonus := SatSub(n.confirmedBonus, cut));
      overflow := SatSub(overflow, cut);
    }
    if overflow > 0 {
      var cut := Min(n.baseBonus, overflow);
      n := n.(baseBonus := SatSub(n.baseBonus, cut));
      overflow := SatSub(overflow, cut);
    }
    if overflow > 0 {
      n := n.(preheatBonus := SatSub(n.preheatBonus, overflow));
    }
    if path == Fast && n.confirmedHits > 0 {
      n := n.(fastRelief := cfg.confirmedFastRelief);
    }
  }

  /**
   * The cut leaves exactly min(raw total, cap), if and only if the raw total fits in 32 bits: past that
   * the saturated total understates the overflow and more than the cap is left.
   */
  lemma NarrativeCutExactIff(cfg: Config, tiers: seq<Tier>, path: Gate3Path)
    requires cfg.narrativeCap <= U32_MAX
    ensures var n := NarrativeOf(cfg, tiers, path);
            n.preheatBonus + n.baseBonus + n.confirmedBonus == Min(RawTotal(cfg, tiers), cfg.narrativeCap)
            <==> RawTotal(cfg, tiers) <= U32_MAX
  {
  }

  /** Two hits at the largest bonus and a cap of 10: the cut stops 2^32 - 1 too early. */
  lemma NarrativeOvershootWitness(cfg: Config, path: Gate3Path)
    ensures var c := cfg.(narrativeCap := 10, preheatPerHit := U32_MAX, basePerHit := U32_MAX);
            var n := NarrativeOf(c, [Preheat, Base], path);
            n.preheatBonus + n.baseBonus + n.confirmedBonus == U32_MAX + 10
  {
    var tiers := [Preheat, Base];
    assert tiers[..1] == [Preheat] && [Preheat][..0] == [];
    assert TierHits([Preheat], Preheat) == 1 && TierHits([Preheat], Base) == 0 && TierHits([Preheat], Confirmed) == 0;
    assert TierHits(tiers, Preheat) == 1 && TierHits(tiers, Base) == 1 && TierHits(tiers, Confirmed) == 0;
  }

  /** A lower-priority bonus is only touched once everything above it is gone. */
  lemma NarrativeCutOrder(cfg: Config, tiers: seq<Tier>, path: Gate3Path)
    ensures var n := NarrativeOf(cfg, tiers, path);
            && (n.baseBonus < RawBonus(TierHits(tiers, Base), cfg.basePerHit) ==> n.confirmedBonus == 0)
            && (n.preheatBonus < RawBonus(TierHits(tiers, Preheat), cfg.preheatPerHit) ==>
                n.confirmedBonus == 0 && n.baseBonus == 0)
            && n.preheatHits + n.baseHits + n.confirmedHits == |tiers|
  {
    HitsPartition(tiers);
  }

  lemma {:induction false} HitsPartition(tiers: seq<Tier>)
    ensures TierHits(tiers, Preheat) + TierHits(tiers, Base) + TierHits(tiers, Confirmed) == |tiers|
  {
    if tiers != [] {
      HitsPartition(tiers[..|tiers| - 1]);
    }
  }

  /** The bonus that enters the score, whether or not the raw total saturated. */
  function DynamicBonus(cfg: Config, n: Narrative): nat {
    Min(SatAdd32(SatAdd32(n.preheatBonus, n.baseBonus), n.confirmedBonus), cfg.narrativeCap)
  }

  lemma DynamicBonusIsCappedTotal(cfg: Config, tiers: seq<Tier>, path: Gate3Path)
    requires cfg.narrativeCap <= U32_MAX
    ensures DynamicBonus(cfg, NarrativeOf(cfg, tiers, path)) == Min(RawTotal(cfg, tiers), cfg.narrativeCap)
  {
  }

  // ---------------------------------------------------------------- totals

  datatype Score = Score(quality: nat, urgency: nat, total: nat, required: nat, confidence: nat, riskPenalty: nat,
      narrative: Narrative)

  function Participants(path: Gate3Path, wallets: nat): nat {
    if wallets == 0 then 0
    else if wallets == 1 then (if path == Fast then 20 else 10)
    else if wallets == 2 then (if path == Fast then 26 else 20)
    else 30
  }

  function Capital(path: Gate3Path, sol: real): nat {
    match path
    case Fast => if sol >= 1.0 then 20 else if sol >= 0.5 then 15 else if sol >= 0.2 then 10 else 0
    case Soft => if sol >= 2.0 then 20 else if sol >= 0.5 then 10 else 0
  }

  function Momentum(buys: nat): nat {
    if buys >= 15 then 20 else if buys >= 8 then 13 else if buys >= 4 then 6 else 0
  }

  function Curve(pct: real): nat {
    if pct > 5.0 then 15 else if pct > 2.0 then 10 else if pct > 0.5 then 5 else 0
  }

  /** Fifteen times the quality share, rounded to the nearest integer and clamped to 0..15. */
  function BuyerQuality(pct: real, path: Gate3Path, eligibleBuyers: nat): nat {
    var scaled := pct * 15.0 + 0.5;
    var q := if scaled < 1.0 then 0 else if scaled >= 15.0 then 15 else scaled.Floor as nat;
    if path == Fast && eligibleBuyers <= 1 then Max(q, 5) else q
  }

  function BaseQuality(stats: WindowStats, env: Env, path: Gate3Path): nat {
    Participants(path, |stats.matchedWallets|) + Capital(path, Sol(stats.matchedLamports)) + Curve(env.curveProgressPct)
    + BuyerQuality(env.buyerQualityPct, path, stats.eligibleBuyers) + (if QualityStats(stats) then QUALITY_BONUS else 0)
  }

  /** Everything held against the candidate's quality. */
  function Penalties(cand: Candidate, stats: WindowStats, cfg: Config, env: Env, path: Gate3Path): seq<nat> {
    [ cand.gate2Penalty,
      if path == Fast && stats.eligibleBuyers <= 1 then 0
      else if stats.eligibleBuyers >= MIN_UNIQUE_FUNDERS && stats.uniqueFunders < MIN_UNIQUE_FUNDERS
          then SINGLE_FUNDER_PENALTY
      else 0,
      RuntimeRisk(cfg, stats, cand.gate1Penalty, cand.templateRepeats),
      if env.clusterWallets >= SUSPICIOUS_WALLETS || env.clusterRugs >= SUSPICIOUS_RUGS then SUSPICIOUS_PENALTY else 0,
      if PressureStats(stats) then SAME_CLUSTER_PENALTY else 0 ]
  }

  function SatSum(xs: seq<nat>): nat {
    if xs == [] then 0 else SatAdd32(SatSum(xs[..|xs| - 1]), xs[|xs| - 1])
  }

  function ScoreOf(cand: Candidate, stats: WindowStats, cfg: Config, env: Env, path: Gate3Path): Score {
    var narrative := NarrativeOf(cfg, cand.narrativeTiers, path);
    var base := BaseQuality(stats, env, path);
    var penalty := Min(SatSum(Penalties(cand, stats, cfg, env, path)), base);
    var quality := SatSub(base, penalty);
    var urgency := Momentum(stats.buyCount) + DynamicBonus(cfg, narrative);
    var relief := if QualityStats(stats) && path == Fast then FAST_QUALITY_RELIEF else 0;
    var required :=
      if path == Fast then SatSub(SatSub(Min(cfg.fastMinScore, cfg.minScore), relief), narrative.fastRelief)
      else Min(cfg.softMinScore, cfg.minScore);
    Score(quality, urgency, quality + urgency, required, Min(SatAdd32(quality, urgency), 100),
          RuntimeRisk(cfg, stats, cand.gate1Penalty, cand.templateRepeats), narrative)
  }

  lemma {:induction false} SatSumIsMin(xs: seq<nat>)
    ensures SatSum(xs) == Min(SumEnd(xs), U32_MAX)
  {
    if xs != [] {
      SatSumIsMin(xs[..|xs| - 1]);
    }
  }

  function SumEnd(xs: seq<nat>): nat {
    if xs == [] then 0 else SumEnd(xs[..|xs| - 1]) + xs[|xs| - 1]
  }

  lemma {:induction false} SumEndIsSum(xs: seq<nat>)
    ensures SumEnd(xs) == Sum(xs)
  {
    if xs != [] {
      SumEndIsSum(xs[..|xs| - 1]);
      SumConcat(xs[..|xs| - 1], [xs[|xs| - 1]]);
      assert xs == xs[..|xs| - 1] + [xs[|xs| - 1]];
    }
  }

  /**
   * Quality is the base less the exact sum of all penalties, never below zero; it cannot exceed 86; the
   * total is quality plus urgency and the confidence is that total capped at 100.
   */
  lemma ScoreBounds(cand: Candidate, stats: WindowStats, cfg: Config, env: Env, path: Gate3Path)
    ensures var s := ScoreOf(cand, stats, cfg, env, path);
            && s.quality == SatSub(BaseQuality(stats, env, path), Sum(Penalties(cand, stats, cfg, env, path)))
            && s.quality <= 86
            && s.total == s.quality + s.urgency
            && s.confidence == Min(s.total, 100)
            && s.urgency <= 20 + cfg.narrativeCap
  {
    var xs := Penalties(cand, stats, cfg, env, path);
    SatSumIsMin(xs);
    SumEndIsSum(xs);
  }

  /** Adding a warning penalty at gate 2 never raises the quality, the total or the confidence. */
  lemma PenaltyNeverHelps(cand: Candidate, more: nat, stats: WindowStats, cfg: Config, env: Env, path: Gate3Path)
    ensures var s := ScoreOf(cand, stats, cfg, env, path);
            var s' := ScoreOf(cand.(gate2Penalty := cand.gate2Penalty + more), stats, cfg, env, path);
            s'.quality <= s.quality && s'.total <= s.total && s'.confidence <= s.confidence && s'.required == s.required
  {
    var worse := cand.(gate2Penalty := cand.gate2Penalty + more);
    ScoreBounds(cand, stats, cfg, env, path);
    ScoreBounds(worse, stats, cfg, env, path);
    var xs, ys := Penalties(cand, stats, cfg, env, path), Penalties(worse, stats, cfg, env, path);
    assert xs[1..] == ys[1..];
  }

  /** The single-buyer veto on the fast path. */
  predicate SniperVeto(cfg: Config, stats: WindowStats, env: Env, path: Gate3Path, score: Score) {
    var sol := Sol(stats.matchedLamports);
    var strong := score.narrative.baseHits + score.narrative.confirmedHits > 0;
    var flat := env.curveProgressPct < cfg.sniperMaxCurve;
    var solFloor := if cfg.sniperMinSol + 0.15 <= 1.0 then cfg.sniperMinSol + 0.15 else 1.0;
    var qualityFloor := if cfg.sniperMinQuality + 0.10 <= 1.0 then cfg.sniperMinQuality + 0.10 else 1.0;
    && cfg.sniperFilter && path == Fast
    && |stats.matchedWallets| <= 1 && stats.eligibleBuyers <= 1
    && flat && !strong
    && (|| (sol < cfg.sniperMinSol && env.buyerQualityPct < cfg.sniperMinQuality)
        || (score.riskPenalty > cfg.sniperMaxRisk && sol < solFloor && env.buyerQualityPct < qualityFloor))
  }
}
