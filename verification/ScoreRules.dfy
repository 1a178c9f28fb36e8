/**
 * The decision on a scored candidate, told by who bought and for how many lamports: exactly when a buy signal
 * is sent, which trade it mirrors, and what raises or lowers its score.
 */
module ScoreRules {
  import opened Wrappers
  import opened FilterTypes
  import opened SmartMoney
  import opened Gate3
  import opened Gate3Rules
  import opened Scoring
  import opened EventLoop

  // ---------------------------------------------------------------- when a signal is sent

  function AtMostOne(x: real): real {
    if x > 1.0 then 1.0 else x
  }

  /**
   * The veto on a lone buyer: nothing but preheat keywords, a flat curve, and little SOL and buyer quality, for
   * which a heavy risk penalty raises the bar.
   */
  predicate LoneBuyerVeto(c: Candidate, cfg: Config, env: Env) {
    var paid := Spent(c.earlyBuys, Backers(c, cfg, env.hot));
    var risk := RuntimeRisk(cfg, Stats(c, cfg, env), c.gate1Penalty, c.templateRepeats);
    && cfg.sniperFilter && |Admissible(c, env.hot)| <= 1
    && env.curveProgressPct < cfg.sniperMaxCurve
    && (forall t :: t in c.narrativeTiers ==> t == Preheat)
    && (|| (!Reaches(paid, cfg.sniperMinSol) && env.buyerQualityPct < cfg.sniperMinQuality)
        || (&& risk > cfg.sniperMaxRisk
            && !Reaches(paid, AtMostOne(cfg.sniperMinSol + 0.15))
            && env.buyerQualityPct < AtMostOne(cfg.sniperMinQuality + 0.10)))
  }

  lemma {:induction false} SomeHits(tiers: seq<Tier>, tier: Tier)
    ensures TierHits(tiers, tier) > 0 <==> tier in tiers
  {
    if tiers != [] {
      SomeHits(tiers[..|tiers| - 1], tier);
      assert tiers == tiers[..|tiers| - 1] + [tiers[|tiers| - 1]];
    }
  }

  lemma VetoStats(cfg: Config, stats: WindowStats, env: Env, score: Score, paid: nat)
    requires stats.matchedLamports == paid && |stats.matchedWallets| <= stats.eligibleBuyers
    ensures SniperVeto(cfg, stats, env, Fast, score) <==>
              && cfg.sniperFilter && stats.eligibleBuyers <= 1 && env.curveProgressPct < cfg.sniperMaxCurve
              && score.narrative.baseHits == 0 == score.narrative.confirmedHits
              && (|| (!Reaches(paid, cfg.sniperMinSol) && env.buyerQualityPct < cfg.sniperMinQuality)
                  || (&& score.riskPenalty > cfg.sniperMaxRisk
                      && !Reaches(paid, AtMostOne(cfg.sniperMinSol + 0.15))
                      && env.buyerQualityPct < AtMostOne(cfg.sniperMinQuality + 0.10)))
  {
  }

  lemma VetoIff(c: Candidate, cfg: Config, env: Env)
    ensures var stats := Stats(c, cfg, env);
            && (SniperVeto(cfg, stats, env, Fast, ScoreOf(c, stats, cfg, env, Fast)) <==> LoneBuyerVeto(c, cfg, env))
            && !SniperVeto(cfg, stats, env, Soft, ScoreOf(c, stats, cfg, env, Soft))
  {
    var stats := Stats(c, cfg, env);
    OnlyPreheat(c.narrativeTiers);
    BuyerSums(c, cfg, env.hot);
    BackersAdmissible(c, cfg, env.hot);
    VetoStats(cfg, stats, env, ScoreOf(c, stats, cfg, env, Fast), Spent(c.earlyBuys, Backers(c, cfg, env.hot)));
  }

  lemma OnlyPreheat(tiers: seq<Tier>)
    ensures TierHits(tiers, Base) == 0 == TierHits(tiers, Confirmed) <==> forall t :: t in tiers ==> t == Preheat
  {
    SomeHits(tiers, Base);
    SomeHits(tiers, Confirmed);
  }

  lemma BackersAdmissible(c: Candidate, cfg: Config, hot: HotLists)
    ensures Backers(c, cfg, hot) <= Admissible(c, hot) && |Backers(c, cfg, hot)| <= |Admissible(c, hot)|
  {
    SubsetCard(Backers(c, cfg, hot), Admissible(c, hot));
  }

  lemma {:induction false} SubsetCard(a: set<Address>, b: set<Address>)
    requires a <= b
    ensures |a| <= |b|
    decreases |b|
  {
    if a != {} {
      var x :| x in a;
      SubsetCard(a - {x}, b - {x});
    }
  }

  /**
   * A signal is sent if and only if gate 3 triggers, unless it triggers on the fast path and the veto holds. Its
   * path is the fast one exactly when that triggers; without a trigger gate 3 is named, with one it is gate 4.
   */
  lemma SignalIff(c: Candidate, cfg: Config, env: Env, later: HotLists)
    ensures var d := ScoreCandidate(c, cfg, env, later);
            var (fast, soft) := (Triggers(Fast, c, cfg, env.hot), Triggers(Soft, c, cfg, env.hot));
            && (d.signal.Some? <==> (fast && !LoneBuyerVeto(c, cfg, env)) || (!fast && soft))
            && (d.signal.Some? ==> d.signal.value.path == if fast then Fast else Soft)
            && d.gate == (if fast || soft then Gate4 else Gate.Gate3)
            && d.gate4AtMs == (if fast || soft then Some(env.nowMs) else None)
  {
    TriggerIff(c, cfg, env);
    VetoIff(c, cfg, env);
  }

  /** So a soft trigger always yields a signal, and any trigger with two admissible buyers does. */
  lemma SoftOrTwoAlwaysSignal(c: Candidate, cfg: Config, env: Env, later: HotLists)
    requires Triggers(Fast, c, cfg, env.hot) || Triggers(Soft, c, cfg, env.hot)
    requires !Triggers(Fast, c, cfg, env.hot) || |Admissible(c, env.hot)| >= 2
    ensures ScoreCandidate(c, cfg, env, later).signal.Some?
  {
    SignalIff(c, cfg, env, later);
  }

  // ---------------------------------------------------------------- which trade it mirrors

  /** A backer's buy, by the hot lists of the moment, that is not the creator's own when that is barred. */
  predicate Mirrors(c: Candidate, cfg: Config, hot: HotLists, k: nat)
    requires k < |c.earlyBuys|
  {
    c.earlyBuys[k].buyer in Backers(c, cfg, hot) && !(cfg.selfBuyBlock && c.earlyBuys[k].buyer == c.creator)
  }

  lemma EligibleIff(c: Candidate, cfg: Config, hot: HotLists, k: nat)
    requires k < |c.earlyBuys|
    ensures TriggerEligible(cfg, c, hot, c.earlyBuys[k]) <==> Mirrors(c, cfg, hot, k)
  {
    assert c.earlyBuys[k] in c.earlyBuys;
  }

  lemma {:induction false} SelectFirst(c: Candidate, cfg: Config, hot: HotLists, i: nat)
    requires i <= |c.earlyBuys|
    ensures match SelectTriggerTrade(cfg, c, hot, c.earlyBuys[i..])
            case None => forall j: nat :: i <= j < |c.earlyBuys| ==> !Mirrors(c, cfg, hot, j)
            case Some(b) =>
              exists k: nat :: i <= k < |c.earlyBuys| && Mirrors(c, cfg, hot, k) && b == c.earlyBuys[k]
                && forall j: nat :: i <= j < k ==> !Mirrors(c, cfg, hot, j)
    decreases |c.earlyBuys| - i
  {
    if i < |c.earlyBuys| {
      SelectFirst(c, cfg, hot, i + 1);
      assert c.earlyBuys[i..][0] == c.earlyBuys[i] && c.earlyBuys[i..][1..] == c.earlyBuys[i + 1..];
      EligibleIff(c, cfg, hot, i);
    }
  }

  /** The signal mirrors the first early buy that may be mirrored, or the first of all if none may. */
  lemma MirrorsFirst(c: Candidate, cfg: Config, env: Env, later: HotLists)
    requires ScoreCandidate(c, cfg, env, later).signal.Some?
    ensures var trade := ScoreCandidate(c, cfg, env, later).signal.value.triggerTrade;
            && c.earlyBuys != []
            && ((forall j: nat :: j < |c.earlyBuys| ==> !Mirrors(c, cfg, later, j)) ==> trade == c.earlyBuys[0])
            && ((exists j: nat :: j < |c.earlyBuys| && Mirrors(c, cfg, later, j)) ==>
                  exists k: nat :: k < |c.earlyBuys| && Mirrors(c, cfg, later, k) && trade == c.earlyBuys[k]
                    && forall j: nat :: j < k ==> !Mirrors(c, cfg, later, j))
  {
    SelectFirst(c, cfg, later, 0);
    assert c.earlyBuys[0..] == c.earlyBuys;
    TriggerBacked(c, cfg, env);
  }

  // ---------------------------------------------------------------- the score

  /** Two admissible buyers and not two known funders. */
  predicate OneFunderAtMost(c: Candidate, hot: HotLists) {
    |Admissible(c, hot)| >= 2 && |KnownFunders(c, hot)| < 2
  }

  function If(b: bool, points: nat): nat {
    if b then points else 0
  }

  /** What speaks for the candidate, in points. */
  lemma QualityEarned(c: Candidate, cfg: Config, env: Env, path: Gate3Path)
    ensures var (backers, buyers) := (Backers(c, cfg, env.hot), Admissible(c, env.hot));
            BaseQuality(Stats(c, cfg, env), env, path) ==
              Participants(path, |backers|) + Capital(path, Sol(Spent(c.earlyBuys, backers)))
              + Curve(env.curveProgressPct) + BuyerQuality(env.buyerQualityPct, path, |buyers|)
              + If(WellSpread(c, env.hot), 6)
  {
    BuyerSums(c, cfg, env.hot);
    WellSpreadStats(c, cfg, env);
  }

  lemma WellSpreadStats(c: Candidate, cfg: Config, env: Env)
    ensures QualityStats(Stats(c, cfg, env)) <==> WellSpread(c, env.hot)
  {
    QualityIff(c, cfg, env.hot);
  }

  /** What is held against it, and what urgency adds: the number of buys and the capped keyword bonuses. */
  lemma QualityLost(c: Candidate, cfg: Config, env: Env, path: Gate3Path)
    requires cfg.narrativeCap <= U32_MAX
    ensures var (stats, s) := (Stats(c, cfg, env), ScoreOf(c, Stats(c, cfg, env), cfg, env, path));
            && s.quality ==
                 SatSub(BaseQuality(stats, env, path),
                        c.gate2Penalty + RuntimeRisk(cfg, stats, c.gate1Penalty, c.templateRepeats)
                        + If(OneFunderAtMost(c, env.hot), 6) + If(SameFunderPressure(c, env.hot), 8)
                        + If(env.clusterWallets >= 10 || env.clusterRugs >= 1, 6))
            && s.urgency == Momentum(|c.earlyBuys|) + Min(RawTotal(cfg, c.narrativeTiers), cfg.narrativeCap)
  {
    var stats := Stats(c, cfg, env);
    BuyerSums(c, cfg, env.hot);
    PressureIff(c, cfg, env.hot);
    ScoreBounds(c, stats, cfg, env, path);
    DynamicBonusIsCappedTotal(cfg, c.narrativeTiers, path);
    var xs := Penalties(c, stats, cfg, env, path);
    assert xs == [xs[0], xs[1], xs[2], xs[3], xs[4]];
    SumFive(xs[0], xs[1], xs[2], xs[3], xs[4]);
  }

  /** The part is at least this share of a whole that is not nothing. */
  predicate AtLeastShare(part: nat, whole: nat, share: real) {
    whole > 0 && part as real >= share * whole as real
  }

  /** Some admissible buyer paid at least this share of what all of them paid. */
  predicate SomeonePaid(c: Candidate, hot: HotLists, share: real) {
    exists a :: a in Admissible(c, hot)
      && AtLeastShare(Spent(c.earlyBuys, {a}), Spent(c.earlyBuys, Admissible(c, hot)), share)
  }

  lemma ShareReached(part: nat, whole: nat, share: real)
    requires share > 0.0
    ensures Ratio(part, whole) >= share <==> AtLeastShare(part, whole, share)
  {
    if whole > 0 {
      RatioOrder(part as real, whole as real, share);
    }
  }

  lemma AtLeastMono(p: nat, q: nat, whole: nat, share: real)
    requires p <= q && AtLeastShare(p, whole, share)
    ensures AtLeastShare(q, whole, share)
  {
  }

  lemma TopBuyer(c: Candidate, cfg: Config, hot: HotLists)
    ensures var (buys, most) := (c.earlyBuys, MaxBuyerLamports(LensOf(c, cfg, hot), c.earlyBuys));
            && (forall a :: a in Admissible(c, hot) ==> Spent(buys, {a}) <= most)
            && (Spent(buys, Admissible(c, hot)) > 0 ==> exists a :: a in Admissible(c, hot) && Spent(buys, {a}) == most)
  {
    var (lens, buys) := (LensOf(c, cfg, hot), c.earlyBuys);
    var most := MaxBuyerLamports(lens, buys);
    BuyerSums(c, cfg, hot);
    MaxBuyerIsMax(lens, buys);
    LargestBuyerCovers(lens, buys);
    forall a | a in Admissible(c, hot) ensures Spent(buys, {a}) <= most {
      BuyerTotal(c, cfg, hot, a);
    }
    if Spent(buys, Admissible(c, hot)) > 0 {
      var top :| top in Wallets(lens, Eligible, buys) && Lamports(lens, OfBuyer(top), buys) == most;
      BuyerTotal(c, cfg, hot, top);
    }
  }

  lemma SomeonePaidIff(c: Candidate, cfg: Config, hot: HotLists, share: real)
    requires share > 0.0
    ensures MaxBuyerShare(LensOf(c, cfg, hot), c.earlyBuys) >= share <==> SomeonePaid(c, hot, share)
  {
    var (lens, buys) := (LensOf(c, cfg, hot), c.earlyBuys);
    var all, most := Spent(buys, Admissible(c, hot)), MaxBuyerLamports(lens, buys);
    BuyerSums(c, cfg, hot);
    TopBuyer(c, cfg, hot);
    ShareReached(most, all, share);
    if a :| a in Admissible(c, hot) && AtLeastShare(Spent(buys, {a}), all, share) {
      AtLeastMono(Spent(buys, {a}), most, all, share);
    }
  }

  /** Half of it, rounded down, but at least one. */
  function HalfPoints(points: nat): nat {
    if points < 4 then 1 else points / 2
  }

  /** For one buyer who paid most. */
  function ConcentrationPoints(c: Candidate, cfg: Config, hot: HotLists): nat {
    if SomeonePaid(c, hot, 0.92) then cfg.riskConcentration
    else if SomeonePaid(c, hot, 0.80) then HalfPoints(cfg.riskConcentration)
    else 0
  }

  lemma ConcentrationIs(c: Candidate, cfg: Config, env: Env)
    ensures RuntimePenalties(cfg, Stats(c, cfg, env), c.templateRepeats)[0] == ConcentrationPoints(c, cfg, env.hot)
  {
    SomeonePaidIff(c, cfg, env.hot, 0.92);
    SomeonePaidIff(c, cfg, env.hot, 0.80);
  }

  lemma OthersAre(c: Candidate, cfg: Config, env: Env)
    ensures var xs := RuntimePenalties(cfg, Stats(c, cfg, env), c.templateRepeats);
            var (hot, buyers) := (env.hot, Admissible(c, env.hot));
            && xs[1] == If(Spent(c.earlyBuys, buyers) >= 2_500_000_000 && |buyers| <= 2, cfg.riskLiquidity)
            && xs[2] == If(
                 Bought(c.earlyBuys, Linked(c, hot)) >= 2 && Spent(c.earlyBuys, Linked(c, hot)) >= 500_000_000,
                 cfg.riskCreatorFunder)
            && xs[3] == If(|buyers| >= 3 && |KnownFunders(c, hot)| < 2, 3)
            && xs[4] == If(c.templateRepeats >= cfg.riskTemplateThreshold, HalfPoints(cfg.riskTemplate))
  {
    BuyerSums(c, cfg, env.hot);
  }

  /**
   * The runtime risk, capped: one buyer with 92 percent, or half as much for 80; 2.5 SOL from two buyers at most;
   * two buys and half a SOL from wallets with the creator's funder; three buyers and not two known funders; a
   * repeated template; and what gate 1 found.
   */
  lemma RiskPoints(c: Candidate, cfg: Config, env: Env)
    ensures var (hot, buyers) := (env.hot, Admissible(c, env.hot));
            RuntimeRisk(cfg, Stats(c, cfg, env), c.gate1Penalty, c.templateRepeats) ==
              Min(ConcentrationPoints(c, cfg, hot)
                  + If(Spent(c.earlyBuys, buyers) >= 2_500_000_000 && |buyers| <= 2, cfg.riskLiquidity)
                  + If(Bought(c.earlyBuys, Linked(c, hot)) >= 2 && Spent(c.earlyBuys, Linked(c, hot)) >= 500_000_000,
                       cfg.riskCreatorFunder)
                  + If(|buyers| >= 3 && |KnownFunders(c, hot)| < 2, 3)
                  + If(c.templateRepeats >= cfg.riskTemplateThreshold, HalfPoints(cfg.riskTemplate))
                  + c.gate1Penalty, cfg.riskCap)
  {
    ConcentrationIs(c, cfg, env);
    OthersAre(c, cfg, env);
    var xs := RuntimePenalties(cfg, Stats(c, cfg, env), c.templateRepeats);
    assert xs == [xs[0], xs[1], xs[2], xs[3], xs[4]];
    SumFive(xs[0], xs[1], xs[2], xs[3], xs[4]);
  }

  /** Where the points for capital, curve and momentum begin and where they are full. */
  lemma PointLevels(sol: real, pct: real, buys: nat)
    ensures Capital(Fast, sol) > 0 <==> sol >= 0.2
    ensures Capital(Fast, sol) > 10 <==> sol >= 0.5
    ensures Capital(Fast, sol) == 20 <==> sol >= 1.0
    ensures Capital(Soft, sol) > 0 <==> sol >= 0.5
    ensures Capital(Soft, sol) == 20 <==> sol >= 2.0
    ensures Curve(pct) > 0 <==> pct > 0.5
    ensures Curve(pct) > 5 <==> pct > 2.0
    ensures Curve(pct) == 15 <==> pct > 5.0
    ensures Momentum(buys) > 0 <==> buys >= 4
    ensures Momentum(buys) > 6 <==> buys >= 8
    ensures Momentum(buys) == 20 <==> buys >= 15
  {
  }

  /** More backers, SOL, progress or buyer quality never lower the points, and the fast path is never worth less. */
  lemma PointsGrow(path: Gate3Path, n: nat, n': nat, sol: real, sol': real, pct: real, pct': real, buys: nat,
      buys': nat)
    requires n <= n' && sol <= sol' && pct <= pct' && buys <= buys'
    ensures Participants(path, n) <= Participants(path, n') <= 30 && Participants(Soft, n) <= Participants(Fast, n)
    ensures Capital(path, sol) <= Capital(path, sol') <= 20 && Capital(Soft, sol) <= Capital(Fast, sol)
    ensures Curve(pct) <= Curve(pct') <= 15 && Momentum(buys) <= Momentum(buys') <= 20
    ensures Participants(path, n) == 30 <==> n >= 3
    ensures Participants(path, n) == 0 <==> n == 0
    ensures Participants(Fast, 2) == Participants(Fast, 1) + 6 && Participants(Soft, 2) == Participants(Soft, 1) + 10
  {
  }

  /** Buyer quality is rounded to the nearest of 0 to 15 points; a lone buyer on the fast path has at least 5. */
  lemma QualityRounded(pct: real, path: Gate3Path, buyers: nat)
    requires 0.0 <= pct <= 1.0
    ensures var q := BuyerQuality(pct, path, buyers);
            && q <= 15
            && (path == Soft || buyers >= 2 ==> q as real - 0.5 <= pct * 15.0 <= q as real + 0.5)
            && (path == Fast && buyers <= 1 ==>
                  q >= 5 && (q > 5 ==> q as real - 0.5 <= pct * 15.0 <= q as real + 0.5))
  {
  }

  /** What a score is measured against: the lower of two minima, with relief on the fast path, never below zero. */
  lemma RequiredScore(c: Candidate, cfg: Config, env: Env, path: Gate3Path)
    ensures var r := ScoreOf(c, Stats(c, cfg, env), cfg, env, path).required;
            && r <= cfg.minScore
            && (path == Soft ==> r <= cfg.softMinScore && (r == cfg.softMinScore || r == cfg.minScore))
            && (path == Fast ==>
                  r == SatSub(Min(cfg.fastMinScore, cfg.minScore),
                              If(WellSpread(c, env.hot), 4)
                              + If(Confirmed in c.narrativeTiers, cfg.confirmedFastRelief)))
  {
    BuyerSums(c, cfg, env.hot);
    QualityIff(c, cfg, env.hot);
    SomeHits(c.narrativeTiers, Confirmed);
  }
}
