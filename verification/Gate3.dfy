/** Gate 3: when the window statistics reject a candidate and when they trigger its scoring. */
module Gate3 {
  import opened Wrappers
  import opened FilterTypes
  import opened SmartMoney

  datatype Reject = CreatorSelfBuy | CreatorCluster | Concentration | LowDiversity | WindowClosed | MaxBuysReached

  /** The reasons on which a buy removes the candidate at once instead of waiting for the next tick. */
  predicate Immediate(reason: Reject) {
    reason in {CreatorSelfBuy, CreatorCluster, Concentration, MaxBuysReached}
  }

  predicate QualityStats(stats: WindowStats) {
    && stats.uniqueFunders >= QUALITY_MIN_FUNDERS
    && stats.hotFunderDiversity >= QUALITY_MIN_HOT_FUNDERS
    && stats.creatorFunderCount == 0
    && stats.clusterShare <= QUALITY_MAX_SHARE
  }

  predicate PressureStats(stats: WindowStats) {
    && stats.buyCount >= SAME_CLUSTER_MIN_BUYS
    && stats.largestCluster >= SAME_CLUSTER_MIN_BUYS
    && stats.clusterShare >= SAME_CLUSTER_SHARE
  }

  predicate FastReady(cfg: Config, stats: WindowStats) {
    && !PressureStats(stats)
    && Sol(stats.matchedLamports) >= (if QualityStats(stats) then RelaxedFastMin(cfg) else cfg.fastMinSol)
  }

  predicate SoftReady(cfg: Config, stats: WindowStats) {
    Sol(stats.matchedLamports) >= cfg.softMinSol
  }

  function Trigger(cfg: Config, stats: WindowStats): Option<Gate3Path> {
    if FastReady(cfg, stats) && stats.fastReachedAtMs.Some? && stats.fastReachedAtMs.value <= FastWindowMs(cfg)
        then Some(Fast)
    else if SoftReady(cfg, stats) && stats.softReachedAtMs.Some?
        && stats.softReachedAtMs.value <= SoftWindowMs(cfg) then Some(Soft)
    else None
  }

  function Share(part: real, whole: real): real {
    if whole > 0.0 then part / whole else 0.0
  }

  predicate SelfBuyBlocked(stats: WindowStats, cfg: Config) {
    var creatorSol := Sol(stats.creatorBuyLamports);
    var externalBuyers := SatSub(stats.eligibleBuyers, if stats.creatorBuyCount > 0 then 1 else 0);
    var externalSol := Sol(SatSub(stats.eligibleLamports, stats.creatorBuyLamports));
    var share := Share(creatorSol, Sol(stats.eligibleLamports));
    var supported := externalBuyers >= cfg.selfBuyMinExternalBuyers && externalSol >= cfg.selfBuyMinExternalSol;
    && cfg.selfBuyBlock
    && stats.creatorBuyCount > 0
    && (|| (creatorSol > cfg.selfBuyMaxSol && share > cfg.selfBuyHardShare)
        || (creatorSol > cfg.selfBuyHardSol && !supported)
        || (creatorSol > cfg.selfBuyMaxSol && share > cfg.selfBuyMaxShare && !supported))
  }

  predicate CreatorClusterBlocked(cand: Candidate, stats: WindowStats) {
    var externalSol := Sol(SatSub(stats.eligibleLamports, stats.creatorBuyLamports));
    && cand.creatorProfile.Some? && cand.creatorProfile.value.firstFunder.Some?
    && stats.creatorFunderCount >= CREATOR_CLUSTER_MIN_BUYERS
    && Sol(stats.creatorFunderLamports) >= CREATOR_CLUSTER_MIN_SOL
    && Share(Sol(stats.creatorFunderLamports), externalSol) >= CREATOR_CLUSTER_MAX_SHARE
  }

  function RejectReason(cand: Candidate, stats: WindowStats, cfg: Config): Option<Reject> {
    if SelfBuyBlocked(stats, cfg) then Some(CreatorSelfBuy)
    else if CreatorClusterBlocked(cand, stats) then Some(CreatorCluster)
    else if cfg.concentrationReject && |cand.earlyBuys| >= cfg.concentrationMinBuys
            && stats.maxBuyerShare > cfg.maxSingleBuyerShare then Some(Concentration)
    else if stats.buyCount >= CLUSTER_DIVERSITY_MIN_BUYS && stats.eligibleBuyers >= MIN_UNIQUE_FUNDERS
            && stats.uniqueFunders < MIN_UNIQUE_FUNDERS then Some(LowDiversity)
    else if stats.elapsedMs > HardRejectMs(cfg) then Some(WindowClosed)
    else if |cand.earlyBuys| >= cfg.maxBuys && !SoftReady(cfg, stats) then Some(MaxBuysReached)
    else None
  }

  /** Gate 3 as the handlers that do not reject read it: a trigger, unless some reason rejects. */
  function ShouldFinalize(cand: Candidate, cfg: Config, env: Env): Option<Gate3Path> {
    var stats := Stats(cand, cfg, env);
    if RejectReason(cand, stats, cfg).Some? then None else Trigger(cfg, stats)
  }

  /**
   * A trigger is backed by an early buy that matched: on either path the statistics meet that path's
   * minimum, and the buy at which they first did so was detected inside that path's window.
   */
  lemma TriggerBacked(cand: Candidate, cfg: Config, env: Env)
    requires Trigger(cfg, Stats(cand, cfg, env)).Some?
    ensures var lens := LensOf(cand, cfg, env.hot);
            var path := Trigger(cfg, Stats(cand, cfg, env)).value;
            exists k: nat :: k < |cand.earlyBuys|
              && FirstMet(lens, cfg, path, cand.earlyBuys) == Some(k)
              && MeetsAt(lens, cfg, path, cand.earlyBuys, k)
              && Picks(lens, Matched, cand.earlyBuys[k])
              && Elapsed(cand.detectedAtMs, cand.earlyBuys[k])
                 <= (if path == Fast then FastWindowMs(cfg) else SoftWindowMs(cfg))
  {
    var lens := LensOf(cand, cfg, env.hot);
    var path := Trigger(cfg, Stats(cand, cfg, env)).value;
    FirstMetIsFirst(lens, cfg, path, cand.earlyBuys);
    var k := FirstMet(lens, cfg, path, cand.earlyBuys).value;
    assert cand.earlyBuys[..k + 1][k] == cand.earlyBuys[k];
  }
}
