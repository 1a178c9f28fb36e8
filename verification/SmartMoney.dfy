/**
 * Window statistics over a candidate's early buys, and the gate-3 decisions taken on them.
 *
 * Every statistic is declared here over the whole list of buys (sums and counts of the buys that a
 * `Pick` selects, the first index at which a threshold is met, a maximum over buyers or funders).
 * `ScanWindow` is the program's single pass with running accumulators; it is proved against them.
 */
module SmartMoney {
  import opened Wrappers
  import opened FilterTypes

  const CLUSTER_DIVERSITY_MIN_BUYS := 4
  const MIN_UNIQUE_FUNDERS := 2
  const CREATOR_CLUSTER_MIN_BUYERS := 2
  const CREATOR_CLUSTER_MIN_SOL := 0.5
  const CREATOR_CLUSTER_MAX_SHARE := 0.85
  const SAME_CLUSTER_MIN_BUYS := 3
  const SAME_CLUSTER_SHARE := 0.66
  const QUALITY_MIN_FUNDERS := 3
  const QUALITY_MIN_HOT_FUNDERS := 2
  const QUALITY_MAX_SHARE := 0.60

  datatype Mode = Hotlist | EarlyBuyerFallback

  /** Everything about a candidate that classifies one of its buys. */
  datatype Lens = Lens(
    hot: HotLists,
    mode: Mode,
    creator: Address,
    creatorFunder: Option<Address>,
    profiles: map<Address, BuyerProfile>)

  /** The classes of buys whose sizes the statistics report. */
  datatype Pick =
    | Eligible
    | Matched
    | ByCreator
    | ByCreatorFunder
    | HotFunder
    | OfBuyer(buyer: Address)
    | OfFunder(funder: Address)

  datatype WindowStats = WindowStats(
    mode: Mode,
    fastThreshold: nat,
    softThreshold: nat,
    matchedWallets: set<Address>,
    matchedLamports: nat,
    eligibleLamports: nat,
    fastestMs: Option<nat>,
    fastReachedAtMs: Option<nat>,
    softReachedAtMs: Option<nat>,
    buyCount: nat,
    eligibleBuyers: nat,
    uniqueFunders: nat,
    creatorFunderCount: nat,
    creatorFunderLamports: nat,
    maxBuyerShare: real,
    creatorBuyCount: nat,
    creatorBuyLamports: nat,
    largestCluster: nat,
    clusterShare: real,
    hotFunderHits: nat,
    hotFunderDiversity: nat,
    elapsedMs: nat)

  // ---------------------------------------------------------------- configuration

  function Sol(lamports: nat): real {
    lamports as real / 1000000000.0
  }

  function ModeOf(cfg: Config, hot: HotLists): Mode {
    if cfg.disableSmartMoneyFilter then EarlyBuyerFallback
    else if hot.smartMoney == {} && hot.smartMoneyFunders == {} then EarlyBuyerFallback
    else Hotlist
  }

  function MaxWindowMs(cfg: Config): nat {
    Min(cfg.windowSecs * 1000, U64_MAX)
  }

  function SoftWindowMs(cfg: Config): nat {
    Min(Max(cfg.softWindowMs, cfg.fastWindowMs), MaxWindowMs(cfg))
  }

  function FastWindowMs(cfg: Config): nat {
    Min(cfg.fastWindowMs, SoftWindowMs(cfg))
  }

  function HardRejectMs(cfg: Config): nat {
    Min(Max(cfg.hardRejectMs, SoftWindowMs(cfg)), MaxWindowMs(cfg))
  }

  /** The three gate-3 deadlines are ordered however the configuration is filled in. */
  lemma WindowsNested(cfg: Config)
    ensures FastWindowMs(cfg) <= SoftWindowMs(cfg) <= HardRejectMs(cfg) <= MaxWindowMs(cfg)
  {
    assert SoftWindowMs(cfg) <= MaxWindowMs(cfg);
  }

  // ---------------------------------------------------------------- classifying buys

  function LensOf(cand: Candidate, cfg: Config, hot: HotLists): Lens {
    Lens(hot, ModeOf(cfg, hot), cand.creator,
         if cand.creatorProfile.Some? then cand.creatorProfile.value.firstFunder else None,
         cand.buyerProfiles)
  }

  function FunderOf(lens: Lens, buyer: Address): Option<Address> {
    if buyer in lens.profiles then lens.profiles[buyer].firstFunder else None
  }

  predicate OnHotlist(lens: Lens, buyer: Address) {
    buyer !in lens.hot.blockedBuyers
    && (buyer in lens.hot.smartMoney
        || (FunderOf(lens, buyer).Some? && FunderOf(lens, buyer).value in lens.hot.smartMoneyFunders))
  }

  predicate Picks(lens: Lens, pick: Pick, buy: Buy) {
    && buy.buyer !in lens.hot.blockedBuyers
    && match pick
       case Eligible => true
       case Matched => lens.mode == EarlyBuyerFallback || OnHotlist(lens, buy.buyer)
       case ByCreator => buy.buyer == lens.creator
       case ByCreatorFunder =>
         buy.buyer != lens.creator && lens.creatorFunder.Some?
         && FunderOf(lens, buy.buyer) == lens.creatorFunder
       case HotFunder =>
         FunderOf(lens, buy.buyer).Some? && FunderOf(lens, buy.buyer).value in lens.hot.smartMoneyFunders
       case OfBuyer(a) => buy.buyer == a
       case OfFunder(f) => FunderOf(lens, buy.buyer) == Some(f)
  }

  function Lamports(lens: Lens, pick: Pick, buys: seq<Buy>): nat {
    if buys == [] then 0
    else
      Lamports(lens, pick, buys[..|buys| - 1])
      + if Picks(lens, pick, buys[|buys| - 1]) then buys[|buys| - 1].lamports else 0
  }

  function Count(lens: Lens, pick: Pick, buys: seq<Buy>): nat {
    if buys == [] then 0
    else
      Count(lens, pick, buys[..|buys| - 1])
      + if Picks(lens, pick, buys[|buys| - 1]) then 1 else 0
  }

  function Wallets(lens: Lens, pick: Pick, buys: seq<Buy>): set<Address> {
    set b | b in buys && Picks(lens, pick, b) :: b.buyer
  }

  function Funders(lens: Lens, pick: Pick, buys: seq<Buy>): set<Address> {
    set b | b in buys && Picks(lens, pick, b) && FunderOf(lens, b.buyer).Some? :: FunderOf(lens, b.buyer).value
  }

  /** The most buys that share one first funder. */
  function LargestCluster(lens: Lens, buys: seq<Buy>): nat {
    if buys == [] then 0
    else
      var last := buys[|buys| - 1];
      var before := LargestCluster(lens, buys[..|buys| - 1]);
      if Picks(lens, Eligible, last) && FunderOf(lens, last.buyer).Some?
      then Max(before, Count(lens, OfFunder(FunderOf(lens, last.buyer).value), buys))
      else before
  }

  /** The most lamports that one eligible buyer spent. */
  function MaxBuyerLamports(lens: Lens, buys: seq<Buy>): nat {
    if buys == [] then 0
    else
      var last := buys[|buys| - 1];
      var before := MaxBuyerLamports(lens, buys[..|buys| - 1]);
      if Picks(lens, Eligible, last) then Max(before, Lamports(lens, OfBuyer(last.buyer), buys)) else before
  }

  function Ratio(part: nat, whole: nat): real {
    if whole == 0 then 0.0 else part as real / whole as real
  }

  function ClusterShare(lens: Lens, buys: seq<Buy>): real {
    Ratio(LargestCluster(lens, buys), |Wallets(lens, Eligible, buys)|)
  }

  function MaxBuyerShare(lens: Lens, buys: seq<Buy>): real {
    Ratio(MaxBuyerLamports(lens, buys), Lamports(lens, Eligible, buys))
  }

  // ---------------------------------------------------------------- thresholds reached along the list

  predicate QualityCluster(lens: Lens, buys: seq<Buy>) {
    && |Funders(lens, Eligible, buys)| >= QUALITY_MIN_FUNDERS
    && |Funders(lens, HotFunder, buys)| >= QUALITY_MIN_HOT_FUNDERS
    && Count(lens, ByCreatorFunder, buys) == 0
    && ClusterShare(lens, buys) <= QUALITY_MAX_SHARE
  }

  function RelaxedFastMin(cfg: Config): real {
    if cfg.fastMinSol * 0.85 >= 0.05 then cfg.fastMinSol * 0.85 else 0.05
  }

  predicate Pressure(lens: Lens, buys: seq<Buy>) {
    && Count(lens, Eligible, buys) >= SAME_CLUSTER_MIN_BUYS
    && LargestCluster(lens, buys) >= SAME_CLUSTER_MIN_BUYS
    && ClusterShare(lens, buys) >= SAME_CLUSTER_SHARE
  }

  /** The last buy of the list is matched and the list up to it meets the path's minimum. */
  predicate MeetsAtLast(lens: Lens, cfg: Config, path: Gate3Path, buys: seq<Buy>)
    requires buys != []
  {
    && Picks(lens, Matched, buys[|buys| - 1])
    && match path
       case Soft => Sol(Lamports(lens, Matched, buys)) >= cfg.softMinSol
       case Fast =>
         && !Pressure(lens, buys)
         && Sol(Lamports(lens, Matched, buys))
            >= (if QualityCluster(lens, buys) then RelaxedFastMin(cfg) else cfg.fastMinSol)
  }

  predicate MeetsAt(lens: Lens, cfg: Config, path: Gate3Path, buys: seq<Buy>, i: nat)
    requires i < |buys|
  {
    MeetsAtLast(lens, cfg, path, buys[..i + 1])
  }

  function FirstMet(lens: Lens, cfg: Config, path: Gate3Path, buys: seq<Buy>): (hit: Option<nat>)
    ensures hit.Some? ==> hit.value < |buys|
  {
    if buys == [] then None
    else
      var before := FirstMet(lens, cfg, path, buys[..|buys| - 1]);
      if before.Some? then before
      else if MeetsAtLast(lens, cfg, path, buys) then Some(|buys| - 1)
      else None
  }

  function Elapsed(detectedAtMs: nat, buy: Buy): nat {
    SatSub(buy.detectedAtMs, detectedAtMs)
  }

  function ReachedAt(lens: Lens, cfg: Config, path: Gate3Path, detectedAtMs: nat, buys: seq<Buy>): Option<nat> {
    match FirstMet(lens, cfg, path, buys)
    case None => None
    case Some(i) => Some(Elapsed(detectedAtMs, buys[i]))
  }

  /** The smallest elapsed time of a matched buy. */
  function Fastest(lens: Lens, detectedAtMs: nat, buys: seq<Buy>): Option<nat> {
    if buys == [] then None
    else
      var last := buys[|buys| - 1];
      var before := Fastest(lens, detectedAtMs, buys[..|buys| - 1]);
      if !Picks(lens, Matched, last) then before
      else if before.None? then Some(Elapsed(detectedAtMs, last))
      else Some(Min(before.value, Elapsed(detectedAtMs, last)))
  }

  /** The declared statistics of a candidate. */
  function Stats(cand: Candidate, cfg: Config, env: Env): WindowStats {
    var lens := LensOf(cand, cfg, env.hot);
    var buys := cand.earlyBuys;
    WindowStats(
      lens.mode,
      Min(cfg.smartMoneyFastThreshold, cfg.smartMoneyThreshold),
      cfg.smartMoneyThreshold,
      Wallets(lens, Matched, buys),
      Lamports(lens, Matched, buys),
      Lamports(lens, Eligible, buys),
      Fastest(lens, cand.detectedAtMs, buys),
      ReachedAt(lens, cfg, Fast, cand.detectedAtMs, buys),
      ReachedAt(lens, cfg, Soft, cand.detectedAtMs, buys),
      |buys|,
      |Wallets(lens, Eligible, buys)|,
      |Funders(lens, Eligible, buys)|,
      Count(lens, ByCreatorFunder, buys),
      Lamports(lens, ByCreatorFunder, buys),
      MaxBuyerShare(lens, buys),
      Count(lens, ByCreator, buys),
      Lamports(lens, ByCreator, buys),
      LargestCluster(lens, buys),
      ClusterShare(lens, buys),
      Count(lens, HotFunder, buys),
      |Funders(lens, HotFunder, buys)|,
      SatSub(env.now, cand.createdAt))
  }

  // ---------------------------------------------------------------- what the declared statistics mean

  /** `FirstMet` is the least index at which the path's minimum is met, and `None` only if there is none. */
  lemma {:induction false} FirstMetIsFirst(lens: Lens, cfg: Config, path: Gate3Path, buys: seq<Buy>)
    ensures match FirstMet(lens, cfg, path, buys)
            case None => forall i :: 0 <= i < |buys| ==> !MeetsAt(lens, cfg, path, buys, i)
            case Some(k) =>
              && k < |buys| && MeetsAt(lens, cfg, path, buys, k)
              && forall i :: 0 <= i < k ==> !MeetsAt(lens, cfg, path, buys, i)
  {
    if buys != [] {
      var n := |buys| - 1;
      FirstMetIsFirst(lens, cfg, path, buys[..n]);
      forall i: nat | i < n
        ensures MeetsAt(lens, cfg, path, buys[..n], i) == MeetsAt(lens, cfg, path, buys, i)
      {
        assert buys[..n][..i + 1] == buys[..i + 1];
      }
      assert buys[..n + 1] == buys;
    }
  }

  /** Buys that arrive later never move a threshold that was already met. */
  lemma {:induction false} FirstMetStable(lens: Lens, cfg: Config, path: Gate3Path, buys: seq<Buy>, more: seq<Buy>)
    requires FirstMet(lens, cfg, path, buys).Some?
    ensures FirstMet(lens, cfg, path, buys + more) == FirstMet(lens, cfg, path, buys)
  {
    if more == [] {
      assert buys + more == buys;
    } else {
      FirstMetStable(lens, cfg, path, buys, more[..|more| - 1]);
      assert (buys + more)[..|buys + more| - 1] == buys + more[..|more| - 1];
    }
  }

  /**
   * The soft threshold is reached exactly when some buy matched and the final matched total meets the
   * minimum; the reported time is then that of the first matched buy whose cumulative total does.
   */
  lemma {:induction false} SoftReachedIff(lens: Lens, cfg: Config, detectedAtMs: nat, buys: seq<Buy>)
    ensures ReachedAt(lens, cfg, Soft, detectedAtMs, buys).Some?
            <==> Count(lens, Matched, buys) > 0 && Sol(Lamports(lens, Matched, buys)) >= cfg.softMinSol
    ensures ReachedAt(lens, cfg, Soft, detectedAtMs, buys).Some? ==>
      exists k :: 0 <= k < |buys| && Picks(lens, Matched, buys[k])
        && Sol(Lamports(lens, Matched, buys[..k + 1])) >= cfg.softMinSol
        && (forall i :: 0 <= i < k && Picks(lens, Matched, buys[i]) ==>
              Sol(Lamports(lens, Matched, buys[..i + 1])) < cfg.softMinSol)
        && ReachedAt(lens, cfg, Soft, detectedAtMs, buys) == Some(Elapsed(detectedAtMs, buys[k]))
  {
    FirstMetIsFirst(lens, cfg, Soft, buys);
    if ReachedAt(lens, cfg, Soft, detectedAtMs, buys).Some? {
      var k := FirstMet(lens, cfg, Soft, buys).value;
      forall i | 0 <= i < k && Picks(lens, Matched, buys[i])
        ensures Sol(Lamports(lens, Matched, buys[..i + 1])) < cfg.softMinSol
      {
        assert !MeetsAt(lens, cfg, Soft, buys, i) && buys[..i + 1][i] == buys[i];
      }
      assert buys[..k + 1][k] == buys[k];
      assert Picks(lens, Matched, buys[k]);
    }
    SoftFirstMetIff(lens, cfg, buys);
  }

  lemma {:induction false} SoftFirstMetIff(lens: Lens, cfg: Config, buys: seq<Buy>)
    ensures FirstMet(lens, cfg, Soft, buys).Some?
            <==> Count(lens, Matched, buys) > 0 && Sol(Lamports(lens, Matched, buys)) >= cfg.softMinSol
  {
    if buys != [] {
      SoftFirstMetIff(lens, cfg, buys[..|buys| - 1]);
    }
  }

  /** A class of buys contained in another never outweighs it, in number or in lamports. */
  lemma {:induction false} PickMonotone(lens: Lens, small: Pick, large: Pick, buys: seq<Buy>)
    requires forall b :: b in buys && Picks(lens, small, b) ==> Picks(lens, large, b)
    ensures Lamports(lens, small, buys) <= Lamports(lens, large, buys)
    ensures Count(lens, small, buys) <= Count(lens, large, buys)
  {
    if buys != [] {
      PickMonotone(lens, small, large, buys[..|buys| - 1]);
      assert buys[|buys| - 1] in buys;
    }
  }

  lemma {:induction false} CreatorSidesDisjoint(lens: Lens, buys: seq<Buy>)
    ensures Lamports(lens, ByCreator, buys) + Lamports(lens, ByCreatorFunder, buys) <= Lamports(lens, Eligible, buys)
  {
    if buys != [] {
      CreatorSidesDisjoint(lens, buys[..|buys| - 1]);
    }
  }

  /** Matched SOL, and creator SOL plus creator-funder SOL, each stay within eligible SOL. */
  lemma SharesWithinEligible(lens: Lens, buys: seq<Buy>)
    ensures Lamports(lens, Matched, buys) <= Lamports(lens, Eligible, buys)
    ensures Lamports(lens, ByCreator, buys) + Lamports(lens, ByCreatorFunder, buys) <= Lamports(lens, Eligible, buys)
  {
    PickMonotone(lens, Matched, Eligible, buys);
    CreatorSidesDisjoint(lens, buys);
  }

  /** The lamports of the listed buyers, added up buyer by buyer. */
  ghost function SumOverBuyers(lens: Lens, buyers: set<Address>, buys: seq<Buy>): nat
    decreases |buyers|
  {
    if buyers == {} then 0
    else
      var a :| a in buyers;
      Lamports(lens, OfBuyer(a), buys) + SumOverBuyers(lens, buyers - {a}, buys)
  }

  /** The order in which buyers are added up does not matter. */
  lemma {:induction false} SumOverBuyersPick(lens: Lens, buyers: set<Address>, a: Address, buys: seq<Buy>)
    requires a in buyers
    ensures SumOverBuyers(lens, buyers, buys)
            == Lamports(lens, OfBuyer(a), buys) + SumOverBuyers(lens, buyers - {a}, buys)
    decreases |buyers|
  {
    var c :| c in buyers && SumOverBuyers(lens, buyers, buys)
                            == Lamports(lens, OfBuyer(c), buys) + SumOverBuyers(lens, buyers - {c}, buys);
    if c != a {
      SumOverBuyersPick(lens, buyers - {c}, a, buys);
      SumOverBuyersPick(lens, buyers - {a}, c, buys);
      assert buyers - {c} - {a} == buyers - {a} - {c};
    }
  }

  lemma {:induction false} SumOverBuyersSnoc(lens: Lens, buyers: set<Address>, buys: seq<Buy>)
    requires buys != []
    ensures SumOverBuyers(lens, buyers, buys)
            == SumOverBuyers(lens, buyers, buys[..|buys| - 1])
               + (if Picks(lens, Eligible, buys[|buys| - 1]) && buys[|buys| - 1].buyer in buyers
                  then buys[|buys| - 1].lamports else 0)
    decreases |buyers|
  {
    if buyers != {} {
      var a :| a in buyers;
      SumOverBuyersSnoc(lens, buyers - {a}, buys);
      SumOverBuyersPick(lens, buyers, a, buys);
      SumOverBuyersPick(lens, buyers, a, buys[..|buys| - 1]);
    }
  }

  /** Per-buyer totals account for every eligible lamport. */
  lemma {:induction false} BuyerTotalsSum(lens: Lens, buyers: set<Address>, buys: seq<Buy>)
    requires Wallets(lens, Eligible, buys) <= buyers
    ensures SumOverBuyers(lens, buyers, buys) == Lamports(lens, Eligible, buys)
  {
    if buys == [] {
      NoBuysNoTotals(lens, buyers);
    } else {
      var last := buys[|buys| - 1];
      assert last in buys;
      assert Picks(lens, Eligible, last) ==> last.buyer in Wallets(lens, Eligible, buys);
      assert Wallets(lens, Eligible, buys[..|buys| - 1]) <= Wallets(lens, Eligible, buys);
      BuyerTotalsSum(lens, buyers, buys[..|buys| - 1]);
      SumOverBuyersSnoc(lens, buyers, buys);
    }
  }

  lemma {:induction false} NoBuysNoTotals(lens: Lens, buyers: set<Address>)
    ensures SumOverBuyers(lens, buyers, []) == 0
    decreases |buyers|
  {
    if buyers != {} {
      var a :| a in buyers;
      SumOverBuyersPick(lens, buyers, a, []);
      assert Lamports(lens, OfBuyer(a), []) == 0;
      NoBuysNoTotals(lens, buyers - {a});
    }
  }

  /** `MaxBuyerLamports` bounds every buyer's total and, unless it is zero, is one buyer's total. */
  lemma {:induction false} MaxBuyerIsMax(lens: Lens, buys: seq<Buy>)
    ensures forall a :: Lamports(lens, OfBuyer(a), buys) <= MaxBuyerLamports(lens, buys)
    ensures MaxBuyerLamports(lens, buys) == 0
            || exists a :: a in Wallets(lens, Eligible, buys)
                && Lamports(lens, OfBuyer(a), buys) == MaxBuyerLamports(lens, buys)
  {
    if buys != [] {
      var n := |buys| - 1;
      var last := buys[n];
      MaxBuyerIsMax(lens, buys[..n]);
      assert last in buys && buys == buys[..n] + [last];
      if Picks(lens, Eligible, last) && MaxBuyerLamports(lens, buys) == Lamports(lens, OfBuyer(last.buyer), buys) {
        assert last.buyer in Wallets(lens, Eligible, buys);
      } else if MaxBuyerLamports(lens, buys) != 0 {
        var a :| && a in Wallets(lens, Eligible, buys[..n])
                 && Lamports(lens, OfBuyer(a), buys[..n]) == MaxBuyerLamports(lens, buys[..n]);
        assert a in Wallets(lens, Eligible, buys);
      }
    }
  }

  /** Some funder stands behind `LargestCluster` buys and none behind more. */
  lemma {:induction false} LargestClusterIsMax(lens: Lens, buys: seq<Buy>)
    ensures forall f :: Count(lens, OfFunder(f), buys) <= LargestCluster(lens, buys)
    ensures LargestCluster(lens, buys) == 0
            || exists f :: f in Funders(lens, Eligible, buys)
                && Count(lens, OfFunder(f), buys) == LargestCluster(lens, buys)
  {
    if buys != [] {
      var n := |buys| - 1;
      var last := buys[n];
      LargestClusterIsMax(lens, buys[..n]);
      assert last in buys && buys == buys[..n] + [last];
      var funder := FunderOf(lens, last.buyer);
      if Picks(lens, Eligible, last) && funder.Some?
         && LargestCluster(lens, buys) == Count(lens, OfFunder(funder.value), buys) {
        assert funder.value in Funders(lens, Eligible, buys);
      } else if LargestCluster(lens, buys) != 0 {
        var f :| && f in Funders(lens, Eligible, buys[..n])
                 && Count(lens, OfFunder(f), buys[..n]) == LargestCluster(lens, buys[..n]);
        assert f in Funders(lens, Eligible, buys);
      }
    }
  }

  lemma {:induction false} SumBounded(lens: Lens, buyers: set<Address>, buys: seq<Buy>, bound: nat)
    requires forall a :: Lamports(lens, OfBuyer(a), buys) <= bound
    ensures SumOverBuyers(lens, buyers, buys) <= bound * |buyers|
    decreases |buyers|
  {
    if buyers != {} {
      var a :| a in buyers && SumOverBuyers(lens, buyers, buys)
                              == Lamports(lens, OfBuyer(a), buys) + SumOverBuyers(lens, buyers - {a}, buys);
      SumBounded(lens, buyers - {a}, buys, bound);
      var rest := |buyers - {a}|;
      assert |buyers| == rest + 1;
      assert bound * (rest + 1) == bound * rest + bound;
    }
  }

  /** The largest buyer's total times the number of eligible buyers covers the eligible SOL. */
  lemma LargestBuyerCovers(lens: Lens, buys: seq<Buy>)
    ensures Lamports(lens, Eligible, buys) <= MaxBuyerLamports(lens, buys) * |Wallets(lens, Eligible, buys)|
  {
    MaxBuyerIsMax(lens, buys);
    BuyerTotalsSum(lens, Wallets(lens, Eligible, buys), buys);
    SumBounded(lens, Wallets(lens, Eligible, buys), buys, MaxBuyerLamports(lens, buys));
  }

  // ---------------------------------------------------------------- the single pass

  lemma SnocSums(lens: Lens, pick: Pick, before: seq<Buy>, buy: Buy)
    ensures Count(lens, pick, before + [buy]) == Count(lens, pick, before) + if Picks(lens, pick, buy) then 1 else 0
    ensures Lamports(lens, pick, before + [buy])
            == Lamports(lens, pick, before) + if Picks(lens, pick, buy) then buy.lamports else 0
  {
    var now := before + [buy];
    assert now[..|now| - 1] == before && now[|now| - 1] == buy;
  }

  /** One more buy changes each declared quantity by that buy's own contribution. */
  lemma Snoc(lens: Lens, pick: Pick, before: seq<Buy>, buy: Buy)
    ensures Count(lens, pick, before + [buy]) == Count(lens, pick, before) + if Picks(lens, pick, buy) then 1 else 0
    ensures Lamports(lens, pick, before + [buy])
            == Lamports(lens, pick, before) + if Picks(lens, pick, buy) then buy.lamports else 0
    ensures Wallets(lens, pick, before + [buy])
            == Wallets(lens, pick, before) + (if Picks(lens, pick, buy) then {buy.buyer} else {})
    ensures Funders(lens, pick, before + [buy])
            == Funders(lens, pick, before)
               + (if Picks(lens, pick, buy) && FunderOf(lens, buy.buyer).Some? then {FunderOf(lens, buy.buyer).value}
                   else {})
  {
    SnocSums(lens, pick, before, buy);
    assert forall b :: b in before + [buy] <==> b in before || b == buy;
  }

  /** The greatest value of a table, zero when it is empty. */
  method MaxValue(table: map<Address, nat>) returns (n: nat)
    ensures forall k :: k in table ==> table[k] <= n
    ensures n == 0 || exists k :: k in table && table[k] == n
  {
    n := 0;
    var left := table.Keys;
    while left != {}
      invariant left <= table.Keys
      invariant forall k :: k in table.Keys - left ==> table[k] <= n
      invariant n == 0 || exists k :: k in table && table[k] == n
      decreases |left|
    {
      var k :| k in left;
      left := left - {k};
      if table[k] > n {
        n := table[k];
      }
    }
  }

  /**
   * The table holds each funder's number of eligible buys; its greatest value is the declared cluster size.
   */
  lemma TableMaxIsCluster(lens: Lens, buys: seq<Buy>, table: map<Address, nat>, n: nat)
    requires IsFunderTable(table, lens, buys)
    requires forall f :: f in table ==> table[f] <= n
    requires n == 0 || exists f :: f in table && table[f] == n
    ensures n == LargestCluster(lens, buys)
  {
    LargestClusterIsMax(lens, buys);
  }

  /** The running accumulators of the pass: SOL totals, funder tables, and threshold hits. */
  datatype Totals = Totals(
    eligibleCount: nat, eligible: nat, buyers: set<Address>, byBuyer: map<Address, nat>,
    creatorCount: nat, creator: nat, linkedCount: nat, linked: nat)

  datatype FunderTally = FunderTally(unique: set<Address>, counts: map<Address, nat>, hotHits: nat, hot: set<Address>)

  datatype Hits = Hits(
    wallets: set<Address>, matched: nat, fastest: Option<nat>, fastReached: Option<nat>, softReached: Option<nat>)

  ghost predicate TotalsHold(t: Totals, lens: Lens, buys: seq<Buy>) {
    && t.eligibleCount == Count(lens, Eligible, buys)
    && t.eligible == Lamports(lens, Eligible, buys)
    && t.buyers == Wallets(lens, Eligible, buys)
    && t.creatorCount == Count(lens, ByCreator, buys)
    && t.creator == Lamports(lens, ByCreator, buys)
    && t.linkedCount == Count(lens, ByCreatorFunder, buys)
    && t.linked == Lamports(lens, ByCreatorFunder, buys)
    && IsBuyerTable(t.byBuyer, lens, buys)
  }

  ghost predicate IsBuyerTable(table: map<Address, nat>, lens: Lens, buys: seq<Buy>) {
    && table.Keys == Wallets(lens, Eligible, buys)
    && forall a :: Lamports(lens, OfBuyer(a), buys) == if a in table then table[a] else 0
  }

  ghost predicate IsFunderTable(table: map<Address, nat>, lens: Lens, buys: seq<Buy>) {
    && table.Keys == Funders(lens, Eligible, buys)
    && forall f :: Count(lens, OfFunder(f), buys) == if f in table then table[f] else 0
  }

  ghost predicate FundersHold(t: FunderTally, lens: Lens, buys: seq<Buy>) {
    && t.unique == Funders(lens, Eligible, buys)
    && t.hotHits == Count(lens, HotFunder, buys)
    && t.hot == Funders(lens, HotFunder, buys)
    && IsFunderTable(t.counts, lens, buys)
  }

  function Bump(table: map<Address, nat>, key: Address, amount: nat): map<Address, nat> {
    table[key := (if key in table then table[key] else 0) + amount]
  }

  lemma BuyerTableStep(table: map<Address, nat>, lens: Lens, before: seq<Buy>, buy: Buy)
    requires IsBuyerTable(table, lens, before) && Picks(lens, Eligible, buy)
    ensures IsBuyerTable(Bump(table, buy.buyer, buy.lamports), lens, before + [buy])
  {
    Snoc(lens, Eligible, before, buy);
    var now := Bump(table, buy.buyer, buy.lamports);
    forall a
      ensures Lamports(lens, OfBuyer(a), before + [buy]) == if a in now then now[a] else 0
    {
      SnocSums(lens, OfBuyer(a), before, buy);
    }
  }

  lemma FunderTableStep(table: map<Address, nat>, lens: Lens, before: seq<Buy>, buy: Buy)
    requires IsFunderTable(table, lens, before) && Picks(lens, Eligible, buy)
    ensures var funder := FunderOf(lens, buy.buyer);
            IsFunderTable(if funder.Some? then Bump(table, funder.value, 1) else table, lens, before + [buy])
  {
    Snoc(lens, Eligible, before, buy);
    var funder := FunderOf(lens, buy.buyer);
    var now := if funder.Some? then Bump(table, funder.value, 1) else table;
    forall f
      ensures Count(lens, OfFunder(f), before + [buy]) == if f in now then now[f] else 0
    {
      SnocSums(lens, OfFunder(f), before, buy);
    }
  }

  ghost predicate HitsHold(h: Hits, lens: Lens, cfg: Config, detectedAtMs: nat, buys: seq<Buy>) {
    && h.wallets == Wallets(lens, Matched, buys)
    && h.matched == Lamports(lens, Matched, buys)
    && h.fastest == Fastest(lens, detectedAtMs, buys)
    && h.fastReached == ReachedAt(lens, cfg, Fast, detectedAtMs, buys)
    && h.softReached == ReachedAt(lens, cfg, Soft, detectedAtMs, buys)
  }

  /** The loop body's funder bookkeeping for a buy that is not blocked. */
  method CountFunder(t: FunderTally, lens: Lens, ghost before: seq<Buy>, buy: Buy) returns (t': FunderTally)
    requires FundersHold(t, lens, before) && Picks(lens, Eligible, buy)
    ensures FundersHold(t', lens, before + [buy])
  {
    Snoc(lens, Eligible, before, buy);
    Snoc(lens, HotFunder, before, buy);
    FunderTableStep(t.counts, lens, before, buy);
    t' := t;
    var funder := FunderOf(lens, buy.buyer);
    if funder.Some? {
      t' := t'.(unique := t.unique + {funder.value}, counts := Bump(t.counts, funder.value, 1));
      if funder.value in lens.hot.smartMoneyFunders {
        t' := t'.(hotHits := t.hotHits + 1, hot := t.hot + {funder.value});
      }
    }
  }

  /** The loop body's SOL bookkeeping for a buy that is not blocked. */
  method CountSol(t: Totals, lens: Lens, ghost before: seq<Buy>, buy: Buy) returns (t': Totals)
    requires TotalsHold(t, lens, before) && Picks(lens, Eligible, buy)
    ensures TotalsHold(t', lens, before + [buy])
  {
    Snoc(lens, Eligible, before, buy);
    SnocSums(lens, ByCreator, before, buy);
    SnocSums(lens, ByCreatorFunder, before, buy);
    BuyerTableStep(t.byBuyer, lens, before, buy);
    var funder := FunderOf(lens, buy.buyer);
    t' := t.(eligibleCount := t.eligibleCount + 1, buyers := t.buyers + {buy.buyer},
             eligible := t.eligible + buy.lamports, byBuyer := Bump(t.byBuyer, buy.buyer, buy.lamports));
    if buy.buyer == lens.creator {
      t' := t'.(creatorCount := t.creatorCount + 1, creator := t.creator + buy.lamports);
    } else if lens.creatorFunder.Some? && funder.Some? && lens.creatorFunder.value == funder.value {
      t' := t'.(linkedCount := t.linkedCount + 1, linked := t.linked + buy.lamports);
    }
  }

  /** Cluster quality and same-cluster pressure, from the running accumulators. */
  method ClusterTests(t: Totals, f: FunderTally, lens: Lens, ghost now: seq<Buy>, cluster: nat)
    returns (quality: bool, pressure: bool)
    requires TotalsHold(t, lens, now) && FundersHold(f, lens, now) && cluster == LargestCluster(lens, now)
    ensures quality == QualityCluster(lens, now) && pressure == Pressure(lens, now)
  {
    var share := if |t.buyers| == 0 then 0.0 else cluster as real / |t.buyers| as real;
    quality := |f.unique| >= QUALITY_MIN_FUNDERS && |f.hot| >= QUALITY_MIN_HOT_FUNDERS
               && t.linkedCount == 0 && share <= QUALITY_MAX_SHARE;
    pressure := t.eligibleCount >= SAME_CLUSTER_MIN_BUYS && cluster >= SAME_CLUSTER_MIN_BUYS
                && share >= SAME_CLUSTER_SHARE;
  }

  /** Second half of the loop body: a matched buy may be the one at which a threshold is first met. */
  method MatchBuy(h: Hits, t: Totals, f: FunderTally, lens: Lens, cfg: Config, detectedAtMs: nat,
      ghost before: seq<Buy>, buy: Buy)
    returns (h': Hits)
    requires TotalsHold(t, lens, before + [buy]) && FundersHold(f, lens, before + [buy])
    requires HitsHold(h, lens, cfg, detectedAtMs, before)
    requires Picks(lens, Matched, buy)
    ensures HitsHold(h', lens, cfg, detectedAtMs, before + [buy])
  {
    ghost var now := before + [buy];
    assert now[..|now| - 1] == before && now[|now| - 1] == buy;
    var matched := h.matched + buy.lamports;
    Snoc(lens, Matched, before, buy);
    var elapsed := SatSub(buy.detectedAtMs, detectedAtMs);
    var cluster := MaxValue(f.counts);
    TableMaxIsCluster(lens, now, f.counts, cluster);
    var quality, pressure := ClusterTests(t, f, lens, now, cluster);
    var fastMin := if quality then RelaxedFastMin(cfg) else cfg.fastMinSol;
    h' := Hits(h.wallets + {buy.buyer}, matched,
               Some(if h.fastest.Some? then Min(h.fastest.value, elapsed) else elapsed), h.fastReached, h.softReached);
    if h.fastReached.None? && !pressure && Sol(matched) >= fastMin {
      h' := h'.(fastReached := Some(elapsed));
    }
    if h.softReached.None? && Sol(matched) >= cfg.softMinSol {
      h' := h'.(softReached := Some(elapsed));
    }
    ReachedAtSnoc(lens, cfg, Fast, detectedAtMs, before, buy);
    ReachedAtSnoc(lens, cfg, Soft, detectedAtMs, before, buy);
  }

  lemma ReachedAtSnoc(lens: Lens, cfg: Config, path: Gate3Path, detectedAtMs: nat, before: seq<Buy>, buy: Buy)
    ensures ReachedAt(lens, cfg, path, detectedAtMs, before + [buy])
            == if ReachedAt(lens, cfg, path, detectedAtMs, before).Some?
                then ReachedAt(lens, cfg, path, detectedAtMs, before)
               else if MeetsAtLast(lens, cfg, path, before + [buy]) then Some(Elapsed(detectedAtMs, buy))
               else None
  {
    var now := before + [buy];
    assert now[..|now| - 1] == before && now[|now| - 1] == buy;
  }

  /** A buy that does not match leaves every recorded hit as it was. */
  lemma UnmatchedStep(h: Hits, lens: Lens, cfg: Config, detectedAtMs: nat, before: seq<Buy>, buy: Buy)
    requires HitsHold(h, lens, cfg, detectedAtMs, before)
    requires !Picks(lens, Matched, buy)
    ensures HitsHold(h, lens, cfg, detectedAtMs, before + [buy])
  {
    var now := before + [buy];
    assert now[..|now| - 1] == before && now[|now| - 1] == buy;
    Snoc(lens, Matched, before, buy);
  }

  /** A blocked buy leaves every total and table as it was. */
  lemma BlockedStep(t: Totals, f: FunderTally, lens: Lens, before: seq<Buy>, buy: Buy)
    requires TotalsHold(t, lens, before) && FundersHold(f, lens, before)
    requires !Picks(lens, Eligible, buy)
    ensures TotalsHold(t, lens, before + [buy]) && FundersHold(f, lens, before + [buy])
  {
    Snoc(lens, Eligible, before, buy);
    Snoc(lens, HotFunder, before, buy);
    SnocSums(lens, ByCreator, before, buy);
    SnocSums(lens, ByCreatorFunder, before, buy);
    forall a
      ensures Lamports(lens, OfBuyer(a), before + [buy]) == Lamports(lens, OfBuyer(a), before)
      ensures Count(lens, OfFunder(a), before + [buy]) == Count(lens, OfFunder(a), before)
    {
      SnocSums(lens, OfBuyer(a), before, buy);
      SnocSums(lens, OfFunder(a), before, buy);
    }
  }

  /** One turn of the loop. */
  method PassStep(t: Totals, f: FunderTally, h: Hits, lens: Lens, cfg: Config, detectedAtMs: nat,
      ghost before: seq<Buy>, buy: Buy)
    returns (t': Totals, f': FunderTally, h': Hits)
    requires TotalsHold(t, lens, before) && FundersHold(f, lens, before)
    requires HitsHold(h, lens, cfg, detectedAtMs, before)
    ensures TotalsHold(t', lens, before + [buy]) && FundersHold(f', lens, before + [buy])
    ensures HitsHold(h', lens, cfg, detectedAtMs, before + [buy])
  {
    t', f', h' := t, f, h;
    if buy.buyer in lens.hot.blockedBuyers {
      BlockedStep(t, f, lens, before, buy);
      UnmatchedStep(h, lens, cfg, detectedAtMs, before, buy);
      return;
    }
    f' := CountFunder(f, lens, before, buy);
    t' := CountSol(t, lens, before, buy);
    if lens.mode == Hotlist && !OnHotlist(lens, buy.buyer) {
      UnmatchedStep(h, lens, cfg, detectedAtMs, before, buy);
    } else {
      h' := MatchBuy(h, t', f', lens, cfg, detectedAtMs, before, buy);
    }
  }

  method RunPass(lens: Lens, cfg: Config, detectedAtMs: nat, buys: seq<Buy>)
    returns (t: Totals, f: FunderTally, h: Hits)
    ensures TotalsHold(t, lens, buys) && FundersHold(f, lens, buys)
    ensures HitsHold(h, lens, cfg, detectedAtMs, buys)
  {
    t := Totals(0, 0, {}, map[], 0, 0, 0, 0);
    f := FunderTally({}, map[], 0, {});
    h := Hits({}, 0, None, None, None);
    for i := 0 to |buys|
      invariant TotalsHold(t, lens, buys[..i]) && FundersHold(f, lens, buys[..i])
      invariant HitsHold(h, lens, cfg, detectedAtMs, buys[..i])
    {
      assert buys[..i + 1] == buys[..i] + [buys[i]];
      t, f, h := PassStep(t, f, h, lens, cfg, detectedAtMs, buys[..i], buys[i]);
    }
    assert buys[..|buys|] == buys;
  }

  /**
   * The program's pass over the early buys. It returns the declared statistics whatever order the
   * totals are enumerated in, together with one of the buyers whose share is the greatest.
   */
  method ScanWindow(cand: Candidate, cfg: Config, env: Env) returns (stats: WindowStats, maxBuyer: Option<Address>)
    ensures stats == Stats(cand, cfg, env)
    ensures maxBuyer.Some? <==> stats.eligibleLamports > 0
    ensures maxBuyer.Some? ==>
      forall a :: Lamports(LensOf(cand, cfg, env.hot), OfBuyer(a), cand.earlyBuys)
                  <= Lamports(LensOf(cand, cfg, env.hot), OfBuyer(maxBuyer.value), cand.earlyBuys)
  {
    var lens := LensOf(cand, cfg, env.hot);
    var buys := cand.earlyBuys;
    var t, f, h := RunPass(lens, cfg, cand.detectedAtMs, buys);
    var cluster := MaxValue(f.counts);
    TableMaxIsCluster(lens, buys, f.counts, cluster);
    var clusterShare := if |t.buyers| == 0 then 0.0 else cluster as real / |t.buyers| as real;
    var maxShare;
    maxShare, maxBuyer := LargestShare(lens, buys, t.byBuyer, t.eligible);
    stats := WindowStats(
      lens.mode, Min(cfg.smartMoneyFastThreshold, cfg.smartMoneyThreshold), cfg.smartMoneyThreshold,
      h.wallets, h.matched, t.eligible, h.fastest, h.fastReached, h.softReached, |buys|,
      |t.buyers|, |f.unique|, t.linkedCount, t.linked, maxShare, t.creatorCount, t.creator,
      cluster, clusterShare, f.hotHits, |f.hot|, SatSub(env.now, cand.createdAt));
  }

  lemma ShareOrder(a: nat, b: nat, total: nat)
    requires total > 0
    ensures a as real / total as real >= b as real / total as real <==> a >= b
  {
    var t := total as real;
    assert (a as real / t) * t == a as real && (b as real / t) * t == b as real;
    if a >= b {
      assert (a as real / t - b as real / t) * t >= 0.0;
    } else {
      assert (b as real / t - a as real / t) * t > 0.0;
    }
  }

  lemma TopBuyerIsMax(lens: Lens, buys: seq<Buy>, totals: map<Address, nat>, top: Address)
    requires IsBuyerTable(totals, lens, buys)
    requires top in totals && forall a :: a in totals ==> totals[a] <= totals[top]
    ensures totals[top] == MaxBuyerLamports(lens, buys)
    ensures forall a :: Lamports(lens, OfBuyer(a), buys) <= Lamports(lens, OfBuyer(top), buys)
  {
    MaxBuyerIsMax(lens, buys);
  }

  /** The pass over the per-buyer totals that keeps the last greatest share seen. */
  method LargestShare(lens: Lens, buys: seq<Buy>, totals: map<Address, nat>, eligible: nat)
    returns (share: real, buyer: Option<Address>)
    requires IsBuyerTable(totals, lens, buys)
    requires eligible == Lamports(lens, Eligible, buys)
    ensures share == MaxBuyerShare(lens, buys)
    ensures buyer.Some? <==> eligible > 0
    ensures buyer.Some? ==> forall a :: Lamports(lens, OfBuyer(a), buys) <= Lamports(lens, OfBuyer(buyer.value), buys)
  {
    share, buyer := 0.0, None;
    if eligible > 0 {
      var left := totals.Keys;
      while left != {}
        invariant left <= totals.Keys
        invariant buyer.None? ==> left == totals.Keys && share == 0.0
        invariant buyer.Some? ==> buyer.value in totals && share == totals[buyer.value] as real / eligible as real
        invariant buyer.Some? ==> forall a :: a in totals.Keys - left ==> totals[a] <= totals[buyer.value]
        decreases |left|
      {
        var a :| a in left;
        left := left - {a};
        var candidate := totals[a] as real / eligible as real;
        if buyer.Some? {
          ShareOrder(totals[a], totals[buyer.value], eligible);
        } else {
          ShareOrder(totals[a], 0, eligible);
        }
        if candidate >= share {
          share, buyer := candidate, Some(a);
        }
      }
      LargestBuyerCovers(lens, buys);
      assert |totals.Keys| > 0;
      TopBuyerIsMax(lens, buys, totals, buyer.value);
    }
  }
}
