/**
 * Gate 3 told by who bought and for how many lamports: exactly when it gives each of its reasons to reject,
 * and exactly when each path triggers. Nothing here is stated through the statistics.
 */
module Gate3Rules {
  import opened Wrappers
  import opened FilterTypes
  import opened SmartMoney
  import opened Gate3

  const LAMPORTS_PER_SOL := 1_000_000_000.0

  // ---------------------------------------------------------------- who bought what

  function Buyers(buys: seq<Buy>): set<Address> {
    set b | b in buys :: b.buyer
  }

  /** The lamports these buyers paid. */
  function Spent(buys: seq<Buy>, who: set<Address>): nat {
    if buys == [] then 0
    else Spent(buys[..|buys| - 1], who) + if buys[|buys| - 1].buyer in who then buys[|buys| - 1].lamports else 0
  }

  /** The number of buys these buyers made. */
  function Bought(buys: seq<Buy>, who: set<Address>): nat {
    if buys == [] then 0
    else Bought(buys[..|buys| - 1], who) + if buys[|buys| - 1].buyer in who then 1 else 0
  }

  /** The buyers that count: those not blocked. */
  function Admissible(c: Candidate, hot: HotLists): set<Address> {
    Buyers(c.earlyBuys) - hot.blockedBuyers
  }

  function Outsiders(c: Candidate, hot: HotLists): set<Address> {
    Admissible(c, hot) - {c.creator}
  }

  /** The buyer's first funder, as far as it is known. */
  function KnownFunder(c: Candidate, a: Address): Option<Address> {
    if a in c.buyerProfiles then c.buyerProfiles[a].firstFunder else None
  }

  function CreatorFunder(c: Candidate): Option<Address> {
    if c.creatorProfile.Some? then c.creatorProfile.value.firstFunder else None
  }

  /** Outsiders with the creator's own first funder. */
  function Linked(c: Candidate, hot: HotLists): set<Address> {
    set a | a in Outsiders(c, hot) && CreatorFunder(c).Some? && KnownFunder(c, a) == CreatorFunder(c)
  }

  function FundedBy(c: Candidate, hot: HotLists, f: Address): set<Address> {
    set a | a in Admissible(c, hot) && KnownFunder(c, a) == Some(f)
  }

  function KnownFunders(c: Candidate, hot: HotLists): set<Address> {
    set a | a in Admissible(c, hot) && KnownFunder(c, a).Some? :: KnownFunder(c, a).value
  }

  /** Smart money among the buyers, by address or by funder; every admissible buyer if there is no list to go by. */
  function Backers(c: Candidate, cfg: Config, hot: HotLists): set<Address> {
    if cfg.disableSmartMoneyFilter || (hot.smartMoney == {} && hot.smartMoneyFunders == {}) then Admissible(c, hot)
    else set a | a in Admissible(c, hot)
                 && (a in hot.smartMoney
                     || (KnownFunder(c, a).Some? && KnownFunder(c, a).value in hot.smartMoneyFunders))
  }

  predicate Over(lamports: nat, sol: real) {
    lamports as real > sol * LAMPORTS_PER_SOL
  }

  predicate Reaches(lamports: nat, sol: real) {
    lamports as real >= sol * LAMPORTS_PER_SOL
  }

  /** The part is more than this share of the whole; of nothing every part is a share of 0. */
  predicate MoreThan(part: nat, whole: nat, share: real) {
    if whole == 0 then share < 0.0 else part as real > share * whole as real
  }

  // ---------------------------------------------------------------- windows

  /** This long after the start is not too late: in milliseconds, the outer limit in seconds. */
  predicate InOuterWindow(cfg: Config, ms: nat) {
    ms <= cfg.windowSecs * 1000 && ms <= U64_MAX
  }

  predicate InFastWindow(cfg: Config, ms: nat) {
    ms <= cfg.fastWindowMs && InOuterWindow(cfg, ms)
  }

  predicate InSoftWindow(cfg: Config, ms: nat) {
    (ms <= cfg.softWindowMs || ms <= cfg.fastWindowMs) && InOuterWindow(cfg, ms)
  }

  predicate InHardWindow(cfg: Config, ms: nat) {
    (ms <= cfg.hardRejectMs || ms <= cfg.softWindowMs || ms <= cfg.fastWindowMs) && InOuterWindow(cfg, ms)
  }

  /** The deadlines in terms of what is configured. */
  lemma DeadlinesIff(cfg: Config, ms: nat)
    ensures ms <= FastWindowMs(cfg) <==> InFastWindow(cfg, ms)
    ensures ms <= SoftWindowMs(cfg) <==> InSoftWindow(cfg, ms)
    ensures ms <= HardRejectMs(cfg) <==> InHardWindow(cfg, ms)
  {
  }

  // ---------------------------------------------------------------- reasons to reject

  /** Enough outsiders have paid enough. */
  predicate Backed(cfg: Config, outside: nat, outsiders: nat) {
    outsiders >= cfg.selfBuyMinExternalBuyers && Reaches(outside, cfg.selfBuyMinExternalSol)
  }

  /** The creator may not pay this much next to what so many outsiders pay. */
  predicate BreaksLimits(cfg: Config, own: nat, outside: nat, outsiders: nat) {
    || (Over(own, cfg.selfBuyMaxSol) && MoreThan(own, own + outside, cfg.selfBuyHardShare))
    || (Over(own, cfg.selfBuyHardSol) && !Backed(cfg, outside, outsiders))
    || (Over(own, cfg.selfBuyMaxSol) && MoreThan(own, own + outside, cfg.selfBuyMaxShare)
        && !Backed(cfg, outside, outsiders))
  }

  /** The creator's own buys break the configured limits. */
  predicate CreatorOverbuys(c: Candidate, cfg: Config, hot: HotLists) {
    && cfg.selfBuyBlock && c.creator in Admissible(c, hot)
    && BreaksLimits(cfg, Spent(c.earlyBuys, {c.creator}), Spent(c.earlyBuys, Outsiders(c, hot)), |Outsiders(c, hot)|)
  }

  /** At least two buys and half a SOL from wallets with the creator's funder, and 85 percent of what outsiders paid. */
  predicate LinkedOverbuy(c: Candidate, hot: HotLists) {
    var linked := Spent(c.earlyBuys, Linked(c, hot));
    && Bought(c.earlyBuys, Linked(c, hot)) >= 2 && linked >= 500_000_000
    && linked as real >= 0.85 * Spent(c.earlyBuys, Outsiders(c, hot)) as real
  }

  /** One buyer paid more than the allowed share. */
  predicate OneBuyerDominates(c: Candidate, cfg: Config, hot: HotLists) {
    var all := Spent(c.earlyBuys, Admissible(c, hot));
    && cfg.concentrationReject && |c.earlyBuys| >= cfg.concentrationMinBuys
    && if all == 0 then cfg.maxSingleBuyerShare < 0.0
       else exists a :: a in Admissible(c, hot) && MoreThan(Spent(c.earlyBuys, {a}), all, cfg.maxSingleBuyerShare)
  }

  /** Four buys, two buyers, and not two known funders. */
  predicate FewFunders(c: Candidate, hot: HotLists) {
    |c.earlyBuys| >= 4 && |Admissible(c, hot)| >= 2 && |KnownFunders(c, hot)| < 2
  }

  predicate Late(c: Candidate, cfg: Config, env: Env) {
    env.now > c.createdAt && !InHardWindow(cfg, env.now - c.createdAt)
  }

  /** There is room for no more buys, and the backers have not paid enough. */
  predicate FullAndShort(c: Candidate, cfg: Config, hot: HotLists) {
    |c.earlyBuys| >= cfg.maxBuys && !Reaches(Spent(c.earlyBuys, Backers(c, cfg, hot)), cfg.softMinSol)
  }

  // ---------------------------------------------------------------- triggers

  /** Some funder stands behind three buys, and behind two thirds as many as there are buyers. */
  predicate SameFunderPressure(c: Candidate, hot: HotLists) {
    exists f :: f in KnownFunders(c, hot)
      && Bought(c.earlyBuys, FundedBy(c, hot, f)) >= 3
      && Bought(c.earlyBuys, FundedBy(c, hot, f)) as real >= 0.66 * |Admissible(c, hot)| as real
  }

  /** Three funders, two of them hot, none the creator's, none behind more than 60 percent as many buys as buyers. */
  predicate WellSpread(c: Candidate, hot: HotLists) {
    && |KnownFunders(c, hot)| >= 3
    && |KnownFunders(c, hot) * hot.smartMoneyFunders| >= 2
    && Bought(c.earlyBuys, Linked(c, hot)) == 0
    && forall f :: f in KnownFunders(c, hot) ==>
         Bought(c.earlyBuys, FundedBy(c, hot, f)) as real <= 0.60 * |Admissible(c, hot)| as real
  }

  /** What the backers must have paid on the fast path, in SOL. */
  function FastMinimum(c: Candidate, cfg: Config, hot: HotLists): real {
    if !WellSpread(c, hot) then cfg.fastMinSol
    else if cfg.fastMinSol * 0.85 < 0.05 then 0.05
    else cfg.fastMinSol * 0.85
  }

  predicate FastHolds(c: Candidate, cfg: Config, hot: HotLists) {
    !SameFunderPressure(c, hot) && Reaches(Spent(c.earlyBuys, Backers(c, cfg, hot)), FastMinimum(c, cfg, hot))
  }

  predicate SoftHolds(c: Candidate, cfg: Config, hot: HotLists) {
    Reaches(Spent(c.earlyBuys, Backers(c, cfg, hot)), cfg.softMinSol)
  }

  predicate Holds(path: Gate3Path, c: Candidate, cfg: Config, hot: HotLists) {
    match path case Fast => FastHolds(c, cfg, hot) case Soft => SoftHolds(c, cfg, hot)
  }

  /** The candidate as it was at its `k`-th buy, with what is known of its buyers by now. */
  function UpTo(c: Candidate, k: nat): Candidate
    requires k < |c.earlyBuys|
  {
    c.(earlyBuys := c.earlyBuys[..k + 1])
  }

  /** A backer's buy at which the path's condition holds for the buys so far. */
  predicate HoldsAt(path: Gate3Path, c: Candidate, cfg: Config, hot: HotLists, k: nat)
    requires k < |c.earlyBuys|
  {
    c.earlyBuys[k].buyer in Backers(c, cfg, hot) && Holds(path, UpTo(c, k), cfg, hot)
  }

  /** The first such buy is the `k`-th, and it was detected inside the path's window. */
  predicate ReachedInTime(path: Gate3Path, c: Candidate, cfg: Config, hot: HotLists, k: nat) {
    && k < |c.earlyBuys| && HoldsAt(path, c, cfg, hot, k)
    && (forall i: nat :: i < k ==> !HoldsAt(path, c, cfg, hot, i))
    && var ms := SatSub(c.earlyBuys[k].detectedAtMs, c.detectedAtMs);
       if path == Fast then InFastWindow(cfg, ms) else InSoftWindow(cfg, ms)
  }

  /** The path's condition holds, and first held in time. */
  ghost predicate Triggers(path: Gate3Path, c: Candidate, cfg: Config, hot: HotLists) {
    Holds(path, c, cfg, hot) && exists k: nat :: ReachedInTime(path, c, cfg, hot, k)
  }

  // ---------------------------------------------------------------- the statistics, by buyers

  lemma {:induction false} SpentSplit(buys: seq<Buy>, a: set<Address>, b: set<Address>)
    requires a !! b
    ensures Spent(buys, a + b) == Spent(buys, a) + Spent(buys, b)
  {
    if buys != [] {
      SpentSplit(buys[..|buys| - 1], a, b);
    }
  }

  lemma {:induction false} PickSums(lens: Lens, pick: Pick, buys: seq<Buy>, who: set<Address>)
    requires forall b :: b in buys ==> (Picks(lens, pick, b) <==> b.buyer in who)
    ensures Lamports(lens, pick, buys) == Spent(buys, who) && Count(lens, pick, buys) == Bought(buys, who)
  {
    if buys != [] {
      PickSums(lens, pick, buys[..|buys| - 1], who);
      assert buys[|buys| - 1] in buys;
    }
  }

  lemma {:induction false} SpentAbsent(buys: seq<Buy>, who: set<Address>)
    requires forall b :: b in buys ==> b.buyer !in who
    ensures Spent(buys, who) == 0 && Bought(buys, who) == 0
  {
    if buys != [] {
      SpentAbsent(buys[..|buys| - 1], who);
      assert buys[|buys| - 1] in buys;
    }
  }

  lemma BuyerSums(c: Candidate, cfg: Config, hot: HotLists)
    ensures var (lens, buys) := (LensOf(c, cfg, hot), c.earlyBuys);
            && Lamports(lens, Eligible, buys) == Spent(buys, Admissible(c, hot))
            && Lamports(lens, Matched, buys) == Spent(buys, Backers(c, cfg, hot))
            && Lamports(lens, ByCreatorFunder, buys) == Spent(buys, Linked(c, hot))
            && Count(lens, ByCreatorFunder, buys) == Bought(buys, Linked(c, hot))
            && Wallets(lens, Eligible, buys) == Admissible(c, hot)
            && Wallets(lens, Matched, buys) == Backers(c, cfg, hot)
            && Funders(lens, Eligible, buys) == KnownFunders(c, hot)
            && Funders(lens, HotFunder, buys) == KnownFunders(c, hot) * hot.smartMoneyFunders
  {
    var (lens, buys) := (LensOf(c, cfg, hot), c.earlyBuys);
    PickSums(lens, Eligible, buys, Admissible(c, hot));
    PickSums(lens, Matched, buys, Backers(c, cfg, hot));
    PickSums(lens, ByCreatorFunder, buys, Linked(c, hot));
    forall f ensures f in Funders(lens, Eligible, buys) <==> f in KnownFunders(c, hot) {
      if f in KnownFunders(c, hot) {
        var a :| a in Admissible(c, hot) && KnownFunder(c, a) == Some(f);
        var b :| b in buys && b.buyer == a;
        assert Picks(lens, Eligible, b);
      }
    }
    forall f ensures f in Funders(lens, HotFunder, buys) <==> f in KnownFunders(c, hot) * hot.smartMoneyFunders {
      if f in KnownFunders(c, hot) * hot.smartMoneyFunders {
        var a :| a in Admissible(c, hot) && KnownFunder(c, a) == Some(f);
        var b :| b in buys && b.buyer == a;
        assert Picks(lens, HotFunder, b);
      }
    }
  }

  lemma CreatorTotals(c: Candidate, cfg: Config, hot: HotLists)
    ensures var (lens, buys, who) := (LensOf(c, cfg, hot), c.earlyBuys, {c.creator} * Admissible(c, hot));
            && Lamports(lens, ByCreator, buys) == Spent(buys, who) && Count(lens, ByCreator, buys) == Bought(buys, who)
            && Spent(buys, Admissible(c, hot)) == Spent(buys, who) + Spent(buys, Outsiders(c, hot))
  {
    var who := {c.creator} * Admissible(c, hot);
    PickSums(LensOf(c, cfg, hot), ByCreator, c.earlyBuys, who);
    SpentSplit(c.earlyBuys, who, Outsiders(c, hot));
    assert who + Outsiders(c, hot) == Admissible(c, hot);
  }

  lemma CreatorBuys(c: Candidate, hot: HotLists)
    ensures var (buys, who) := (c.earlyBuys, {c.creator} * Admissible(c, hot));
            && (c.creator in Admissible(c, hot) ==>
                  && who == {c.creator} && Bought(buys, who) > 0
                  && |Outsiders(c, hot)| + 1 == |Admissible(c, hot)|)
            && (c.creator !in Admissible(c, hot) ==> Bought(buys, who) == 0 == Spent(buys, who))
  {
    var (buys, who) := (c.earlyBuys, {c.creator} * Admissible(c, hot));
    if c.creator in Admissible(c, hot) {
      assert who == {c.creator};
      var b :| b in buys && b.buyer == c.creator;
      BoughtPresent(buys, who, b);
    } else {
      SpentAbsent(buys, who);
    }
  }

  lemma {:induction false} BoughtPresent(buys: seq<Buy>, who: set<Address>, b: Buy)
    requires b in buys && b.buyer in who
    ensures Bought(buys, who) > 0
  {
    if buys[|buys| - 1] != b {
      BoughtPresent(buys[..|buys| - 1], who, b);
    }
  }

  lemma BuyerTotal(c: Candidate, cfg: Config, hot: HotLists, a: Address)
    ensures Lamports(LensOf(c, cfg, hot), OfBuyer(a), c.earlyBuys)
            == if a in Admissible(c, hot) then Spent(c.earlyBuys, {a}) else 0
  {
    var who := {a} * Admissible(c, hot);
    PickSums(LensOf(c, cfg, hot), OfBuyer(a), c.earlyBuys, who);
    if a in Admissible(c, hot) {
      assert who == {a};
    } else {
      SpentAbsent(c.earlyBuys, who);
    }
  }

  lemma FunderTotal(c: Candidate, cfg: Config, hot: HotLists, f: Address)
    ensures Count(LensOf(c, cfg, hot), OfFunder(f), c.earlyBuys) == Bought(c.earlyBuys, FundedBy(c, hot, f))
    ensures f !in KnownFunders(c, hot) ==> Bought(c.earlyBuys, FundedBy(c, hot, f)) == 0
  {
    PickSums(LensOf(c, cfg, hot), OfFunder(f), c.earlyBuys, FundedBy(c, hot, f));
    if f !in KnownFunders(c, hot) {
      SpentAbsent(c.earlyBuys, FundedBy(c, hot, f));
    }
  }

  lemma ShareOf(part: nat, whole: nat, share: real)
    ensures whole > 0 ==>
              (Share(Sol(part), Sol(whole)) > share <==> part as real > share * whole as real)
              && (Share(Sol(part), Sol(whole)) >= share <==> part as real >= share * whole as real)
    ensures whole == 0 ==> Share(Sol(part), Sol(whole)) == 0.0
  {
    if whole > 0 {
      RatioOrder(Sol(part), Sol(whole), share);
      assert share * Sol(whole) == share * whole as real / 1000000000.0;
    }
  }

  lemma RatioOrder(p: real, w: real, x: real)
    requires w > 0.0
    ensures p / w > x <==> p > x * w
    ensures p / w >= x <==> p >= x * w
    ensures p / w <= x <==> p <= x * w
  {
    var q := p / w;
    assert q * w == p;
    assert (q - x) * w == p - x * w;
    if q > x { assert (q - x) * w > 0.0; }
    if q < x { assert (x - q) * w > 0.0; }
  }

  lemma SelfBuyStats(stats: WindowStats, cfg: Config, own: nat, outside: nat, outsiders: nat)
    requires stats.creatorBuyCount > 0 && stats.creatorBuyLamports == own
    requires stats.eligibleLamports == own + outside && stats.eligibleBuyers == outsiders + 1
    ensures SelfBuyBlocked(stats, cfg) <==> cfg.selfBuyBlock && BreaksLimits(cfg, own, outside, outsiders)
  {
    ShareOf(own, own + outside, cfg.selfBuyHardShare);
    ShareOf(own, own + outside, cfg.selfBuyMaxShare);
  }

  lemma SelfBuyIff(c: Candidate, cfg: Config, env: Env)
    ensures SelfBuyBlocked(Stats(c, cfg, env), cfg) <==> CreatorOverbuys(c, cfg, env.hot)
  {
    BuyerSums(c, cfg, env.hot);
    CreatorTotals(c, cfg, env.hot);
    CreatorBuys(c, env.hot);
    if c.creator in Admissible(c, env.hot) {
      SelfBuyStats(Stats(c, cfg, env), cfg, Spent(c.earlyBuys, {c.creator}), Spent(c.earlyBuys, Outsiders(c, env.hot)),
          |Outsiders(c, env.hot)|);
    }
  }

  lemma {:induction false} SpentMono(buys: seq<Buy>, a: set<Address>, b: set<Address>)
    requires a <= b
    ensures Spent(buys, a) <= Spent(buys, b)
  {
    if buys != [] {
      SpentMono(buys[..|buys| - 1], a, b);
    }
  }

  lemma ClusterStats(c: Candidate, stats: WindowStats, linked: nat, outside: nat)
    requires stats.creatorFunderLamports == linked <= outside
    requires stats.eligibleLamports == stats.creatorBuyLamports + outside
    ensures CreatorClusterBlocked(c, stats) <==>
              && CreatorFunder(c).Some? && stats.creatorFunderCount >= 2 && linked >= 500_000_000
              && linked as real >= 0.85 * outside as real
  {
    ShareOf(linked, outside, 0.85);
  }

  lemma ClusterIff(c: Candidate, cfg: Config, env: Env)
    ensures CreatorClusterBlocked(c, Stats(c, cfg, env)) <==> LinkedOverbuy(c, env.hot)
  {
    var linked, outside := Spent(c.earlyBuys, Linked(c, env.hot)), Spent(c.earlyBuys, Outsiders(c, env.hot));
    BuyerSums(c, cfg, env.hot);
    CreatorTotals(c, cfg, env.hot);
    SpentMono(c.earlyBuys, Linked(c, env.hot), Outsiders(c, env.hot));
    ClusterStats(c, Stats(c, cfg, env), linked, outside);
    if CreatorFunder(c).None? {
      SpentAbsent(c.earlyBuys, Linked(c, env.hot));
    }
  }

  lemma MoreThanMono(p: nat, q: nat, whole: nat, share: real)
    requires p <= q && MoreThan(p, whole, share)
    ensures MoreThan(q, whole, share)
  {
  }

  lemma RatioIff(part: nat, whole: nat, share: real)
    ensures Ratio(part, whole) > share <==> MoreThan(part, whole, share)
  {
    if whole > 0 {
      RatioOrder(part as real, whole as real, share);
    }
  }

  lemma MaxShareIff(lens: Lens, buys: seq<Buy>, share: real)
    ensures MaxBuyerShare(lens, buys) > share <==>
              MoreThan(MaxBuyerLamports(lens, buys), Lamports(lens, Eligible, buys), share)
  {
    RatioIff(MaxBuyerLamports(lens, buys), Lamports(lens, Eligible, buys), share);
  }

  lemma DominatesIff(c: Candidate, cfg: Config, hot: HotLists)
    ensures var (all, limit) := (Spent(c.earlyBuys, Admissible(c, hot)), cfg.maxSingleBuyerShare);
            MaxBuyerShare(LensOf(c, cfg, hot), c.earlyBuys) > limit <==>
              if all == 0 then limit < 0.0
              else exists a :: a in Admissible(c, hot) && MoreThan(Spent(c.earlyBuys, {a}), all, limit)
  {
    var (lens, buys, limit) := (LensOf(c, cfg, hot), c.earlyBuys, cfg.maxSingleBuyerShare);
    var all, most := Spent(buys, Admissible(c, hot)), MaxBuyerLamports(lens, buys);
    BuyerSums(c, cfg, hot);
    MaxShareIff(lens, buys, limit);
    if all > 0 {
      MaxBuyerIsMax(lens, buys);
      LargestBuyerCovers(lens, buys);
      if a :| a in Admissible(c, hot) && MoreThan(Spent(buys, {a}), all, limit) {
        BuyerTotal(c, cfg, hot, a);
        MoreThanMono(Spent(buys, {a}), most, all, limit);
      }
      var top :| top in Wallets(lens, Eligible, buys) && Lamports(lens, OfBuyer(top), buys) == most;
      BuyerTotal(c, cfg, hot, top);
    }
  }

  /**
   * The reasons of gate 3, in the order in which they are looked for. Each is given exactly when its own
   * condition holds and none before it does.
   */
  lemma ReasonsIff(c: Candidate, cfg: Config, env: Env)
    ensures var (r, hot) := (RejectReason(c, Stats(c, cfg, env), cfg), env.hot);
            && (r == Some(CreatorSelfBuy) <==> CreatorOverbuys(c, cfg, hot))
            && (r == Some(CreatorCluster) <==> !CreatorOverbuys(c, cfg, hot) && LinkedOverbuy(c, hot))
            && (r == Some(Concentration) <==>
                  !CreatorOverbuys(c, cfg, hot) && !LinkedOverbuy(c, hot) && OneBuyerDominates(c, cfg, hot))
            && (r == Some(LowDiversity) <==>
                  && !CreatorOverbuys(c, cfg, hot) && !LinkedOverbuy(c, hot) && !OneBuyerDominates(c, cfg, hot)
                  && FewFunders(c, hot))
            && (r == Some(WindowClosed) <==>
                  && !CreatorOverbuys(c, cfg, hot) && !LinkedOverbuy(c, hot) && !OneBuyerDominates(c, cfg, hot)
                  && !FewFunders(c, hot) && Late(c, cfg, env))
            && (r == Some(MaxBuysReached) <==>
                  && !CreatorOverbuys(c, cfg, hot) && !LinkedOverbuy(c, hot) && !OneBuyerDominates(c, cfg, hot)
                  && !FewFunders(c, hot) && !Late(c, cfg, env) && FullAndShort(c, cfg, hot))
  {
    SelfBuyIff(c, cfg, env);
    ClusterIff(c, cfg, env);
    DominatesIff(c, cfg, env.hot);
    BuyerSums(c, cfg, env.hot);
    DeadlinesIff(cfg, SatSub(env.now, c.createdAt));
  }

  // ---------------------------------------------------------------- when a path triggers

  /** A cluster is no larger than the number of admissible buys. */
  lemma ClusterWithin(lens: Lens, buys: seq<Buy>)
    ensures LargestCluster(lens, buys) <= Count(lens, Eligible, buys) <= |buys|
  {
    CountsWithin(lens, buys);
    LargestClusterIsMax(lens, buys);
    if LargestCluster(lens, buys) > 0 {
      var f :| f in Funders(lens, Eligible, buys) && Count(lens, OfFunder(f), buys) == LargestCluster(lens, buys);
      PickMonotone(lens, OfFunder(f), Eligible, buys);
    }
  }

  /** The largest cluster, by its funder. */
  lemma ClusterFunder(c: Candidate, cfg: Config, hot: HotLists)
    ensures var most := LargestCluster(LensOf(c, cfg, hot), c.earlyBuys);
            && (forall f :: Bought(c.earlyBuys, FundedBy(c, hot, f)) <= most)
            && (most > 0 ==>
                  && |Admissible(c, hot)| > 0
                  && exists f :: f in KnownFunders(c, hot) && Bought(c.earlyBuys, FundedBy(c, hot, f)) == most)
  {
    var (lens, buys) := (LensOf(c, cfg, hot), c.earlyBuys);
    BuyerSums(c, cfg, hot);
    LargestClusterIsMax(lens, buys);
    forall f ensures Count(lens, OfFunder(f), buys) == Bought(buys, FundedBy(c, hot, f)) {
      FunderTotal(c, cfg, hot, f);
    }
    if LargestCluster(lens, buys) > 0 {
      var f :| f in Funders(lens, Eligible, buys) && Count(lens, OfFunder(f), buys) == LargestCluster(lens, buys);
      assert f in KnownFunders(c, hot) && Bought(buys, FundedBy(c, hot, f)) == LargestCluster(lens, buys);
      var a :| a in Admissible(c, hot) && KnownFunder(c, a) == Some(f);
    }
  }

  lemma RatioAtLeast(most: nat, n: nat, share: real)
    requires most > 0 ==> n > 0
    ensures most >= 3 ==> (Ratio(most, n) >= share <==> most as real >= share * n as real)
    ensures share >= 0.0 ==> (Ratio(most, n) <= share <==> most as real <= share * n as real)
  {
    if n > 0 {
      RatioOrder(most as real, n as real, share);
    }
  }

  lemma PressureByCluster(c: Candidate, cfg: Config, hot: HotLists)
    ensures var most := LargestCluster(LensOf(c, cfg, hot), c.earlyBuys);
            SameFunderPressure(c, hot) <==> most >= 3 && most as real >= 0.66 * |Admissible(c, hot)| as real
  {
    ClusterFunder(c, cfg, hot);
  }

  lemma SpreadByCluster(c: Candidate, cfg: Config, hot: HotLists)
    ensures var most := LargestCluster(LensOf(c, cfg, hot), c.earlyBuys);
            most as real <= 0.60 * |Admissible(c, hot)| as real <==>
              forall f :: f in KnownFunders(c, hot) ==>
                Bought(c.earlyBuys, FundedBy(c, hot, f)) as real <= 0.60 * |Admissible(c, hot)| as real
  {
    ClusterFunder(c, cfg, hot);
  }

  /** Whether the smaller or the larger of the two numbers of buys is tested makes no difference. */
  lemma PressureTests(most: nat, n: nat, some: nat, all: nat)
    requires most <= some <= all && (most > 0 ==> n > 0)
    ensures some >= 3 && most >= 3 && Ratio(most, n) >= 0.66 <==> most >= 3 && most as real >= 0.66 * n as real
    ensures all >= 3 && most >= 3 && Ratio(most, n) >= 0.66 <==> most >= 3 && most as real >= 0.66 * n as real
  {
    RatioAtLeast(most, n, 0.66);
  }

  lemma PressureIff(c: Candidate, cfg: Config, hot: HotLists)
    ensures var (lens, buys) := (LensOf(c, cfg, hot), c.earlyBuys);
            && (Pressure(lens, buys) <==> SameFunderPressure(c, hot))
            && (SameFunderPressure(c, hot) <==>
                  |buys| >= 3 && LargestCluster(lens, buys) >= 3 && ClusterShare(lens, buys) >= 0.66)
  {
    var (lens, buys) := (LensOf(c, cfg, hot), c.earlyBuys);
    PressureByCluster(c, cfg, hot);
    ClusterWithin(lens, buys);
    AdmissibleWallets(c, cfg, hot);
    PressureTests(LargestCluster(lens, buys), |Admissible(c, hot)|, Count(lens, Eligible, buys), |buys|);
  }

  lemma AdmissibleWallets(c: Candidate, cfg: Config, hot: HotLists)
    ensures Wallets(LensOf(c, cfg, hot), Eligible, c.earlyBuys) == Admissible(c, hot)
    ensures LargestCluster(LensOf(c, cfg, hot), c.earlyBuys) > 0 ==> |Admissible(c, hot)| > 0
  {
    BuyerSums(c, cfg, hot);
    ClusterFunder(c, cfg, hot);
  }

  lemma {:induction false} CountsWithin(lens: Lens, buys: seq<Buy>)
    ensures Count(lens, Eligible, buys) <= |buys|
  {
    if buys != [] {
      CountsWithin(lens, buys[..|buys| - 1]);
    }
  }

  lemma SpreadShare(c: Candidate, cfg: Config, hot: HotLists)
    ensures ClusterShare(LensOf(c, cfg, hot), c.earlyBuys) <= 0.60 <==>
              LargestCluster(LensOf(c, cfg, hot), c.earlyBuys) as real <= 0.60 * |Admissible(c, hot)| as real
  {
    AdmissibleWallets(c, cfg, hot);
    RatioAtLeast(LargestCluster(LensOf(c, cfg, hot), c.earlyBuys), |Admissible(c, hot)|, 0.60);
  }

  lemma QualityIff(c: Candidate, cfg: Config, hot: HotLists)
    ensures QualityCluster(LensOf(c, cfg, hot), c.earlyBuys) <==> WellSpread(c, hot)
  {
    BuyerSums(c, cfg, hot);
    SpreadByCluster(c, cfg, hot);
    SpreadShare(c, cfg, hot);
  }

  lemma FastReadyIff(c: Candidate, cfg: Config, env: Env)
    ensures FastReady(cfg, Stats(c, cfg, env)) <==> FastHolds(c, cfg, env.hot)
    ensures SoftReady(cfg, Stats(c, cfg, env)) <==> SoftHolds(c, cfg, env.hot)
  {
    BuyerSums(c, cfg, env.hot);
    PressureIff(c, cfg, env.hot);
    QualityIff(c, cfg, env.hot);
  }

  lemma MeetsNowIff(path: Gate3Path, c: Candidate, cfg: Config, hot: HotLists)
    requires c.earlyBuys != []
    ensures MeetsAtLast(LensOf(c, cfg, hot), cfg, path, c.earlyBuys) <==>
              c.earlyBuys[|c.earlyBuys| - 1].buyer in Backers(c, cfg, hot) && Holds(path, c, cfg, hot)
  {
    var last := c.earlyBuys[|c.earlyBuys| - 1];
    assert last in c.earlyBuys;
    assert Picks(LensOf(c, cfg, hot), Matched, last) <==> last.buyer in Backers(c, cfg, hot);
    BuyerSums(c, cfg, hot);
    match path
    case Soft =>
    case Fast =>
      PressureIff(c, cfg, hot);
      QualityIff(c, cfg, hot);
  }

  lemma MeetsIff(path: Gate3Path, c: Candidate, cfg: Config, hot: HotLists, k: nat)
    requires k < |c.earlyBuys|
    ensures MeetsAt(LensOf(c, cfg, hot), cfg, path, c.earlyBuys, k) <==> HoldsAt(path, c, cfg, hot, k)
  {
    var now := UpTo(c, k);
    MeetsNowIff(path, now, cfg, hot);
    assert now.earlyBuys[k] == c.earlyBuys[k] && now.earlyBuys[k] in now.earlyBuys;
    BackersUpTo(c, cfg, hot, k);
  }

  lemma BackersUpTo(c: Candidate, cfg: Config, hot: HotLists, k: nat)
    requires k < |c.earlyBuys|
    ensures var a := c.earlyBuys[k].buyer; a in Backers(UpTo(c, k), cfg, hot) <==> a in Backers(c, cfg, hot)
  {
    assert UpTo(c, k).earlyBuys[k] == c.earlyBuys[k];
    assert c.earlyBuys[k] in c.earlyBuys && c.earlyBuys[k] in UpTo(c, k).earlyBuys;
  }

  function WindowMs(path: Gate3Path, cfg: Config): nat {
    if path == Fast then FastWindowMs(cfg) else SoftWindowMs(cfg)
  }

  lemma FirstHoldsIff(path: Gate3Path, c: Candidate, cfg: Config, hot: HotLists)
    ensures match FirstMet(LensOf(c, cfg, hot), cfg, path, c.earlyBuys)
            case None => forall i: nat :: i < |c.earlyBuys| ==> !HoldsAt(path, c, cfg, hot, i)
            case Some(k) =>
              && k < |c.earlyBuys| && HoldsAt(path, c, cfg, hot, k)
              && forall i: nat :: i < k ==> !HoldsAt(path, c, cfg, hot, i)
  {
    var lens := LensOf(c, cfg, hot);
    FirstMetIsFirst(lens, cfg, path, c.earlyBuys);
    forall i: nat | i < |c.earlyBuys|
      ensures MeetsAt(lens, cfg, path, c.earlyBuys, i) <==> HoldsAt(path, c, cfg, hot, i)
    {
      MeetsIff(path, c, cfg, hot, i);
    }
  }

  lemma ReachedIff(path: Gate3Path, c: Candidate, cfg: Config, hot: HotLists)
    ensures var at := ReachedAt(LensOf(c, cfg, hot), cfg, path, c.detectedAtMs, c.earlyBuys);
            at.Some? && at.value <= WindowMs(path, cfg) <==> exists k: nat :: ReachedInTime(path, c, cfg, hot, k)
  {
    FirstHoldsIff(path, c, cfg, hot);
    var hit := FirstMet(LensOf(c, cfg, hot), cfg, path, c.earlyBuys);
    if hit.Some? {
      var ms := SatSub(c.earlyBuys[hit.value].detectedAtMs, c.detectedAtMs);
      DeadlinesIff(cfg, ms);
      assert ReachedInTime(path, c, cfg, hot, hit.value) <==> ms <= WindowMs(path, cfg);
    }
  }

  /**
   * The fast path triggers exactly when its condition holds for the buys of now and the first buy at which it
   * held was in time; the soft path exactly when the fast one does not and the same is true of its own condition.
   */
  lemma TriggerIff(c: Candidate, cfg: Config, env: Env)
    ensures var t := Trigger(cfg, Stats(c, cfg, env));
            && (t == Some(Fast) <==> Triggers(Fast, c, cfg, env.hot))
            && (t == Some(Soft) <==> !Triggers(Fast, c, cfg, env.hot) && Triggers(Soft, c, cfg, env.hot))
  {
    FastReadyIff(c, cfg, env);
    ReachedIff(Fast, c, cfg, env.hot);
    ReachedIff(Soft, c, cfg, env.hot);
  }
}
