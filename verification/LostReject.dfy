/**
 * A run in which an upgraded buy gives gate 3 an immediate reason to reject, and the candidate finalizes all
 * the same: the next first delivery dissolves the reason before any tick.
 */
module LostReject {
  import opened Wrappers
  import opened FilterTypes
  import opened BuyFeed
  import opened SmartMoney
  import opened Gate3
  import opened EventLoop
  import opened LoopInvariants
  import opened LoopHistory

  const MINT: Mint := "mint"
  const QUIET := Env(HotLists({}, {}, {}), 0, 0, 0.0, 0.0, 0, 0)

  /** Any configuration, with the early-buyer fallback, no profile fetches, and these limits. */
  function Limits(base: Config): Config {
    base.(hasApiKey := false, disableSmartMoneyFilter := true, maxBuys := 10, fastMinSol := 1000.0, softMinSol := 0.7,
          selfBuyBlock := false, concentrationReject := true, concentrationMinBuys := 2, maxSingleBuyerShare := 0.6)
  }

  function BuyOf(buyer: Address, signature: string, lamports: nat): Buy {
    Buy(MINT, buyer, "processed", "token", lamports, [], [], signature, 0, 0)
  }

  const TOKEN := Token(MINT, "creator", 0, 0, 0, 0, [])
  const A := BuyOf("a", "a", 100_000_000)
  const B := BuyOf("b", "b", 100_000_000)
  const A_AGAIN := BuyOf("a", "a", 400_000_000)
  const D := BuyOf("d", "d", 400_000_000)

  const EVENTS: seq<Event> := [
    Gate1Done(TOKEN, true, LocalHit(GateResult(true, None, 0, 0)), QUIET),
    BuyArrived(A, QUIET), BuyArrived(B, QUIET), BuyArrived(A_AGAIN, QUIET), BuyArrived(D, QUIET)]

  // ---------------------------------------------------------------- statistics of a few buys

  /** A candidate of this run: created at 0, no profiles, its buys all at 0. */
  predicate Plain(c: Candidate) {
    && c.createdAt == 0 && c.detectedAtMs == 0 && c.mint == MINT && c.creatorProfile == None && c.buyerProfiles == map[]
    && forall b :: b in c.earlyBuys ==> b.detectedAtMs == 0
  }

  function View(c: Candidate, base: Config): Lens {
    LensOf(c, Limits(base), QUIET.hot)
  }

  lemma {:induction false} NoFunders(c: Candidate, base: Config, buys: seq<Buy>)
    requires Plain(c)
    ensures LargestCluster(View(c, base), buys) == 0 && Count(View(c, base), ByCreatorFunder, buys) == 0
    ensures Count(View(c, base), Matched, buys) == Count(View(c, base), Eligible, buys) == |buys|
    ensures Lamports(View(c, base), Matched, buys) == Lamports(View(c, base), Eligible, buys)
  {
    if buys != [] {
      NoFunders(c, base, buys[..|buys| - 1]);
    }
  }

  /** With no more than three buys the only reason gate 3 can have is concentration. */
  lemma ReasonOf(c: Candidate, base: Config)
    requires Plain(c) && |c.earlyBuys| <= 3
    ensures RejectReason(c, Stats(c, Limits(base), QUIET), Limits(base)) ==
              if |c.earlyBuys| >= 2 && MaxBuyerShare(View(c, base), c.earlyBuys) > 0.6 then Some(Concentration)
                  else None
  {
    NoFunders(c, base, c.earlyBuys);
  }

  /** Below 850 SOL only the soft path can trigger, and it does exactly from its minimum on. */
  lemma TriggerOf(c: Candidate, base: Config)
    requires Plain(c) && Lamports(View(c, base), Eligible, c.earlyBuys) <= 1_000_000_000
    ensures Trigger(Limits(base), Stats(c, Limits(base), QUIET)).Some? <==>
              Lamports(View(c, base), Eligible, c.earlyBuys) >= 700_000_000
  {
    var lens, cfg, buys := View(c, base), Limits(base), c.earlyBuys;
    NoFunders(c, base, buys);
    SoftReachedIff(lens, cfg, 0, buys);
    if buys == [] {
      assert Lamports(lens, Eligible, buys) == 0;
    }
  }

  /** One more buy of a buyer with this much before it. */
  lemma OneMore(c: Candidate, base: Config, before: seq<Buy>, buy: Buy)
    ensures var lens := View(c, base);
            && Lamports(lens, Eligible, before + [buy]) == Lamports(lens, Eligible, before) + buy.lamports
            && (forall x :: Lamports(lens, OfBuyer(x), before + [buy]) ==
                              Lamports(lens, OfBuyer(x), before) + if x == buy.buyer then buy.lamports else 0)
            && MaxBuyerLamports(lens, before + [buy]) ==
                 Max(MaxBuyerLamports(lens, before), Lamports(lens, OfBuyer(buy.buyer), before + [buy]))
  {
    var lens, now := View(c, base), before + [buy];
    assert now[..|now| - 1] == before && now[|now| - 1] == buy;
    SnocSums(lens, Eligible, before, buy);
    forall x
      ensures Lamports(lens, OfBuyer(x), now) == Lamports(lens, OfBuyer(x), before)
          + if x == buy.buyer then buy.lamports else 0
    {
      SnocSums(lens, OfBuyer(x), before, buy);
    }
  }

  lemma OneBuy(c: Candidate, base: Config, first: nat)
    ensures var lens, a := View(c, base), BuyOf("a", "a", first);
            && Lamports(lens, Eligible, []) == 0
            && Lamports(lens, Eligible, [a]) == first && MaxBuyerLamports(lens, [a]) == first
            && forall x :: Lamports(lens, OfBuyer(x), [a]) == if x == "a" then first else 0
  {
    assert [] + [BuyOf("a", "a", first)] == [BuyOf("a", "a", first)];
    OneMore(c, base, [], BuyOf("a", "a", first));
  }

  lemma TwoBuys(c: Candidate, base: Config, first: nat)
    ensures var lens, two := View(c, base), [BuyOf("a", "a", first), B];
            && Lamports(lens, Eligible, two) == first + 100_000_000
            && MaxBuyerLamports(lens, two) == Max(first, 100_000_000)
            && Lamports(lens, OfBuyer("d"), two) == 0
  {
    assert [BuyOf("a", "a", first)] + [B] == [BuyOf("a", "a", first), B];
    assert "a"[0] != "b"[0] && "b"[0] != "d"[0] && "a"[0] != "d"[0];
    OneBuy(c, base, first);
    OneMore(c, base, [BuyOf("a", "a", first)], B);
  }

  lemma ThreeBuys(c: Candidate, base: Config, first: nat)
    ensures var lens, three := View(c, base), [BuyOf("a", "a", first), B, D];
            && Lamports(lens, Eligible, three) == first + 500_000_000
            && MaxBuyerLamports(lens, three) == Max(first, 400_000_000)
  {
    assert [BuyOf("a", "a", first), B] + [D] == [BuyOf("a", "a", first), B, D];
    TwoBuys(c, base, first);
    OneMore(c, base, [BuyOf("a", "a", first), B], D);
  }

  // ---------------------------------------------------------------- the run

  /** The first two buys give gate 3 neither a reason nor a trigger. */
  lemma FirstBuysWeigh(c: Candidate, base: Config)
    requires Plain(c) && (c.earlyBuys == [] || c.earlyBuys == [A] || c.earlyBuys == [A, B])
    ensures RejectReason(c, Stats(c, Limits(base), QUIET), Limits(base)).None?
    ensures ShouldFinalize(c, Limits(base), QUIET).None?
  {
    OneBuy(c, base, 100_000_000);
    TwoBuys(c, base, 100_000_000);
    ReasonOf(c, base);
    TriggerOf(c, base);
  }

  /** The upgrade makes for 80 percent from one buyer. */
  lemma UpgradeWeighs(c: Candidate, base: Config)
    requires Plain(c) && c.earlyBuys == [A_AGAIN, B]
    ensures RejectReason(c, Stats(c, Limits(base), QUIET), Limits(base)) == Some(Concentration)
  {
    TwoBuys(c, base, 400_000_000);
    ReasonOf(c, base);
  }

  /** A third buyer brings that down to 44 percent, and the total over the soft minimum. */
  lemma LastBuyWeighs(c: Candidate, base: Config)
    requires Plain(c) && c.earlyBuys == [A_AGAIN, B, D]
    ensures RejectReason(c, Stats(c, Limits(base), QUIET), Limits(base)).None?
    ensures ShouldFinalize(c, Limits(base), QUIET).Some?
  {
    ThreeBuys(c, base, 400_000_000);
    ReasonOf(c, base);
    TriggerOf(c, base);
  }

  /** The candidate after admission, and after each of the four buys. */
  predicate Stands(s: LoopState, buys: seq<Buy>, status: Status) {
    !s.halted && HasStatus(s, MINT, status) && Plain(s.candidates[MINT]) && s.candidates[MINT].earlyBuys == buys
  }

  lemma Admission(base: Config)
    ensures Stands(Step(Initial, EVENTS[0], Limits(base)), [], Active)
  {
    var admitted := Admitted(Initial, TOKEN, 0);
    var c := admitted.candidates[MINT];
    FirstBuysWeigh(c.(status := Active, trace := c.trace.(gate2AtMs := Some(0), gate3OpenAtMs := Some(0))), base);
  }

  lemma AcceptedPlain(c: Candidate, base: Config, buy: Buy)
    requires Plain(c) && buy.detectedAtMs == 0
    ensures Plain(Accepted(c, buy, Limits(base), 0))
    ensures Accepted(c, buy, Limits(base), 0).earlyBuys == c.earlyBuys + [buy]
  {
  }

  lemma Judged(s: LoopState, c: Candidate, cfg: Config)
    requires c.status == Active && Plain(c) && !s.halted
    ensures Stands(Judge(s, MINT, c, cfg, QUIET), c.earlyBuys,
        if ShouldFinalize(c, cfg, QUIET).Some? then Finalizing else Active)
  {
    match ShouldFinalize(c, cfg, QUIET)
    case None =>
    case Some(_) =>
  }

  lemma Delivery(s: LoopState, base: Config, buys: seq<Buy>, buy: Buy, status: Status)
    requires Stands(s, buys, Active) && buy.mint == MINT && buy.detectedAt == 0 && buy.detectedAtMs == 0
    requires |buys| < 10 && FindBuy(buys, buy.signature).None?
    requires var c' := Accepted(s.candidates[MINT], buy, Limits(base), 0);
             && RejectNow(c', Limits(base), QUIET).None?
             && status == if ShouldFinalize(c', Limits(base), QUIET).Some? then Finalizing else Active
    ensures Stands(Step(s, BuyArrived(buy, QUIET), Limits(base)), buys + [buy], status)
  {
    var cfg := Limits(base);
    var c' := Accepted(s.candidates[MINT], buy, cfg, 0);
    AcceptedPlain(s.candidates[MINT], base, buy);
    Judged(s.(tasks := s.tasks + []), c', cfg);
    assert OnBuy(s, buy, cfg, QUIET) == Judge(s.(tasks := s.tasks + []), MINT, c', cfg, QUIET);
  }

  lemma NoEntries()
    ensures forall g :: FindBuy([], g).None?
  {
  }

  lemma FirstBuy(s: LoopState, base: Config)
    requires Stands(s, [], Active)
    ensures Stands(Step(s, BuyArrived(A, QUIET), Limits(base)), [A], Active)
  {
    var c' := Accepted(s.candidates[MINT], A, Limits(base), 0);
    AcceptedPlain(s.candidates[MINT], base, A);
    assert c'.earlyBuys == [A];
    FirstBuysWeigh(c', base);
    NoEntries();
    Delivery(s, base, [], A, Active);
    assert [] + [A] == [A];
  }

  lemma SecondBuy(s: LoopState, base: Config)
    requires Stands(s, [A], Active)
    ensures Stands(Step(s, BuyArrived(B, QUIET), Limits(base)), [A, B], Active)
  {
    assert [A] + [B] == [A, B] && "a"[0] != "b"[0];
    AcceptedPlain(s.candidates[MINT], base, B);
    FirstBuysWeigh(Accepted(s.candidates[MINT], B, Limits(base), 0), base);
    Delivery(s, base, [A], B, Active);
  }

  lemma LastBuy(s: LoopState, base: Config)
    requires Stands(s, [A_AGAIN, B], Active)
    ensures Stands(Step(s, BuyArrived(D, QUIET), Limits(base)), [A_AGAIN, B, D], Finalizing)
  {
    assert [A_AGAIN, B] + [D] == [A_AGAIN, B, D];
    var c' := Accepted(s.candidates[MINT], D, Limits(base), 0);
    AcceptedPlain(s.candidates[MINT], base, D);
    LastBuyWeighs(c', base);
    NewSignature();
    Delivery(s, base, [A_AGAIN, B], D, Finalizing);
  }

  lemma NewSignature()
    ensures FindBuy([A_AGAIN, B], "d").None?
  {
    assert "a"[0] != "d"[0] && "b"[0] != "d"[0];
    assert [A_AGAIN, B][1..] == [B] && [B][1..] == [];
  }

  lemma Redelivery(s: LoopState, base: Config)
    requires Stands(s, [A, B], Active)
    ensures Stands(Step(s, BuyArrived(A_AGAIN, QUIET), Limits(base)), [A_AGAIN, B], Active)
    ensures Upgrades(s.candidates[MINT], BuyArrived(A_AGAIN, QUIET))
  {
    var c, cfg := s.candidates[MINT], Limits(base);
    assert FindBuy(c.earlyBuys, "a") == Some(0);
    assert Upgrade(A, A_AGAIN) == A_AGAIN;
    var c' := Merge(c, 0, A_AGAIN);
    assert c'.earlyBuys == [A_AGAIN, B];
    UpgradeWeighs(c', base);
  }

  /** The five events, one after the other. */
  lemma Prefixes()
    ensures |EVENTS| == 5 && EVENTS[..5] == EVENTS && EVENTS[..0] + [EVENTS[0]] == EVENTS[..1]
    ensures EVENTS[..1] + [BuyArrived(A, QUIET)] == EVENTS[..2] && EVENTS[..2] + [BuyArrived(B, QUIET)] == EVENTS[..3]
    ensures EVENTS[..3] + [BuyArrived(A_AGAIN, QUIET)] == EVENTS[..4]
    ensures EVENTS[..4] + [BuyArrived(D, QUIET)] == EVENTS[..5]
    ensures EVENTS[3] == BuyArrived(A_AGAIN, QUIET)
  {
  }

  lemma Admitting(base: Config) returns (states: seq<LoopState>)
    ensures Run(states, EVENTS[..1], Limits(base)) && Stands(states[1], [], Active)
  {
    Prefixes();
    Admission(base);
    assert EVENTS[..0] == [];
    states := Extend([Initial], EVENTS[..0], Limits(base), EVENTS[0]);
  }

  lemma AfterFirst(base: Config) returns (states: seq<LoopState>)
    ensures Run(states, EVENTS[..2], Limits(base)) && Stands(states[2], [A], Active)
  {
    Prefixes();
    var before := Admitting(base);
    FirstBuy(before[1], base);
    states := Extend(before, EVENTS[..1], Limits(base), BuyArrived(A, QUIET));
  }

  lemma BeforeUpgrade(base: Config) returns (states: seq<LoopState>)
    ensures Run(states, EVENTS[..3], Limits(base)) && Stands(states[3], [A, B], Active)
  {
    Prefixes();
    var before := AfterFirst(base);
    SecondBuy(before[2], base);
    states := Extend(before, EVENTS[..2], Limits(base), BuyArrived(B, QUIET));
  }

  lemma UpgradeReached(base: Config) returns (states: seq<LoopState>)
    ensures Run(states, EVENTS[..4], Limits(base))
    ensures Stands(states[3], [A, B], Active) && Upgrades(states[3].candidates[MINT], BuyArrived(A_AGAIN, QUIET))
    ensures Stands(states[4], [A_AGAIN, B], Active)
  {
    Prefixes();
    var before := BeforeUpgrade(base);
    Redelivery(before[3], base);
    states := Extend(before, EVENTS[..3], Limits(base), BuyArrived(A_AGAIN, QUIET));
  }

  /** The upgraded buy makes for 80 percent of the SOL, an immediate reason; one buy later the candidate finalizes. */
  lemma UpgradeRejectLostWitness(base: Config) returns (states: seq<LoopState>)
    ensures Run(states, EVENTS, Limits(base))
    ensures Stands(states[3], [A, B], Active) && Upgrades(states[3].candidates[MINT], EVENTS[3])
    ensures Stands(states[4], [A_AGAIN, B], Active)
    ensures RejectNow(states[4].candidates[MINT], Limits(base), QUIET) == Some(Concentration)
    ensures Stands(states[5], [A_AGAIN, B, D], Finalizing)
  {
    Prefixes();
    var before := UpgradeReached(base);
    UpgradeWeighs(before[4].candidates[MINT], base);
    LastBuy(before[4], base);
    states := Extend(before, EVENTS[..4], Limits(base), BuyArrived(D, QUIET));
  }
}
