/**
 * A run in which the one outsider who kept the creator within its limits is blocked between the trigger and the
 * scoring: the signal is sent although the limits are broken by then.
 */
module BlockedLater {
  import opened Wrappers
  import opened FilterTypes
  import opened BuyFeed
  import opened SmartMoney
  import opened Gate3
  import opened Gate3Rules
  import opened EventLoop
  import opened ScoreRules
  import opened LoopInvariants
  import opened LoopHistory
  import opened Gate3Runs

  const MINT: Mint := "mint"
  const CREATOR: Address := "creator"
  const OUTSIDER: Address := "outsider"

  function Blocking(blocked: set<Address>): Env {
    Env(HotLists({}, {}, blocked), 0, 0, 0.0, 0.0, 0, 0)
  }

  const OPEN := Blocking({})
  const SHUT := Blocking({OUTSIDER})

  /** Any configuration, with the early-buyer fallback and these limits. */
  function Limits(base: Config): Config {
    base.(hasApiKey := false, disableSmartMoneyFilter := true, maxBuys := 10, fastMinSol := 1000.0, softMinSol := 0.4,
          concentrationReject := false, selfBuyBlock := true, selfBuyMaxSol := 0.3, selfBuyMaxShare := 0.55,
          selfBuyHardSol := 10.0, selfBuyHardShare := 0.6)
  }

  function BuyOf(buyer: Address, lamports: nat): Buy {
    Buy(MINT, buyer, "processed", "token", lamports, [], [], buyer, 0, 0)
  }

  const TOKEN := Token(MINT, CREATOR, 0, 0, 0, 0, [])
  const OUTSIDE := BuyOf(OUTSIDER, 350_000_000)
  const OWN := BuyOf(CREATOR, 400_000_000)

  const ADMIT := Gate1Done(TOKEN, true, LocalHit(GateResult(true, None, 0, 0)), OPEN)
  const FIRST := BuyArrived(OUTSIDE, OPEN)
  const SECOND := BuyArrived(OWN, OPEN)
  const SCORE := Scored(0, SHUT, SHUT.hot, true)

  const EVENTS := [ADMIT, FIRST, SECOND, SCORE]

  /** A candidate of this run: created at 0, nothing known of creator or buyers. */
  predicate Plain(c: Candidate, buys: seq<Buy>) {
    && c.creator == CREATOR && c.mint == MINT && c.createdAt == 0 && c.detectedAtMs == 0
    && c.creatorProfile == None && c.buyerProfiles == map[] && c.earlyBuys == buys
  }

  lemma Nobody(c: Candidate, buys: seq<Buy>, hot: HotLists)
    requires Plain(c, buys)
    ensures KnownFunders(c, hot) == {} && Linked(c, hot) == {}
  {
  }

  /** With no profiles the fast path asks for 1000 SOL, and only the creator's limits can reject so few buys. */
  lemma FewBuys(c: Candidate, base: Config, buys: seq<Buy>, env: Env)
    requires Plain(c, buys) && |buys| <= 2 && (env == OPEN || env == SHUT)
    ensures Backers(c, Limits(base), env.hot) == Admissible(c, env.hot)
    ensures Rejected(c, Limits(base), env) <==> CreatorOverbuys(c, Limits(base), env.hot)
    ensures FastHolds(c, Limits(base), env.hot) ==> Spent(buys, Admissible(c, env.hot)) >= 1_000_000_000_000
  {
    Nobody(c, buys, env.hot);
    NoneBought(buys);
  }

  lemma {:induction false} NoneBought(buys: seq<Buy>)
    ensures Bought(buys, {}) == 0 && Spent(buys, {}) == 0
  {
    if buys != [] {
      NoneBought(buys[..|buys| - 1]);
    }
  }

  lemma Totals(who: set<Address>)
    ensures Spent([], who) == 0
    ensures Spent([OUTSIDE], who) == if OUTSIDER in who then 350_000_000 else 0
    ensures Spent([OUTSIDE, OWN], who) ==
              (if OUTSIDER in who then 350_000_000 else 0) + if CREATOR in who then 400_000_000 else 0
    ensures CREATOR != OUTSIDER
  {
    assert CREATOR[0] != OUTSIDER[0];
    assert [OUTSIDE][..0] == [] && [OUTSIDE, OWN][..1] == [OUTSIDE];
  }

  lemma WhoBought()
    ensures Buyers([]) == {} && Buyers([OUTSIDE]) == {OUTSIDER} && Buyers([OUTSIDE, OWN]) == {OUTSIDER, CREATOR}
  {
    var two := [OUTSIDE, OWN];
    assert two[0] in two && two[1] in two && [OUTSIDE][0] in [OUTSIDE];
  }

  /** Before the creator buys, gate 3 neither rejects nor triggers. */
  lemma Quiet(c: Candidate, base: Config, buys: seq<Buy>)
    requires Plain(c, buys) && (buys == [] || buys == [OUTSIDE])
    ensures !Rejected(c, Limits(base), OPEN)
    ensures ShouldFinalize(c, Limits(base), OPEN).None?
  {
    WhoBought();
    Totals(Admissible(c, OPEN.hot));
    FewBuys(c, base, buys, OPEN);
    TriggerIff(c, Limits(base), OPEN);
    assert !CreatorOverbuys(c, Limits(base), OPEN.hot);
  }

  /** Who counts once both have bought, by the hot lists before and after. */
  lemma WhoCounts(c: Candidate)
    requires Plain(c, [OUTSIDE, OWN])
    ensures Admissible(c, OPEN.hot) == {OUTSIDER, CREATOR} && Outsiders(c, OPEN.hot) == {OUTSIDER}
    ensures Admissible(c, SHUT.hot) == {CREATOR} && Outsiders(c, SHUT.hot) == {}
  {
    WhoBought();
    Totals({});
  }

  /** The creator pays 53 percent while the outsider counts, and all of it afterwards. */
  lemma Weighs(c: Candidate, base: Config)
    requires Plain(c, [OUTSIDE, OWN])
    ensures !CreatorOverbuys(c, Limits(base), OPEN.hot) && CreatorOverbuys(c, Limits(base), SHUT.hot)
  {
    WhoCounts(c);
    Totals({CREATOR});
    Totals({OUTSIDER});
    Totals({});
  }

  lemma FastFails(c: Candidate, base: Config, env: Env)
    requires Plain(c, [OUTSIDE, OWN]) && (env == OPEN || env == SHUT)
    ensures !Triggers(Fast, c, Limits(base), env.hot)
  {
    FewBuys(c, base, [OUTSIDE, OWN], env);
    Totals(Admissible(c, env.hot));
  }

  lemma FirstIsShort(c: Candidate, base: Config, env: Env)
    requires Plain(c, [OUTSIDE, OWN]) && (env == OPEN || env == SHUT)
    ensures !HoldsAt(Soft, c, Limits(base), env.hot, 0)
  {
    var before := UpTo(c, 0);
    assert Plain(before, [OUTSIDE]);
    Totals(Backers(before, Limits(base), env.hot));
  }

  lemma SecondSuffices(c: Candidate, base: Config, env: Env)
    requires Plain(c, [OUTSIDE, OWN]) && (env == OPEN || env == SHUT)
    ensures HoldsAt(Soft, c, Limits(base), env.hot, 1) && SoftHolds(c, Limits(base), env.hot)
  {
    WhoCounts(c);
    FewBuys(c, base, [OUTSIDE, OWN], env);
    Totals(Admissible(c, env.hot));
    assert UpTo(c, 1) == c;
  }

  /** Either way the soft path triggers at the creator's buy. */
  lemma SoftTriggers(c: Candidate, base: Config, env: Env)
    requires Plain(c, [OUTSIDE, OWN]) && (env == OPEN || env == SHUT)
    ensures !Triggers(Fast, c, Limits(base), env.hot) && Triggers(Soft, c, Limits(base), env.hot)
  {
    FastFails(c, base, env);
    FirstIsShort(c, base, env);
    SecondSuffices(c, base, env);
    assert ReachedInTime(Soft, c, Limits(base), env.hot, 1);
  }

  predicate Stands(s: LoopState, buys: seq<Buy>) {
    !s.halted && s.tasks == [] && HasStatus(s, MINT, Active) && Plain(s.candidates[MINT], buys)
  }

  /** The candidate awaits its score. */
  predicate Awaits(s: LoopState) {
    && !s.halted && s.signals == [] && HasStatus(s, MINT, Finalizing) && Plain(s.candidates[MINT], [OUTSIDE, OWN])
    && s.tasks == [ScoreTask(MINT, s.candidates[MINT])]
  }

  lemma Admitting(base: Config)
    ensures Stands(Step(Initial, ADMIT, Limits(base)), []) && Step(Initial, ADMIT, Limits(base)).signals == []
  {
    var c := Admitted(Initial, TOKEN, 0).candidates[MINT];
    Quiet(c.(status := Active, trace := c.trace.(gate2AtMs := Some(0), gate3OpenAtMs := Some(0))), base, []);
  }

  lemma Accepting(c: Candidate, base: Config, buys: seq<Buy>, buy: Buy)
    requires Plain(c, buys)
    ensures var c' := Accepted(c, buy, Limits(base), 0);
            Plain(c', buys + [buy]) && c'.status == c.status && Spawned(c, buy.buyer, Limits(base)) == []
  {
  }

  lemma Evaluating(s: LoopState, c: Candidate, cfg: Config)
    requires c.status == Active && !Rejected(c, cfg, OPEN)
    ensures Evaluate(s, MINT, c, cfg, OPEN) == PutAndTry(s, MINT, c, cfg, OPEN)
  {
    RejectedIff(c, cfg, OPEN);
  }

  lemma Delivering(s: LoopState, base: Config, buys: seq<Buy>, buy: Buy)
    requires Stands(s, buys) && buy == BuyOf(buy.buyer, buy.lamports) && |buys| < 2
    requires FindBuy(buys, buy.signature).None?
    ensures var cfg, c := Limits(base), s.candidates[MINT];
            OnBuy(s, buy, cfg, OPEN) == Evaluate(s, MINT, Accepted(c, buy, cfg, 0), cfg, OPEN)
  {
    Accepting(s.candidates[MINT], base, buys, buy);
    assert s.tasks + [] == s.tasks;
    assert s.(tasks := s.tasks + Spawned(s.candidates[MINT], buy.buyer, Limits(base))) == s;
  }

  /** A first delivery is accepted and judged, as long as no reason rejects. */
  lemma Judging(s: LoopState, base: Config, buys: seq<Buy>, buy: Buy)
    requires Stands(s, buys) && buy == BuyOf(buy.buyer, buy.lamports) && |buys| < 2
    requires FindBuy(buys, buy.signature).None?
    requires !Rejected(Accepted(s.candidates[MINT], buy, Limits(base), 0), Limits(base), OPEN)
    ensures var c' := Accepted(s.candidates[MINT], buy, Limits(base), 0);
            && Plain(c', buys + [buy]) && c'.status == Active
            && Step(s, BuyArrived(buy, OPEN), Limits(base)) == PutAndTry(s, MINT, c', Limits(base), OPEN)
  {
    Accepting(s.candidates[MINT], base, buys, buy);
    Delivering(s, base, buys, buy);
    Evaluating(s, Accepted(s.candidates[MINT], buy, Limits(base), 0), Limits(base));
  }

  lemma NewSignatures()
    ensures FindBuy([], OUTSIDER).None? && FindBuy([OUTSIDE], CREATOR).None?
    ensures [] + [OUTSIDE] == [OUTSIDE] && [OUTSIDE] + [OWN] == [OUTSIDE, OWN]
  {
    Totals({});
    assert [OUTSIDE][1..] == [];
  }

  lemma FirstBuy(s: LoopState, base: Config)
    requires Stands(s, []) && s.signals == []
    ensures Stands(Step(s, FIRST, Limits(base)), [OUTSIDE]) && Step(s, FIRST, Limits(base)).signals == []
  {
    NewSignatures();
    var c' := Accepted(s.candidates[MINT], OUTSIDE, Limits(base), 0);
    assert Plain(c', [OUTSIDE]);
    Quiet(c', base, [OUTSIDE]);
    Judging(s, base, [], OUTSIDE);
  }

  lemma SecondBuy(s: LoopState, base: Config)
    requires Stands(s, [OUTSIDE]) && s.signals == []
    ensures Awaits(Step(s, SECOND, Limits(base)))
  {
    NewSignatures();
    var cfg, c' := Limits(base), Accepted(s.candidates[MINT], OWN, Limits(base), 0);
    assert Plain(c', [OUTSIDE, OWN]);
    Weighs(c', base);
    FewBuys(c', base, [OUTSIDE, OWN], OPEN);
    Judging(s, base, [OUTSIDE], OWN);
    SoftTriggers(c', base, OPEN);
    TriggerIff(c', cfg, OPEN);
    RejectedIff(c', cfg, OPEN);
    assert ShouldFinalize(c', cfg, OPEN) == Some(Soft);
  }

  lemma Signalling(s: LoopState, base: Config)
    requires Awaits(s)
    ensures |Step(s, SCORE, Limits(base)).signals| == 1
  {
    var c := s.candidates[MINT];
    SoftTriggers(c, base, SHUT);
    SignalIff(c, Limits(base), SHUT, SHUT.hot);
  }

  lemma Prefixes()
    ensures |EVENTS| == 4 && EVENTS[..4] == EVENTS && EVENTS[..0] == []
    ensures EVENTS[..0] + [ADMIT] == EVENTS[..1] && EVENTS[..1] + [FIRST] == EVENTS[..2]
    ensures EVENTS[..2] + [SECOND] == EVENTS[..3] && EVENTS[..3] + [SCORE] == EVENTS[..4]
  {
  }

  lemma Triggering(base: Config) returns (states: seq<LoopState>)
    ensures Run(states, EVENTS[..3], Limits(base)) && Awaits(states[3])
  {
    Prefixes();
    Admitting(base);
    states := Extend([Initial], EVENTS[..0], Limits(base), ADMIT);
    FirstBuy(states[1], base);
    states := Extend(states, EVENTS[..1], Limits(base), FIRST);
    SecondBuy(states[2], base);
    states := Extend(states, EVENTS[..2], Limits(base), SECOND);
  }

  /** The last event sends a signal while the creator's buys break the limits by that event's hot lists. */
  lemma SignalPastLimitsWitness(base: Config) returns (states: seq<LoopState>)
    ensures Run(states, EVENTS, Limits(base))
    ensures Awaits(states[3]) && !CreatorOverbuys(states[3].candidates[MINT], Limits(base), OPEN.hot)
    ensures |states[3].signals| == 0 && |states[4].signals| == 1
    ensures CreatorOverbuys(states[3].candidates[MINT], Limits(base), SHUT.hot)
  {
    Prefixes();
    states := Triggering(base);
    Weighs(states[3].candidates[MINT], base);
    Signalling(states[3], base);
    states := Extend(states, EVENTS[..3], Limits(base), SCORE);
  }
}
