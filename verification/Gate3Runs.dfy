/**
 * What gate 3 guarantees over whole runs: on what a candidate finalizes, what retires it, and what is true of
 * the buys behind every signal.
 */
module Gate3Runs {
  import opened Wrappers
  import opened FilterTypes
  import opened BuyFeed
  import opened SmartMoney
  import opened Gate3
  import opened Gate3Rules
  import opened Scoring
  import opened EventLoop
  import opened LoopInvariants
  import opened LoopSnapshots
  import opened LoopHistory

  // ---------------------------------------------------------------- what retires a candidate

  predicate Rejected(c: Candidate, cfg: Config, env: Env) {
    || CreatorOverbuys(c, cfg, env.hot) || LinkedOverbuy(c, env.hot) || OneBuyerDominates(c, cfg, env.hot)
    || FewFunders(c, env.hot) || Late(c, cfg, env) || FullAndShort(c, cfg, env.hot)
  }

  /** What a first delivery does not wait with: a full list only counts if no reason that can wait comes first. */
  predicate RejectedAtOnce(c: Candidate, cfg: Config, env: Env) {
    || CreatorOverbuys(c, cfg, env.hot) || LinkedOverbuy(c, env.hot) || OneBuyerDominates(c, cfg, env.hot)
    || (FullAndShort(c, cfg, env.hot) && !FewFunders(c, env.hot) && !Late(c, cfg, env))
  }

  lemma RejectedIff(c: Candidate, cfg: Config, env: Env)
    ensures var r := RejectReason(c, Stats(c, cfg, env), cfg);
            && (r.Some? <==> Rejected(c, cfg, env))
            && (r.Some? && Immediate(r.value) <==> RejectedAtOnce(c, cfg, env))
  {
    ReasonsIff(c, cfg, env);
    var r := RejectReason(c, Stats(c, cfg, env), cfg);
    if r.Some? {
      match r.value
      case CreatorSelfBuy =>
      case CreatorCluster =>
      case Concentration =>
      case LowDiversity =>
      case WindowClosed =>
      case MaxBuysReached =>
    }
  }

  /** A tick retires an active candidate exactly when one of the six conditions holds. */
  lemma TickRetiresIff(s: LoopState, e: Event, cfg: Config, m: Mint)
    requires Enabled(s, e, cfg) && HasStatus(s, m, Active) && e.Tick?
    ensures m !in Step(s, e, cfg).candidates <==> Rejected(s.candidates[m], cfg, e.envs[m])
  {
    TickDecides(s, e, cfg, m);
    RejectedIff(s.candidates[m], cfg, e.envs[m]);
  }

  /** A first delivery retires an active candidate exactly when, with it, one of those holds that cannot wait. */
  lemma DeliveryRetiresIff(s: LoopState, e: Event, cfg: Config, m: Mint)
    requires Enabled(s, e, cfg) && HasStatus(s, m, Active) && e.BuyArrived? && e.buy.mint == m
    requires FirstDelivery(s.candidates[m], e, cfg)
    ensures m !in Step(s, e, cfg).candidates <==>
              RejectedAtOnce(Accepted(s.candidates[m], e.buy, cfg, e.env.nowMs), cfg, e.env)
  {
    BuyDecides(s, e, cfg, m);
    RejectedIff(Accepted(s.candidates[m], e.buy, cfg, e.env.nowMs), cfg, e.env);
  }

  // ---------------------------------------------------------------- on what a candidate finalizes

  /** What gate 3 looks at is not the status or the trace. */
  lemma StatusIrrelevant(c: Candidate, status: Status, trace: Trace, cfg: Config, env: Env)
    ensures ShouldFinalize(c.(status := status, trace := trace), cfg, env) == ShouldFinalize(c, cfg, env)
  {
    var c' := c.(status := status, trace := trace);
    assert LensOf(c', cfg, env.hot) == LensOf(c, cfg, env.hot);
    assert Stats(c', cfg, env) == Stats(c, cfg, env);
  }

  /** If the mint's candidate is finalizing now, gate 3 triggers for it now and its trace names the path. */
  ghost predicate FinalizedOn(s': LoopState, m: Mint, cfg: Config, env: Env) {
    HasStatus(s', m, Finalizing) ==>
      ShouldFinalize(s'.candidates[m], cfg, env).Some?
      && s'.candidates[m].trace.path == ShouldFinalize(s'.candidates[m], cfg, env)
  }

  lemma PutAndTryOn(s: LoopState, m: Mint, c: Candidate, cfg: Config, env: Env)
    requires c.status != Finalizing
    ensures FinalizedOn(PutAndTry(s, m, c, cfg, env), m, cfg, env)
  {
    match ShouldFinalize(c, cfg, env)
    case None =>
    case Some(path) =>
      StatusIrrelevant(c, Finalizing, c.trace.(gate3TriggerAtMs := Some(env.nowMs), path := Some(path)), cfg, env);
  }

  lemma EvaluateOn(s: LoopState, m: Mint, c: Candidate, cfg: Config, env: Env)
    requires c.status != Finalizing
    ensures FinalizedOn(Judge(s, m, c, cfg, env), m, cfg, env) && FinalizedOn(Put(s, m, c), m, cfg, env)
    ensures FinalizedOn(Evaluate(s, m, c, cfg, env), m, cfg, env)
  {
    PutAndTryOn(s, m, c, cfg, env);
  }

  lemma ResolveOn(s: LoopState, m: Mint, r: GateResult, cfg: Config, env: Env)
    requires m in s.candidates
    ensures FinalizedOn(Resolve(s, m, r, cfg, env), m, cfg, env)
  {
    var c := s.candidates[m];
    var trace := c.trace.(gate2AtMs := Some(r.readyAtMs));
    if r.passed {
      PutAndTryOn(s, m, c.(status := Active, creatorProfile := r.profile, gate2Penalty := r.penalty,
                           trace := trace.(gate3OpenAtMs := FirstOf(trace.gate3OpenAtMs, r.readyAtMs))), cfg, env);
    }
  }

  lemma OnBuyOn(s: LoopState, buy: Buy, cfg: Config, env: Env)
    requires buy.mint in s.candidates && s.candidates[buy.mint].status != Finalizing
    ensures FinalizedOn(OnBuy(s, buy, cfg, env), buy.mint, cfg, env)
  {
    var m := buy.mint;
    var c := s.candidates[m];
    match FindBuy(c.earlyBuys, buy.signature)
    case Some(k) => EvaluateOn(s, m, Merge(c, k, buy), cfg, env);
    case None =>
      EvaluateOn(s.(tasks := s.tasks + Spawned(c, buy.buyer, cfg)), m, Accepted(c, buy, cfg, env.nowMs), cfg, env);
  }

  /** An event that makes a candidate finalizing does so on gate 3's trigger under its own readings. */
  lemma StepFinalizes(s: LoopState, e: Event, cfg: Config, m: Mint)
    requires Inv(s, cfg) && Enabled(s, e, cfg)
    requires !HasStatus(s, m, Finalizing) && HasStatus(Step(s, e, cfg), m, Finalizing)
    ensures !e.Tick? && FinalizedOn(Step(s, e, cfg), m, cfg, EnvFor(e, m))
  {
    match e
    case Gate1Done(token, passed, local, env) =>
      OnGate1Log(s, token, passed, local, cfg, env);
      if token.mint !in s.candidates && passed && local.LocalHit? {
        ResolveFinalizes(Admitted(s, token, env.now), token.mint, local.result, cfg, env, m);
      }
    case GateResolved(i, r, env) =>
      TakenQuiet(s, i, GateMessage);
      ResolveFinalizes(Taken(s, i), s.tasks[i].mint, r, cfg, env, m);
    case ProfileResolved(i, profile, env) =>
      ProfileFinalizes(Taken(s, i), s.tasks[i].mint, s.tasks[i].address, profile, cfg, env, m);
    case Scored(i, env, later, sent) =>
    case BuyArrived(buy, env) => BuyFinalizes(s, buy, env, cfg, m);
    case Tick(_, order) => RetireAllKeeps(s, order);
  }

  lemma ResolveFinalizes(s: LoopState, m': Mint, r: GateResult, cfg: Config, env: Env, m: Mint)
    requires m' in s.candidates
    requires !HasStatus(s, m, Finalizing) && HasStatus(Resolve(s, m', r, cfg, env), m, Finalizing)
    ensures FinalizedOn(Resolve(s, m', r, cfg, env), m, cfg, env)
  {
    ResolveLog(s, m', r, cfg, env);
    ResolveOn(s, m', r, cfg, env);
  }

  lemma BuyFinalizes(s: LoopState, buy: Buy, env: Env, cfg: Config, m: Mint)
    requires !HasStatus(s, m, Finalizing) && HasStatus(OnBuy(s, buy, cfg, env), m, Finalizing)
    ensures FinalizedOn(OnBuy(s, buy, cfg, env), m, cfg, env)
  {
    if buy.mint in s.candidates {
      OnBuyLog(s, buy, cfg, env);
      if s.candidates[buy.mint].status != Finalizing {
        OnBuyOn(s, buy, cfg, env);
      }
    }
  }

  lemma ProfileFinalizes(s: LoopState, m': Mint, a: Address, profile: Option<BuyerProfile>, cfg: Config, env: Env,
      m: Mint)
    requires !HasStatus(s, m, Finalizing) && HasStatus(OnProfile(s, m', a, profile, cfg, env), m, Finalizing)
    ensures FinalizedOn(OnProfile(s, m', a, profile, cfg, env), m, cfg, env)
  {
    if m' in s.candidates {
      OnProfileLog(s, m', a, profile, cfg, env);
      if s.candidates[m'].status != Finalizing {
        ProfileOn(s, m', a, profile, cfg, env);
      }
    }
  }

  lemma ProfileOn(s: LoopState, m: Mint, a: Address, profile: Option<BuyerProfile>, cfg: Config, env: Env)
    requires m in s.candidates && s.candidates[m].status != Finalizing
    ensures FinalizedOn(OnProfile(s, m, a, profile, cfg, env), m, cfg, env)
  {
    EvaluateOn(s, m, Profiled(s.candidates[m], a, profile), cfg, env);
  }

  /**
   * A candidate finalizes only on a trigger of the path its trace names, and only while none of the reasons to
   * reject holds, both under the readings of the event that finalizes it; in particular never while the creator's
   * own buys break the configured limits.
   */
  lemma FinalizesOnTrigger(states: seq<LoopState>, events: seq<Event>, cfg: Config, n: nat, m: Mint)
    requires Run(states, events, cfg) && n < |events|
    requires !HasStatus(states[n], m, Finalizing) && HasStatus(states[n + 1], m, Finalizing)
    ensures !events[n].Tick?
    ensures var (c, env) := (states[n + 1].candidates[m], EnvFor(events[n], m));
            && !Rejected(c, cfg, env) && !CreatorOverbuys(c, cfg, env.hot)
            && (c.trace.path == Some(Fast) <==> Triggers(Fast, c, cfg, env.hot))
            && (c.trace.path == Some(Soft) <==> !Triggers(Fast, c, cfg, env.hot) && Triggers(Soft, c, cfg, env.hot))
            && c.trace.path.Some?
  {
    RunKeepsInv(states, events, cfg, n);
    assert states[n + 1] == Step(states[n], events[n], cfg);
    StepFinalizes(states[n], events[n], cfg, m);
    var (c, env) := (states[n + 1].candidates[m], EnvFor(events[n], m));
    RejectedIff(c, cfg, env);
    TriggerIff(c, cfg, env);
  }

  // ---------------------------------------------------------------- the buys behind a signal

  lemma FinalizingBuy(s: LoopState, buy: Buy, env: Env, cfg: Config, m: Mint)
    requires HasStatus(s, m, Finalizing) && m in OnBuy(s, buy, cfg, env).candidates
    ensures SameButProfiles(OnBuy(s, buy, cfg, env).candidates[m], s.candidates[m])
  {
    if buy.mint in s.candidates && buy.mint != m {
      OnBuyLog(s, buy, cfg, env);
    }
  }

  lemma FinalizingProfile(s: LoopState, m': Mint, a: Address, profile: Option<BuyerProfile>, cfg: Config, env: Env,
      m: Mint)
    requires HasStatus(s, m, Finalizing) && m in OnProfile(s, m', a, profile, cfg, env).candidates
    ensures SameButProfiles(OnProfile(s, m', a, profile, cfg, env).candidates[m], s.candidates[m])
  {
    if m' in s.candidates && m' != m {
      OnProfileLog(s, m', a, profile, cfg, env);
    }
  }

  /** While it finalizes, a candidate changes in nothing but what is known of its buyers. */
  lemma FinalizingStep(s: LoopState, e: Event, cfg: Config, m: Mint)
    requires Inv(s, cfg) && Enabled(s, e, cfg) && HasStatus(s, m, Finalizing) && m in Step(s, e, cfg).candidates
    ensures SameButProfiles(Step(s, e, cfg).candidates[m], s.candidates[m])
  {
    match e
    case Gate1Done(token, passed, local, env) => OnGate1Log(s, token, passed, local, cfg, env);
    case GateResolved(i, r, env) =>
      TakenQuiet(s, i, GateMessage);
      ResolveLog(Taken(s, i), s.tasks[i].mint, r, cfg, env);
    case ProfileResolved(i, profile, env) =>
      FinalizingProfile(Taken(s, i), s.tasks[i].mint, s.tasks[i].address, profile, cfg, env, m);
    case Scored(i, env, later, sent) =>
    case BuyArrived(buy, env) => FinalizingBuy(s, buy, env, cfg, m);
    case Tick(_, order) => RetireAllKeeps(s, order);
  }

  /** The event `p` made the mint's candidate finalizing, and it has been since, with the same buys. */
  ghost predicate FinalizedAt(states: seq<LoopState>, events: seq<Event>, m: Mint, p: nat, n: nat)
    requires n < |states| && n <= |events|
  {
    && p < n && !HasStatus(states[p], m, Finalizing) && HasStatus(states[p + 1], m, Finalizing)
    && HasStatus(states[n], m, Finalizing) && SameButProfiles(states[n].candidates[m], states[p + 1].candidates[m])
  }

  lemma {:induction false} FinalizedSince(states: seq<LoopState>, events: seq<Event>, cfg: Config, n: nat, m: Mint)
    returns (p: nat)
    requires Run(states, events, cfg) && n <= |events| && HasStatus(states[n], m, Finalizing)
    ensures FinalizedAt(states, events, m, p, n)
  {
    assert n > 0;
    if HasStatus(states[n - 1], m, Finalizing) {
      p := FinalizedSince(states, events, cfg, n - 1, m);
      RunKeepsInv(states, events, cfg, n - 1);
      FinalizingStep(states[n - 1], events[n - 1], cfg, m);
    } else {
      p := n - 1;
    }
  }

  /** Only who is admissible among the buyers matters for the creator's limits, not the rest of the hot lists. */
  lemma LimitsByAdmissible(c: Candidate, c': Candidate, cfg: Config, hot: HotLists, hot': HotLists)
    requires c'.earlyBuys == c.earlyBuys && c'.creator == c.creator
    requires Admissible(c, hot) == Admissible(c', hot')
    ensures CreatorOverbuys(c, cfg, hot) <==> CreatorOverbuys(c', cfg, hot')
  {
    assert Outsiders(c, hot) == Outsiders(c', hot');
  }

  /**
   * Behind every signal is a candidate whose creator kept within the limits: at the event `p` that finalized it,
   * on the very buys it still holds. The signal breaks the limits by the hot lists of its own event only if these
   * block, or no longer block, some of those buyers.
   */
  lemma SignalsKeepLimits(states: seq<LoopState>, events: seq<Event>, cfg: Config, n: nat) returns (p: nat)
    requires Run(states, events, cfg) && n < |events| && events[n].Scored?
    requires |states[n + 1].signals| > |states[n].signals|
    ensures var m := states[n].tasks[events[n].task].mint;
            && FinalizedAt(states, events, m, p, n) && !events[p].Tick?
            && var (c, was, now) := (states[n].candidates[m], EnvFor(events[p], m).hot, events[n].env.hot);
               && !CreatorOverbuys(c, cfg, was)
               && (Admissible(c, now) == Admissible(c, was) ==> !CreatorOverbuys(c, cfg, now))
  {
    var m := states[n].tasks[events[n].task].mint;
    ScoredIsFinalizing(states, events, cfg, n);
    p := FinalizedSince(states, events, cfg, n, m);
    FinalizedWithin(states, events, cfg, p, n, m);
    var (c, was, now) := (states[n].candidates[m], EnvFor(events[p], m).hot, events[n].env.hot);
    if Admissible(c, now) == Admissible(c, was) {
      LimitsByAdmissible(c, c, cfg, was, now);
    }
  }

  lemma ScoredIsFinalizing(states: seq<LoopState>, events: seq<Event>, cfg: Config, n: nat)
    requires Run(states, events, cfg) && n < |events| && events[n].Scored?
    ensures HasStatus(states[n], states[n].tasks[events[n].task].mint, Finalizing)
  {
    RunKeepsInv(states, events, cfg, n);
    TakenQuiet(states[n], events[n].task, ScoreMessage);
  }

  lemma FinalizedWithin(states: seq<LoopState>, events: seq<Event>, cfg: Config, p: nat, n: nat, m: Mint)
    requires Run(states, events, cfg) && n <= |events| && FinalizedAt(states, events, m, p, n)
    ensures !events[p].Tick? && !CreatorOverbuys(states[n].candidates[m], cfg, EnvFor(events[p], m).hot)
  {
    FinalizesOnTrigger(states, events, cfg, p, m);
    var hot := EnvFor(events[p], m).hot;
    LimitsByAdmissible(states[p + 1].candidates[m], states[n].candidates[m], cfg, hot, hot);
  }
}
