/**
 * What a candidate holds, told from the events of the run alone, and what can happen to it next: which
 * events leave it as it is, and which decide it.
 */
module LoopHistory {
  import opened Wrappers
  import opened FilterTypes
  import opened BuyFeed
  import opened SmartMoney
  import opened Gate3
  import opened EventLoop
  import opened LoopInvariants

  // ---------------------------------------------------------------- going on

  /** A run goes on with any event that is enabled where it ended. */
  lemma RunSnoc(states: seq<LoopState>, events: seq<Event>, cfg: Config, e: Event, s': LoopState)
    requires Run(states, events, cfg) && Enabled(states[|events|], e, cfg) && s' == Step(states[|events|], e, cfg)
    ensures Run(states + [s'], events + [e], cfg)
  {
    var longer, all := states + [s'], events + [e];
    forall i | 0 <= i < |all| ensures Enabled(longer[i], all[i], cfg) && longer[i + 1] == Step(longer[i], all[i], cfg) {
      assert i < |events| ==> longer[i] == states[i] && longer[i + 1] == states[i + 1] && all[i] == events[i];
    }
  }

  lemma Extend(states: seq<LoopState>, events: seq<Event>, cfg: Config, e: Event) returns (longer: seq<LoopState>)
    requires Run(states, events, cfg) && Enabled(states[|events|], e, cfg)
    ensures Run(longer, events + [e], cfg) && longer == states + [Step(states[|events|], e, cfg)]
  {
    longer := states + [Step(states[|events|], e, cfg)];
    RunSnoc(states, events, cfg, e, longer[|events| + 1]);
  }

  // ---------------------------------------------------------------- what a step does to a log

  /** Only mint `m` is touched. */
  ghost predicate OthersKept(s: LoopState, s': LoopState, m: Mint) {
    forall n :: n != m ==>
      (n in s'.candidates <==> n in s.candidates) && (n in s.candidates ==> s'.candidates[n] == s.candidates[n])
  }

  /** Where the mint is still live, it is the same admission with this log. */
  ghost predicate LogIs(s: LoopState, s': LoopState, m: Mint, log: seq<Buy>) {
    m in s'.candidates ==>
      && m in s.candidates
      && s'.candidates[m].admission == s.candidates[m].admission
      && s'.candidates[m].createdAt == s.candidates[m].createdAt
      && s'.candidates[m].log == log
  }

  lemma JudgeLog(s: LoopState, m: Mint, c: Candidate, cfg: Config, env: Env)
    requires m in s.candidates && c.admission == s.candidates[m].admission && c.createdAt == s.candidates[m].createdAt
    ensures OthersKept(s, Judge(s, m, c, cfg, env), m) && LogIs(s, Judge(s, m, c, cfg, env), m, c.log)
    ensures OthersKept(s, PutAndTry(s, m, c, cfg, env), m) && LogIs(s, PutAndTry(s, m, c, cfg, env), m, c.log)
    ensures OthersKept(s, Put(s, m, c), m) && LogIs(s, Put(s, m, c), m, c.log)
  {
    match ShouldFinalize(c, cfg, env)
    case None =>
    case Some(_) =>
  }

  lemma EvaluateLog(s: LoopState, m: Mint, c: Candidate, cfg: Config, env: Env)
    requires m in s.candidates && c.admission == s.candidates[m].admission && c.createdAt == s.candidates[m].createdAt
    ensures OthersKept(s, Evaluate(s, m, c, cfg, env), m) && LogIs(s, Evaluate(s, m, c, cfg, env), m, c.log)
  {
    JudgeLog(s, m, c, cfg, env);
  }

  lemma ResolveLog(s: LoopState, m: Mint, r: GateResult, cfg: Config, env: Env)
    requires m in s.candidates
    ensures OthersKept(s, Resolve(s, m, r, cfg, env), m)
    ensures LogIs(s, Resolve(s, m, r, cfg, env), m, s.candidates[m].log)
  {
    var c := s.candidates[m];
    var trace := c.trace.(gate2AtMs := Some(r.readyAtMs));
    if r.passed {
      JudgeLog(s, m, c.(status := Active, creatorProfile := r.profile, gate2Penalty := r.penalty,
                        trace := trace.(gate3OpenAtMs := FirstOf(trace.gate3OpenAtMs, r.readyAtMs))), cfg, env);
    }
  }

  lemma OnProfileLog(s: LoopState, m: Mint, address: Address, profile: Option<BuyerProfile>, cfg: Config, env: Env)
    requires m in s.candidates
    ensures OthersKept(s, OnProfile(s, m, address, profile, cfg, env), m)
    ensures LogIs(s, OnProfile(s, m, address, profile, cfg, env), m, s.candidates[m].log)
  {
    JudgeLog(s, m, Profiled(s.candidates[m], address, profile), cfg, env);
  }

  /** A candidate keeps a buy: it repeats a signature it holds, or it is a first delivery in number and in time. */
  predicate Keeps(c: Candidate, buy: Buy, cfg: Config) {
    && c.status != Finalizing
    && (|| FindBuy(c.earlyBuys, buy.signature).Some?
        || (|c.earlyBuys| < cfg.maxBuys && SatSub(buy.detectedAt, c.createdAt) <= HardRejectMs(cfg)))
  }

  lemma OnBuyLog(s: LoopState, buy: Buy, cfg: Config, env: Env)
    requires buy.mint in s.candidates
    ensures OthersKept(s, OnBuy(s, buy, cfg, env), buy.mint)
    ensures var c := s.candidates[buy.mint];
            LogIs(s, OnBuy(s, buy, cfg, env), buy.mint, if Keeps(c, buy, cfg) then c.log + [buy] else c.log)
  {
    var m := buy.mint;
    var c := s.candidates[m];
    if Keeps(c, buy, cfg) {
      match FindBuy(c.earlyBuys, buy.signature)
      case Some(k) => JudgeLog(s, m, Merge(c, k, buy), cfg, env);
      case None =>
        var spawned := Spawned(c, buy.buyer, cfg);
        EvaluateLog(s.(tasks := s.tasks + spawned), m, Accepted(c, buy, cfg, env.nowMs), cfg, env);
    }
  }

  lemma OnGate1Log(s: LoopState, token: Token, passed: bool, local: LocalGate, cfg: Config, env: Env)
    ensures OthersKept(s, OnGate1(s, token, passed, local, cfg, env), token.mint)
    ensures token.mint in s.candidates ==> OnGate1(s, token, passed, local, cfg, env) == s
    ensures var s' := OnGate1(s, token, passed, local, cfg, env);
            token.mint !in s.candidates && token.mint in s'.candidates ==> s'.candidates[token.mint].log == []
  {
    if token.mint !in s.candidates && passed && local.LocalHit? {
      ResolveLog(Admitted(s, token, env.now), token.mint, local.result, cfg, env);
    }
  }

  /** What the event adds to the log of the mint's candidate. */
  function Logged(c: Candidate, m: Mint, e: Event, cfg: Config): seq<Buy> {
    if e.BuyArrived? && e.buy.mint == m && Keeps(c, e.buy, cfg) then c.log + [e.buy] else c.log
  }

  lemma StepLog(s: LoopState, e: Event, cfg: Config, m: Mint)
    requires Enabled(s, e, cfg) && m in Step(s, e, cfg).candidates
    ensures m in s.candidates ==> LogIs(s, Step(s, e, cfg), m, Logged(s.candidates[m], m, e, cfg))
    ensures m !in s.candidates ==> Step(s, e, cfg).candidates[m].log == []
  {
    match e
    case Gate1Done(token, passed, local, env) => OnGate1Log(s, token, passed, local, cfg, env);
    case GateResolved(i, r, env) =>
      if s.tasks[i].mint in s.candidates {
        ResolveLog(Taken(s, i), s.tasks[i].mint, r, cfg, env);
      }
    case ProfileResolved(i, profile, env) =>
      if s.tasks[i].mint in s.candidates {
        OnProfileLog(Taken(s, i), s.tasks[i].mint, s.tasks[i].address, profile, cfg, env);
      }
    case Scored(i, env, later, sent) =>
    case BuyArrived(buy, env) =>
      if buy.mint in s.candidates {
        OnBuyLog(s, buy, cfg, env);
      }
    case Tick(envs, order) => RetireAllKeeps(s, order);
  }

  // ---------------------------------------------------------------- deliveries, from the events

  function Signatures(buys: seq<Buy>): set<string> {
    set b | b in buys :: b.signature
  }

  /** A delivery is taken if its signature has been, or if there is room for another signature in time. */
  predicate Takes(taken: seq<Buy>, buy: Buy, createdAt: nat, cfg: Config) {
    || buy.signature in Signatures(taken)
    || (|Signatures(taken)| < cfg.maxBuys && SatSub(buy.detectedAt, createdAt) <= HardRejectMs(cfg))
  }

  /**
   * The buys among the first `n` events that were taken for the mint's present admission: those that
   * arrived since the mint was last admitted, while its candidate was not finalizing.
   */
  function Deliveries(states: seq<LoopState>, events: seq<Event>, cfg: Config, n: nat, m: Mint): seq<Buy>
    requires n < |states| && n <= |events|
  {
    if n == 0 || m !in states[n].candidates || m !in states[n - 1].candidates then []
    else
      var before, c, e := Deliveries(states, events, cfg, n - 1, m), states[n - 1].candidates[m], events[n - 1];
      if e.BuyArrived? && e.buy.mint == m && c.status != Finalizing && Takes(before, e.buy, c.createdAt, cfg)
      then before + [e.buy] else before
  }

  /** A faithful candidate holds exactly the signatures of its log. */
  lemma HeldSignatures(c: Candidate, maxBuys: nat)
    requires Faithful(c, maxBuys)
    ensures c.buySignatures == Signatures(c.log) && |c.earlyBuys| == |Signatures(c.log)|
    ensures forall g :: FindBuy(c.earlyBuys, g).Some? <==> g in Signatures(c.log)
  {
    forall k: nat | k < |c.earlyBuys| ensures c.earlyBuys[k].signature in Signatures(c.log) {
      assert Merged(c, k);
      var mine := OfSignature(c.log, c.earlyBuys[k].signature);
      OfSignatureMembers(c.log, c.earlyBuys[k].signature);
      assert mine[0] in mine;
    }
    SignatureCount(c.earlyBuys);
    forall g ensures FindBuy(c.earlyBuys, g).Some? <==> g in c.buySignatures {
      var hit := FindBuy(c.earlyBuys, g);
      if hit.Some? {
        assert c.earlyBuys[hit.value] in c.earlyBuys;
      }
    }
  }

  lemma {:induction false} OfSignatureMembers(log: seq<Buy>, signature: string)
    ensures forall b :: b in OfSignature(log, signature) ==> b in log && b.signature == signature
  {
    if log != [] {
      OfSignatureMembers(log[..|log| - 1], signature);
    }
  }

  lemma {:induction false} SignatureCount(buys: seq<Buy>)
    requires forall a, b :: 0 <= a < b < |buys| ==> buys[a].signature != buys[b].signature
    ensures |Signatures(buys)| == |buys|
  {
    if buys != [] {
      var n := |buys| - 1;
      SignatureCount(buys[..n]);
      assert buys == buys[..n] + [buys[n]];
      assert Signatures(buys) == Signatures(buys[..n]) + {buys[n].signature};
    }
  }

  lemma KeepsIsTakes(c: Candidate, buy: Buy, cfg: Config)
    requires Faithful(c, cfg.maxBuys)
    ensures Keeps(c, buy, cfg) <==> c.status != Finalizing && Takes(c.log, buy, c.createdAt, cfg)
  {
    HeldSignatures(c, cfg.maxBuys);
  }

  /** What one event of a run does to a live candidate's log, in terms of the log alone. */
  lemma StepTakes(s: LoopState, e: Event, cfg: Config, m: Mint)
    requires Inv(s, cfg) && Enabled(s, e, cfg) && m in Step(s, e, cfg).candidates
    ensures m !in s.candidates ==> Step(s, e, cfg).candidates[m].log == []
    ensures m in s.candidates ==>
              var c := s.candidates[m];
              Step(s, e, cfg).candidates[m].log ==
                if e.BuyArrived? && e.buy.mint == m && c.status != Finalizing && Takes(c.log, e.buy, c.createdAt, cfg)
                then c.log + [e.buy] else c.log
  {
    StepLog(s, e, cfg, m);
    if m in s.candidates && e.BuyArrived? {
      KeepsIsTakes(s.candidates[m], e.buy, cfg);
    }
  }

  lemma RunTakes(states: seq<LoopState>, events: seq<Event>, cfg: Config, n: nat, m: Mint)
    requires Run(states, events, cfg) && n < |events| && m in states[n + 1].candidates
    ensures m !in states[n].candidates ==> states[n + 1].candidates[m].log == []
    ensures m in states[n].candidates ==>
              var c, e := states[n].candidates[m], events[n];
              states[n + 1].candidates[m].log ==
                if e.BuyArrived? && e.buy.mint == m && c.status != Finalizing && Takes(c.log, e.buy, c.createdAt, cfg)
                then c.log + [e.buy] else c.log
  {
    RunKeepsInv(states, events, cfg, n);
    StepTakes(states[n], events[n], cfg, m);
  }

  /** The log a candidate carries is exactly the deliveries the events of the run made to it. */
  lemma {:induction false} LogIsDeliveries(states: seq<LoopState>, events: seq<Event>, cfg: Config, n: nat, m: Mint)
    requires Run(states, events, cfg) && n <= |events| && m in states[n].candidates
    ensures states[n].candidates[m].log == Deliveries(states, events, cfg, n, m)
  {
    RunTakes(states, events, cfg, n - 1, m);
    if m in states[n - 1].candidates {
      LogIsDeliveries(states, events, cfg, n - 1, m);
    }
  }

  /**
   * In every state of a run, each candidate holds one entry for each signature delivered to it, no more than
   * the maximum; each entry has the largest lamports delivered under its signature, the instruction of the
   * first delivery whose feed name does not contain "deshred" in any letter case (of the first one, if all do),
   * and the identity of the first delivery.
   */
  lemma EarlyBuysFaithful(states: seq<LoopState>, events: seq<Event>, cfg: Config, n: nat, m: Mint, k: nat)
    requires Run(states, events, cfg) && n <= |events|
    requires m in states[n].candidates && k < |states[n].candidates[m].earlyBuys|
    ensures var c, delivered := states[n].candidates[m], Deliveries(states, events, cfg, n, m);
            && |c.earlyBuys| == |Signatures(delivered)| <= cfg.maxBuys && c.buySignatures == Signatures(delivered)
            && var b, mine := c.earlyBuys[k], OfSignature(delivered, c.earlyBuys[k].signature);
               && mine != [] && IsMaxLamports(mine, b.lamports)
               && (exists d: nat :: FirstProcessed(mine, d) && SameInstruction(b, mine[d]))
               && b.mint == mine[0].mint && b.buyer == mine[0].buyer && b.detectedAt == mine[0].detectedAt
  {
    RunKeepsInv(states, events, cfg, n);
    LogIsDeliveries(states, events, cfg, n, m);
    var c := states[n].candidates[m];
    HeldSignatures(c, cfg.maxBuys);
    assert Merged(c, k);
    AbsorbMeaning(OfSignature(c.log, c.earlyBuys[k].signature));
  }

  /** Every delivery is a buy event of the run, for this mint, handled after the mint was admitted. */
  lemma {:induction false} DeliveriesAreEvents(states: seq<LoopState>, events: seq<Event>, cfg: Config, n: nat, m: Mint,
      d: nat)
    returns (p: nat)
    requires n < |states| && n <= |events| && d < |Deliveries(states, events, cfg, n, m)|
    ensures p < n && events[p].BuyArrived? && events[p].buy == Deliveries(states, events, cfg, n, m)[d]
    ensures events[p].buy.mint == m
    ensures forall q :: p <= q <= n ==> m in states[q].candidates
  {
    var before := Deliveries(states, events, cfg, n - 1, m);
    if d < |before| {
      p := DeliveriesAreEvents(states, events, cfg, n - 1, m, d);
    } else {
      p := n - 1;
    }
  }

  // ---------------------------------------------------------------- what can happen to an active candidate

  /** The events that can change a mint's active candidate: a buy of it, a profile for it, or a tick. */
  predicate Touches(s: LoopState, e: Event, m: Mint) {
    || (e.BuyArrived? && e.buy.mint == m)
    || (e.ProfileResolved? && e.task < |s.tasks| && s.tasks[e.task].mint == m)
    || e.Tick?
  }

  lemma UntouchedStep(s: LoopState, e: Event, cfg: Config, m: Mint)
    requires Inv(s, cfg) && Enabled(s, e, cfg) && HasStatus(s, m, Active) && !Touches(s, e, m)
    ensures m in Step(s, e, cfg).candidates && Step(s, e, cfg).candidates[m] == s.candidates[m]
  {
    match e
    case Gate1Done(token, passed, local, env) => OnGate1Log(s, token, passed, local, cfg, env);
    case GateResolved(i, r, env) =>
      TakenQuiet(s, i, GateMessage);
      ResolveLog(Taken(s, i), s.tasks[i].mint, r, cfg, env);
    case ProfileResolved(i, profile, env) =>
      if s.tasks[i].mint in s.candidates {
        OnProfileLog(Taken(s, i), s.tasks[i].mint, s.tasks[i].address, profile, cfg, env);
      }
    case Scored(i, env, later, sent) => TakenQuiet(s, i, ScoreMessage);
    case BuyArrived(buy, env) =>
      if buy.mint in s.candidates {
        OnBuyLog(s, buy, cfg, env);
      }
    case Tick(_, _) =>
  }

  lemma UntouchedRunStep(states: seq<LoopState>, events: seq<Event>, cfg: Config, n: nat, m: Mint)
    requires Run(states, events, cfg) && n < |events|
    requires HasStatus(states[n], m, Active) && !Touches(states[n], events[n], m)
    ensures m in states[n + 1].candidates && states[n + 1].candidates[m] == states[n].candidates[m]
  {
    RunKeepsInv(states, events, cfg, n);
    UntouchedStep(states[n], events[n], cfg, m);
  }

  /**
   * An active candidate stays as it is until a buy of its mint, a profile for it, or a tick, however long that takes.
   */
  lemma {:induction false} ActiveUntilTouched(states: seq<LoopState>, events: seq<Event>, cfg: Config, i: nat, j: nat,
      m: Mint)
    requires Run(states, events, cfg) && i <= j <= |events| && HasStatus(states[i], m, Active)
    requires forall p :: i <= p < j ==> !Touches(states[p], events[p], m)
    ensures m in states[j].candidates && states[j].candidates[m] == states[i].candidates[m]
  {
    if i < j {
      ActiveUntilTouched(states, events, cfg, i, j - 1, m);
      UntouchedRunStep(states, events, cfg, j - 1, m);
    }
  }

  /** What gate 3 weighs when the event touches the candidate, if it weighs it at all. */
  function Weighed(s: LoopState, e: Event, m: Mint, cfg: Config): Option<Candidate>
    requires m in s.candidates && Touches(s, e, m)
  {
    var c := s.candidates[m];
    match e
    case BuyArrived(buy, env) =>
      if FirstDelivery(c, e, cfg) then Some(Accepted(c, buy, cfg, env.nowMs))
      else if Upgrades(c, e) then Some(Merge(c, FindBuy(c.earlyBuys, buy.signature).value, buy))
      else None
    case ProfileResolved(i, profile, env) =>
      if s.tasks[i].ProfileTask? then Some(Profiled(c, s.tasks[i].address, profile)) else None
    case _ => Some(c)
  }

  predicate FirstDelivery(c: Candidate, e: Event, cfg: Config) {
    && e.BuyArrived? && FindBuy(c.earlyBuys, e.buy.signature).None?
    && |c.earlyBuys| < cfg.maxBuys && SatSub(e.buy.detectedAt, c.createdAt) <= HardRejectMs(cfg)
  }

  /** A repeated delivery with more lamports, or from a better feed, than the entry of its signature. */
  predicate Upgrades(c: Candidate, e: Event) {
    && e.BuyArrived?
    && var hit := FindBuy(c.earlyBuys, e.buy.signature);
       hit.Some? && Upgrade(c.earlyBuys[hit.value], e.buy) != c.earlyBuys[hit.value]
  }

  /** The readings under which the event weighs this mint. */
  function EnvFor(e: Event, m: Mint): Env
    requires e.Tick? ==> m in e.envs
  {
    match e
    case Gate1Done(_, _, _, env) => env
    case GateResolved(_, _, env) => env
    case ProfileResolved(_, _, env) => env
    case Scored(_, env, _, _) => env
    case BuyArrived(_, env) => env
    case Tick(envs, _) => envs[m]
  }

  /**
   * A reason on which this event retires what it weighs: any reason at a tick, an immediate one for a first delivery.
   */
  predicate Rejects(c: Candidate, w: Candidate, e: Event, cfg: Config, env: Env) {
    var reason := RejectReason(w, Stats(w, cfg, env), cfg);
    reason.Some? && (e.Tick? || (FirstDelivery(c, e, cfg) && Immediate(reason.value)))
  }

  lemma TickDecides(s: LoopState, e: Event, cfg: Config, m: Mint)
    requires Enabled(s, e, cfg) && HasStatus(s, m, Active) && e.Tick?
    ensures var s' := Step(s, e, cfg);
            && (m !in s'.candidates <==> Rejects(s.candidates[m], s.candidates[m], e, cfg, e.envs[m]))
            && (m in s'.candidates ==> s'.candidates[m] == s.candidates[m])
  {
    RetireAllKeeps(s, e.order);
    RetireAllRetires(s, e.order, m);
    assert m in (set x | x in e.order) <==> m in Expired(s.candidates, cfg, e.envs);
  }

  lemma {:induction false} RetireAllRetires(s: LoopState, order: seq<Mint>, m: Mint)
    requires m in s.candidates
    ensures m in RetireAll(s, order).candidates <==> m !in order
  {
    if order != [] {
      RetireAllRetires(s, order[..|order| - 1], m);
    }
  }

  lemma ProfileDecides(s: LoopState, e: Event, cfg: Config, m: Mint)
    requires Enabled(s, e, cfg) && HasStatus(s, m, Active) && e.ProfileResolved? && s.tasks[e.task].mint == m
    ensures var s', w := Step(s, e, cfg), Profiled(s.candidates[m], s.tasks[e.task].address, e.profile);
            && m in s'.candidates
            && (HasStatus(s', m, Finalizing) <==> ShouldFinalize(w, cfg, e.env).Some?)
            && (s'.candidates[m].status != Finalizing ==> s'.candidates[m] == w)
  {
  }

  lemma BuyDecides(s: LoopState, e: Event, cfg: Config, m: Mint)
    requires Enabled(s, e, cfg) && HasStatus(s, m, Active) && e.BuyArrived? && e.buy.mint == m
    ensures var s', w := Step(s, e, cfg), Weighed(s, e, m, cfg);
            && (m !in s'.candidates <==> w.Some? && Rejects(s.candidates[m], w.value, e, cfg, e.env))
            && (HasStatus(s', m, Finalizing) <==> w.Some? && ShouldFinalize(w.value, cfg, e.env).Some?)
            && (HasStatus(s', m, Active) && w.Some? ==> s'.candidates[m] == w.value)
  {
    var c := s.candidates[m];
    var found := FindBuy(c.earlyBuys, e.buy.signature);
    if found.Some? {
      assert Merge(c, found.value, e.buy).earlyBuys[found.value] == Upgrade(c.earlyBuys[found.value], e.buy);
    }
  }

  /**
   * The next event that touches an active candidate decides it on what it then is and under the readings of
   * that event alone. It is retired exactly when a reason holds that the event carries out, and finalizes
   * exactly when gate 3 triggers and the event is a profile, a first delivery or an upgrade. Nothing that
   * held at an earlier event counts.
   */
  lemma NextTouchDecides(s: LoopState, e: Event, cfg: Config, m: Mint)
    requires Enabled(s, e, cfg) && HasStatus(s, m, Active) && Touches(s, e, m)
    ensures var s', w, env := Step(s, e, cfg), Weighed(s, e, m, cfg), EnvFor(e, m);
            && (m !in s'.candidates <==> w.Some? && Rejects(s.candidates[m], w.value, e, cfg, env))
            && (HasStatus(s', m, Finalizing) <==> w.Some? && !e.Tick? && ShouldFinalize(w.value, cfg, env).Some?)
            && (HasStatus(s', m, Active) && w.Some? ==> s'.candidates[m] == w.value)
  {
    match e
    case BuyArrived(_, _) => BuyDecides(s, e, cfg, m);
    case ProfileResolved(_, _, _) => ProfileDecides(s, e, cfg, m);
    case Tick(_, _) => TickDecides(s, e, cfg, m);
    case _ =>
  }

  /**
   * An upgrade that gives gate 3 an immediate reason to reject retires nothing, and the reason is forgotten:
   * the candidate stays active with the upgraded buy until the next event that touches it, and that event
   * retires it if and only if a reason holds again there, under that event's own readings.
   */
  lemma UpgradeRejectIsForgotten(states: seq<LoopState>, events: seq<Event>, cfg: Config, i: nat, j: nat, m: Mint)
    requires Run(states, events, cfg) && i < j < |events|
    requires HasStatus(states[i], m, Active) && events[i].BuyArrived? && events[i].buy.mint == m
    requires Upgrades(states[i].candidates[m], events[i])
    requires RejectNow(Weighed(states[i], events[i], m, cfg).value, cfg, events[i].env).Some?
    requires Touches(states[j], events[j], m) && forall p :: i < p < j ==> !Touches(states[p], events[p], m)
    ensures HasStatus(states[j], m, Active)
    ensures states[j].candidates[m] == Weighed(states[i], events[i], m, cfg).value
    ensures var w, env := Weighed(states[j], events[j], m, cfg), EnvFor(events[j], m);
            && (m !in states[j + 1].candidates <==>
                  w.Some? && Rejects(states[j].candidates[m], w.value, events[j], cfg, env))
            && (HasStatus(states[j + 1], m, Finalizing) <==>
                  w.Some? && !events[j].Tick? && ShouldFinalize(w.value, cfg, env).Some?)
  {
    BuyDecides(states[i], events[i], cfg, m);
    assert states[i + 1] == Step(states[i], events[i], cfg);
    assert HasStatus(states[i + 1], m, Active);
    ActiveUntilTouched(states, events, cfg, i + 1, j, m);
    NextTouchDecides(states[j], events[j], cfg, m);
    assert states[j + 1] == Step(states[j], events[j], cfg);
  }

  // ---------------------------------------------------------------- ticks

  /**
   * A tick leaves no active candidate behind that is past its hard deadline: whatever survives it is inside
   * its window, or waits for its creator gate or its score with exactly that message outstanding.
   */
  lemma TickSurvivors(states: seq<LoopState>, events: seq<Event>, cfg: Config, n: nat, m: Mint)
    requires Run(states, events, cfg) && n < |events| && events[n].Tick? && m in states[n + 1].candidates
    ensures var s', c := states[n + 1], states[n + 1].candidates[m];
            && m in events[n].envs
            && (|| SatSub(events[n].envs[m].now, c.createdAt) <= HardRejectMs(cfg)
                || (c.status == CreatorPending && Outstanding(s'.tasks, GateMessage, m) == 1)
                || (c.status == Finalizing && Outstanding(s'.tasks, ScoreMessage, m) == 1))
  {
    var s, e, s' := states[n], events[n], states[n + 1];
    assert s' == Step(s, e, cfg);
    RetireAllKeeps(s, e.order);
    RetireAllHalts(s, e.order);
    assert m in s.candidates && s'.candidates[m] == s.candidates[m];
    OneMessagePerStatus(states, events, cfg, n + 1, m);
    if s.candidates[m].status == Active {
      TickDecides(s, e, cfg, m);
      LateIsRejected(s.candidates[m], cfg, e.envs[m]);
    }
  }

  lemma {:induction false} RetireAllHalts(s: LoopState, order: seq<Mint>)
    ensures RetireAll(s, order).halted == s.halted
  {
    if order != [] {
      RetireAllHalts(s, order[..|order| - 1]);
    }
  }

  lemma LateIsRejected(c: Candidate, cfg: Config, env: Env)
    ensures SatSub(env.now, c.createdAt) > HardRejectMs(cfg) ==> RejectReason(c, Stats(c, cfg, env), cfg).Some?
  {
  }
}
