/**
 * Profile fetches and the admissions they are started for. A profile message names its mint and its buyer
 * but no admission, so one that was sent for an earlier admission reaches a later one of the mint and takes
 * back the mark that guards against fetching a buyer twice.
 */
module ProfileFetches {
  import opened Wrappers
  import opened FilterTypes
  import opened BuyFeed
  import opened SmartMoney
  import opened Gate3
  import opened EventLoop
  import opened LoopInvariants
  import opened LoopSnapshots
  import opened LoopHistory

  // ---------------------------------------------------------------- events that matter to a fetch

  /** How many fetches equal to this one are outstanding. */
  function Copies(s: LoopState, t: Task): nat {
    multiset(s.tasks)[t]
  }

  /** The fetches of this buyer outstanding for the mint's present admission. */
  function Fetches(s: LoopState, m: Mint, a: Address): nat
    requires m in s.candidates
  {
    Copies(s, ProfileTask(m, a, s.candidates[m].admission))
  }

  /** The event is the message of such a fetch. */
  predicate Handles(s: LoopState, e: Event, t: Task) {
    e.ProfileResolved? && e.task < |s.tasks| && s.tasks[e.task] == t
  }

  /** The event is a profile message for this mint and buyer. */
  predicate Answers(s: LoopState, e: Event, m: Mint, a: Address) {
    && e.ProfileResolved? && e.task < |s.tasks|
    && s.tasks[e.task].ProfileTask? && s.tasks[e.task].mint == m && s.tasks[e.task].address == a
  }

  /** The message was sent for the admission that it reaches. */
  predicate Own(s: LoopState, e: Event, m: Mint, a: Address) {
    Answers(s, e, m, a) && m in s.candidates && s.tasks[e.task].admission == s.candidates[m].admission
  }

  /** The message was sent for an earlier admission than the one it reaches. */
  predicate Stale(s: LoopState, e: Event, m: Mint, a: Address) {
    Answers(s, e, m, a) && m in s.candidates && s.tasks[e.task].admission < s.candidates[m].admission
  }

  /** The message brings a profile. */
  predicate Brings(s: LoopState, e: Event, m: Mint, a: Address) {
    Answers(s, e, m, a) && e.profile.Some?
  }

  /** The event is a buy of this buyer that the mint's candidate accepts as a first delivery. */
  predicate Accepts(s: LoopState, e: Event, cfg: Config, m: Mint, a: Address) {
    && e.BuyArrived? && e.buy.mint == m && e.buy.buyer == a && m in s.candidates
    && var c := s.candidates[m];
       && c.status != Finalizing && FindBuy(c.earlyBuys, e.buy.signature).None?
       && |c.earlyBuys| < cfg.maxBuys && SatSub(e.buy.detectedAt, c.createdAt) <= HardRejectMs(cfg)
  }

  /** The event starts this fetch. */
  predicate Starts(s: LoopState, e: Event, cfg: Config, t: Task) {
    && t.ProfileTask? && Accepts(s, e, cfg, t.mint, t.address)
    && t.admission == s.candidates[t.mint].admission && WantsProfile(s.candidates[t.mint], t.address, cfg)
  }

  // ---------------------------------------------------------------- what a step does to fetches and marks

  /** Only mint `m` is touched; if it is still live it knows of its buyers what `c` does; fetch `t` is as it was. */
  ghost predicate Leaves(s: LoopState, s': LoopState, m: Mint, c: Candidate, t: Task) {
    && OthersKept(s, s', m)
    && (m in s'.candidates ==>
          && s'.candidates[m].admission == c.admission
          && s'.candidates[m].pendingBuyerProfiles == c.pendingBuyerProfiles
          && s'.candidates[m].buyerProfiles == c.buyerProfiles)
    && Copies(s', t) == Copies(s, t)
  }

  lemma FinalizeLeaves(s: LoopState, m: Mint, c: Candidate, path: Gate3Path, nowMs: nat, t: Task)
    requires t.ProfileTask?
    ensures Leaves(s, Finalize(s, m, c, path, nowMs), m, c, t)
  {
    var f := Finalize(s, m, c, path, nowMs);
    assert f.tasks == s.tasks + [ScoreTask(c.mint, f.candidates[m])];
  }

  lemma PutAndTryLeaves(s: LoopState, m: Mint, c: Candidate, cfg: Config, env: Env, t: Task)
    requires t.ProfileTask?
    ensures Leaves(s, Put(s, m, c), m, c, t) && Leaves(s, PutAndTry(s, m, c, cfg, env), m, c, t)
  {
    match ShouldFinalize(c, cfg, env)
    case None => assert PutAndTry(s, m, c, cfg, env) == Put(s, m, c);
    case Some(path) => FinalizeLeaves(s, m, c, path, env.nowMs, t);
  }

  lemma EvaluateLeaves(s: LoopState, m: Mint, c: Candidate, cfg: Config, env: Env, t: Task)
    requires t.ProfileTask?
    ensures Leaves(s, Judge(s, m, c, cfg, env), m, c, t) && Leaves(s, Evaluate(s, m, c, cfg, env), m, c, t)
  {
    PutAndTryLeaves(s, m, c, cfg, env, t);
  }

  lemma ResolveLeaves(s: LoopState, m: Mint, r: GateResult, cfg: Config, env: Env, t: Task)
    requires m in s.candidates && t.ProfileTask?
    ensures Leaves(s, Resolve(s, m, r, cfg, env), m, s.candidates[m], t)
  {
    var c := s.candidates[m];
    var trace := c.trace.(gate2AtMs := Some(r.readyAtMs));
    if r.passed {
      PutAndTryLeaves(s, m, c.(status := Active, creatorProfile := r.profile, gate2Penalty := r.penalty,
                               trace := trace.(gate3OpenAtMs := FirstOf(trace.gate3OpenAtMs, r.readyAtMs))),
          cfg, env, t);
    }
  }

  lemma OnGate1Leaves(s: LoopState, token: Token, passed: bool, local: LocalGate, cfg: Config, env: Env, t: Task)
    requires t.ProfileTask?
    ensures var s' := OnGate1(s, token, passed, local, cfg, env);
            && (token.mint in s.candidates ==> s' == s)
            && (token.mint !in s.candidates ==>
                  Leaves(s, s', token.mint, NewCandidate(token, s.admissions, env.now), t))
  {
    if token.mint !in s.candidates && passed {
      var admitted := Admitted(s, token, env.now);
      assert Leaves(s, admitted, token.mint, NewCandidate(token, s.admissions, env.now), t);
      if local.LocalHit? {
        ResolveLeaves(admitted, token.mint, local.result, cfg, env, t);
        assert OnGate1(s, token, passed, local, cfg, env) == Resolve(admitted, token.mint, local.result, cfg, env);
      }
    }
  }

  lemma OnProfileLeaves(s: LoopState, m: Mint, a: Address, profile: Option<BuyerProfile>, cfg: Config, env: Env,
      t: Task)
    requires m in s.candidates && t.ProfileTask?
    ensures Leaves(s, OnProfile(s, m, a, profile, cfg, env), m, Profiled(s.candidates[m], a, profile), t)
  {
    PutAndTryLeaves(s, m, Profiled(s.candidates[m], a, profile), cfg, env, t);
  }

  /** An accepted buy marks its buyer and starts the fetch, or does neither. */
  lemma OnBuyAccepts(s: LoopState, buy: Buy, cfg: Config, env: Env, t: Task)
    requires Keyed(s) && t.ProfileTask? && Accepts(s, BuyArrived(buy, env), cfg, buy.mint, buy.buyer)
    ensures var c := s.candidates[buy.mint];
            var spawned := s.(tasks := s.tasks + Spawned(c, buy.buyer, cfg));
            && Leaves(spawned, OnBuy(s, buy, cfg, env), buy.mint, Accepted(c, buy, cfg, env.nowMs), t)
            && Copies(spawned, t) == Copies(s, t) + if Starts(s, BuyArrived(buy, env), cfg, t) then 1 else 0
  {
    var c := s.candidates[buy.mint];
    var spawned := s.(tasks := s.tasks + Spawned(c, buy.buyer, cfg));
    EvaluateLeaves(spawned, buy.mint, Accepted(c, buy, cfg, env.nowMs), cfg, env, t);
    if !WantsProfile(c, buy.buyer, cfg) {
      assert spawned.tasks == s.tasks;
    }
  }

  /** Any other buy changes neither fetches nor marks. */
  lemma OnBuyLeaves(s: LoopState, buy: Buy, cfg: Config, env: Env, t: Task)
    requires buy.mint in s.candidates && t.ProfileTask?
    requires !Accepts(s, BuyArrived(buy, env), cfg, buy.mint, buy.buyer)
    ensures Leaves(s, OnBuy(s, buy, cfg, env), buy.mint, s.candidates[buy.mint], t)
  {
    var c := s.candidates[buy.mint];
    match FindBuy(c.earlyBuys, buy.signature)
    case Some(k) =>
      var c' := Merge(c, k, buy);
      PutAndTryLeaves(s, buy.mint, c', cfg, env, t);
      EvaluateLeaves(s, buy.mint, c', cfg, env, t);
      assert OnBuy(s, buy, cfg, env) in {s, Put(s, buy.mint, c'), Judge(s, buy.mint, c', cfg, env)};
    case None => assert OnBuy(s, buy, cfg, env) == s;
  }

  lemma TakenCopies(s: LoopState, i: nat, t: Task)
    requires i < |s.tasks|
    ensures Copies(Taken(s, i), t) == Copies(s, t) - if s.tasks[i] == t then 1 else 0
    ensures s.tasks[i] == t ==> Copies(s, t) >= 1
  {
    assert s.tasks == s.tasks[..i] + [s.tasks[i]] + s.tasks[i + 1..];
  }

  lemma {:induction false} RetireAllTasks(s: LoopState, order: seq<Mint>)
    ensures RetireAll(s, order).tasks == s.tasks
  {
    if order != [] {
      RetireAllTasks(s, order[..|order| - 1]);
    }
  }

  /** A fetch comes to be outstanding when it is started and ceases to be when its message is handled. */
  lemma StepCopies(s: LoopState, e: Event, cfg: Config, t: Task)
    requires Keyed(s) && Enabled(s, e, cfg) && t.ProfileTask?
    ensures Copies(Step(s, e, cfg), t)
            == Copies(s, t) - (if Handles(s, e, t) then 1 else 0) + if Starts(s, e, cfg, t) then 1 else 0
  {
    match e
    case Gate1Done(token, passed, local, env) => OnGate1Leaves(s, token, passed, local, cfg, env, t);
    case GateResolved(i, r, env) =>
      TakenCopies(s, i, t);
      if s.tasks[i].mint in s.candidates {
        ResolveLeaves(Taken(s, i), s.tasks[i].mint, r, cfg, env, t);
      }
    case ProfileResolved(i, profile, env) =>
      TakenCopies(s, i, t);
      if s.tasks[i].mint in s.candidates {
        OnProfileLeaves(Taken(s, i), s.tasks[i].mint, s.tasks[i].address, profile, cfg, env, t);
      }
    case Scored(i, env, later, sent) => TakenCopies(s, i, t);
    case BuyArrived(buy, env) =>
      if Accepts(s, e, cfg, buy.mint, buy.buyer) {
        OnBuyAccepts(s, buy, cfg, env, t);
      } else if buy.mint in s.candidates {
        OnBuyLeaves(s, buy, cfg, env, t);
      }
    case Tick(_, order) => RetireAllTasks(s, order);
  }

  /** What a candidate that survives an event then knows of a buyer. */
  ghost predicate KnowsAfter(s: LoopState, e: Event, cfg: Config, m: Mint, a: Address, c': Candidate)
    requires m in s.candidates
  {
    var c := s.candidates[m];
    && c'.admission == c.admission
    && (a in c'.pendingBuyerProfiles <==>
          Starts(s, e, cfg, ProfileTask(m, a, c.admission)) || (a in c.pendingBuyerProfiles && !Answers(s, e, m, a)))
    && (a in c'.buyerProfiles <==> a in c.buyerProfiles || Brings(s, e, m, a))
  }

  lemma BuyMarks(s: LoopState, buy: Buy, env: Env, cfg: Config, m: Mint, a: Address)
    requires Keyed(s) && m in s.candidates && m in OnBuy(s, buy, cfg, env).candidates
    ensures KnowsAfter(s, BuyArrived(buy, env), cfg, m, a, OnBuy(s, buy, cfg, env).candidates[m])
  {
    var t := ProfileTask(m, a, s.candidates[m].admission);
    if Accepts(s, BuyArrived(buy, env), cfg, buy.mint, buy.buyer) {
      OnBuyAccepts(s, buy, cfg, env, t);
    } else if buy.mint in s.candidates {
      OnBuyLeaves(s, buy, cfg, env, t);
    }
  }

  lemma MessageMarks(s: LoopState, i: nat, profile: Option<BuyerProfile>, env: Env, cfg: Config, m: Mint, a: Address)
    requires i < |s.tasks| && s.tasks[i].ProfileTask? && m in s.candidates
    requires m in OnProfile(Taken(s, i), s.tasks[i].mint, s.tasks[i].address, profile, cfg, env).candidates
    ensures var s' := OnProfile(Taken(s, i), s.tasks[i].mint, s.tasks[i].address, profile, cfg, env);
            KnowsAfter(s, ProfileResolved(i, profile, env), cfg, m, a, s'.candidates[m])
  {
    if s.tasks[i].mint in s.candidates {
      OnProfileLeaves(Taken(s, i), s.tasks[i].mint, s.tasks[i].address, profile, cfg, env,
          ProfileTask(m, a, s.candidates[m].admission));
    }
  }

  /** A buyer is marked by the start of a fetch and struck off by any message for it, whichever admission that is of. */
  lemma StepMarks(s: LoopState, e: Event, cfg: Config, m: Mint, a: Address)
    requires Keyed(s) && Enabled(s, e, cfg) && m in s.candidates && m in Step(s, e, cfg).candidates
    ensures KnowsAfter(s, e, cfg, m, a, Step(s, e, cfg).candidates[m])
  {
    var t := ProfileTask(m, a, s.candidates[m].admission);
    match e
    case Gate1Done(token, passed, local, env) => OnGate1Leaves(s, token, passed, local, cfg, env, t);
    case GateResolved(i, r, env) =>
      if s.tasks[i].mint in s.candidates {
        ResolveLeaves(Taken(s, i), s.tasks[i].mint, r, cfg, env, t);
      }
    case ProfileResolved(i, profile, env) => MessageMarks(s, i, profile, env, cfg, m, a);
    case Scored(i, env, later, sent) =>
    case BuyArrived(buy, env) => BuyMarks(s, buy, env, cfg, m, a);
    case Tick(_, order) => RetireAllKeeps(s, order);
  }

  /** A new admission knows no buyer and takes the next number. */
  lemma StepAdmits(s: LoopState, e: Event, cfg: Config, m: Mint)
    requires Enabled(s, e, cfg) && m !in s.candidates && m in Step(s, e, cfg).candidates
    ensures var c := Step(s, e, cfg).candidates[m];
            c.admission == s.admissions && c.pendingBuyerProfiles == {} && c.buyerProfiles == map[]
  {
    var t := ProfileTask(m, "", 0);
    match e
    case Gate1Done(token, passed, local, env) => OnGate1Leaves(s, token, passed, local, cfg, env, t);
    case GateResolved(i, r, env) =>
      if s.tasks[i].mint in s.candidates {
        ResolveLeaves(Taken(s, i), s.tasks[i].mint, r, cfg, env, t);
      }
    case ProfileResolved(i, profile, env) =>
      if s.tasks[i].mint in s.candidates {
        OnProfileLeaves(Taken(s, i), s.tasks[i].mint, s.tasks[i].address, profile, cfg, env, t);
      }
    case Scored(i, env, later, sent) =>
    case BuyArrived(buy, env) =>
      if buy.mint in s.candidates {
        OnBuyLog(s, buy, cfg, env);
      }
    case Tick(_, order) => RetireAllKeeps(s, order);
  }

  // ---------------------------------------------------------------- whose message it is

  /** The mint is live at every moment from `p` to `n`. */
  ghost predicate Lives(states: seq<LoopState>, m: Mint, p: nat, n: nat)
    requires n < |states|
  {
    forall q :: p <= q <= n ==> m in states[q].candidates
  }

  /** Outstanding fetches are of admissions that have been, and none is of a later one than the mint's present. */
  ghost predicate Aged(s: LoopState) {
    forall t :: t in s.tasks && t.ProfileTask? ==>
      && t.admission < s.admissions
      && (t.mint in s.candidates ==> t.admission <= s.candidates[t.mint].admission)
  }

  lemma StepAged(s: LoopState, e: Event, cfg: Config)
    requires Inv(s, cfg) && Enabled(s, e, cfg) && Aged(s)
    ensures Aged(Step(s, e, cfg))
  {
    StepForward(s, e, cfg);
    var s' := Step(s, e, cfg);
    forall t | t in s'.tasks && t.ProfileTask?
      ensures t.admission < s'.admissions
      ensures t.mint in s'.candidates ==> t.admission <= s'.candidates[t.mint].admission
    {
      StepCopies(s, e, cfg, t);
      assert t in multiset(s'.tasks);
      if !Starts(s, e, cfg, t) {
        assert t in multiset(s.tasks);
      }
    }
  }

  lemma {:induction false} RunAged(states: seq<LoopState>, events: seq<Event>, cfg: Config, n: nat)
    requires Run(states, events, cfg) && n <= |events|
    ensures Aged(states[n])
  {
    if n > 0 {
      RunAged(states, events, cfg, n - 1);
      RunKeepsInv(states, events, cfg, n - 1);
      StepAged(states[n - 1], events[n - 1], cfg);
    }
  }

  /** Every outstanding fetch was started by an accepted buy of its buyer, for the admission it names. */
  lemma {:induction false} FetchOrigin(states: seq<LoopState>, events: seq<Event>, cfg: Config, n: nat, t: Task)
    returns (p: nat)
    requires Run(states, events, cfg) && n <= |events| && t.ProfileTask? && t in states[n].tasks
    ensures p < n && Starts(states[p], events[p], cfg, t)
  {
    RunKeepsInv(states, events, cfg, n - 1);
    StepCopies(states[n - 1], events[n - 1], cfg, t);
    assert t in multiset(states[n].tasks);
    if Starts(states[n - 1], events[n - 1], cfg, t) {
      p := n - 1;
    } else {
      assert t in multiset(states[n - 1].tasks);
      p := FetchOrigin(states, events, cfg, n - 1, t);
    }
  }

  lemma {:induction false} OneAdmission(states: seq<LoopState>, p: nat, n: nat, m: Mint)
    requires Chain(states) && p <= n < |states| && Lives(states, m, p, n)
    ensures states[n].candidates[m].admission == states[p].candidates[m].admission
  {
    if p < n {
      OneAdmission(states, p, n - 1, m);
      assert Forward(states[n - 1], states[n - 1 + 1]) && m in states[n - 1].candidates && m in states[n].candidates;
    }
  }

  lemma {:induction false} LaterAdmission(states: seq<LoopState>, q: nat, n: nat, m: Mint)
    requires Chain(states) && q <= n < |states| && m !in states[q].candidates && m in states[n].candidates
    ensures states[n].candidates[m].admission >= states[q].admissions
  {
    assert Forward(states[n - 1], states[n - 1 + 1]);
    if m in states[n - 1].candidates {
      LaterAdmission(states, q, n - 1, m);
    } else {
      ChainForward(states, q, n - 1, m);
    }
  }

  /**
   * A profile message that finds its mint live reaches the admission it was sent for if and only if the mint
   * has been live ever since the fetch was started.
   */
  lemma ReachesItsOwnIff(states: seq<LoopState>, events: seq<Event>, cfg: Config, p: nat, n: nat, t: Task)
    requires Run(states, events, cfg) && p < n < |events|
    requires Starts(states[p], events[p], cfg, t) && Handles(states[n], events[n], t)
    requires t.mint in states[n].candidates
    ensures t.admission == states[n].candidates[t.mint].admission <==> Lives(states, t.mint, p, n)
    ensures Stale(states[n], events[n], t.mint, t.address) <==> !Lives(states, t.mint, p, n)
  {
    RunAged(states, events, cfg, n);
    RunIsChain(states, events, cfg);
    if Lives(states, t.mint, p, n) {
      OneAdmission(states, p, n, t.mint);
    } else {
      var q :| p <= q <= n && t.mint !in states[q].candidates;
      ChainForward(states, p, q, t.mint);
      LaterAdmission(states, q, n, t.mint);
    }
  }

  // ---------------------------------------------------------------- single flight

  /** At `i` a stale message takes back the mark of a buyer, whose own message is not handled until `n`. */
  ghost predicate Unmarked(states: seq<LoopState>, events: seq<Event>, m: Mint, a: Address, i: nat, n: nat)
    requires n < |states| && n <= |events|
  {
    && i < n && Lives(states, m, i, n)
    && Stale(states[i], events[i], m, a) && a in states[i].candidates[m].pendingBuyerProfiles
    && forall q :: i < q < n ==> !Own(states[q], events[q], m, a)
  }

  /** And nothing that is heard of the buyer meanwhile brings a profile. */
  ghost predicate Unheard(states: seq<LoopState>, events: seq<Event>, m: Mint, a: Address, i: nat, n: nat)
    requires n < |states| && n <= |events|
  {
    Unmarked(states, events, m, a, i, n) && forall q :: i <= q < n ==> !Brings(states[q], events[q], m, a)
  }

  /** Then a further buy of the buyer is accepted at `j`. */
  ghost predicate Refetched(states: seq<LoopState>, events: seq<Event>, cfg: Config, m: Mint, a: Address, i: nat,
      j: nat)
    requires j < |events| && j < |states|
  {
    Unheard(states, events, m, a, i, j) && Accepts(states[j], events[j], cfg, m, a)
  }

  /** That happened before `n`, in the present admission. */
  ghost predicate RefetchedBy(states: seq<LoopState>, events: seq<Event>, cfg: Config, m: Mint, a: Address, n: nat)
    requires n < |states| && n <= |events|
  {
    exists i, j :: 0 <= i < j < n && Lives(states, m, i, n) && Refetched(states, events, cfg, m, a, i, j)
  }

  /** At some moment of the present admission up to `n`, two fetches of the buyer are outstanding for it. */
  ghost predicate TwoFetches(states: seq<LoopState>, m: Mint, a: Address, n: nat)
    requires n < |states|
  {
    exists k :: 0 <= k <= n && Lives(states, m, k, n) && Fetches(states[k], m, a) >= 2
  }

  /** One fetch is outstanding exactly while the buyer is marked. */
  ghost predicate InStep(s: LoopState, m: Mint, a: Address)
    requires m in s.candidates
  {
    Fetches(s, m, a) == if a in s.candidates[m].pendingBuyerProfiles then 1 else 0
  }

  /** A fetch is outstanding although the buyer is not marked. */
  ghost predicate Loose(states: seq<LoopState>, events: seq<Event>, m: Mint, a: Address, i: nat, n: nat)
    requires n < |states| && n <= |events|
  {
    && Unmarked(states, events, m, a, i, n)
    && Fetches(states[n], m, a) == 1 && a !in states[n].candidates[m].pendingBuyerProfiles
    && (a in states[n].candidates[m].buyerProfiles || Unheard(states, events, m, a, i, n))
  }

  ghost predicate Standing(states: seq<LoopState>, events: seq<Event>, cfg: Config, m: Mint, a: Address, n: nat)
    requires n < |states| && n <= |events| && m in states[n].candidates
  {
    || InStep(states[n], m, a)
    || (exists i :: 0 <= i < n && Loose(states, events, m, a, i, n))
    || RefetchedBy(states, events, cfg, m, a, n)
  }

  /** One step of a run, for a mint that is live before and after it. */
  lemma RunFetches(states: seq<LoopState>, events: seq<Event>, cfg: Config, n: nat, m: Mint, a: Address)
    requires Run(states, events, cfg) && n < |events|
    requires m in states[n].candidates && m in states[n + 1].candidates
    ensures KnowsAfter(states[n], events[n], cfg, m, a, states[n + 1].candidates[m])
    ensures Answers(states[n], events[n], m, a) <==>
              Own(states[n], events[n], m, a) || Stale(states[n], events[n], m, a)
    ensures Own(states[n], events[n], m, a) ==> Fetches(states[n], m, a) >= 1
    ensures Fetches(states[n + 1], m, a) == Fetches(states[n], m, a)
              - (if Own(states[n], events[n], m, a) then 1 else 0)
              + if Starts(states[n], events[n], cfg, ProfileTask(m, a, states[n].candidates[m].admission)) then 1 else 0
  {
    var s, e := states[n], events[n];
    var t := ProfileTask(m, a, s.candidates[m].admission);
    RunKeepsInv(states, events, cfg, n);
    RunAged(states, events, cfg, n);
    StepCopies(s, e, cfg, t);
    StepMarks(s, e, cfg, m, a);
    if Answers(s, e, m, a) {
      assert s.tasks[e.task] in s.tasks;
      TakenCopies(s, e.task, t);
    }
  }

  /** No fetch is outstanding for an admission that is only beginning. */
  lemma FreshInStep(states: seq<LoopState>, events: seq<Event>, cfg: Config, n: nat, m: Mint, a: Address)
    requires Run(states, events, cfg) && n < |events|
    requires m !in states[n].candidates && m in states[n + 1].candidates
    ensures InStep(states[n + 1], m, a)
  {
    RunKeepsInv(states, events, cfg, n);
    RunAged(states, events, cfg, n);
    StepAdmits(states[n], events[n], cfg, m);
    var t := ProfileTask(m, a, states[n].admissions);
    assert t !in states[n].tasks;
    StepCopies(states[n], events[n], cfg, t);
  }

  lemma InStepGoesOn(states: seq<LoopState>, events: seq<Event>, cfg: Config, n: nat, m: Mint, a: Address)
    requires Run(states, events, cfg) && n < |events|
    requires m in states[n].candidates && m in states[n + 1].candidates && InStep(states[n], m, a)
    ensures InStep(states[n + 1], m, a) || Loose(states, events, m, a, n, n + 1)
  {
    RunFetches(states, events, cfg, n, m, a);
  }

  lemma LooseGoesOn(states: seq<LoopState>, events: seq<Event>, cfg: Config, n: nat, m: Mint, a: Address, i: nat)
    requires Run(states, events, cfg) && n < |events| && m in states[n].candidates && m in states[n + 1].candidates
    requires i < n && Loose(states, events, m, a, i, n)
    ensures || InStep(states[n + 1], m, a)
            || Loose(states, events, m, a, i, n + 1)
            || (Lives(states, m, i, n + 1) && Refetched(states, events, cfg, m, a, i, n))
  {
    RunFetches(states, events, cfg, n, m, a);
  }

  lemma StandingGoesOn(states: seq<LoopState>, events: seq<Event>, cfg: Config, n: nat, m: Mint, a: Address)
    requires Run(states, events, cfg) && n < |events| && m in states[n].candidates && m in states[n + 1].candidates
    requires Standing(states, events, cfg, m, a, n)
    ensures Standing(states, events, cfg, m, a, n + 1)
  {
    if InStep(states[n], m, a) {
      InStepGoesOn(states, events, cfg, n, m, a);
    } else if i :| 0 <= i < n && Loose(states, events, m, a, i, n) {
      LooseGoesOn(states, events, cfg, n, m, a, i);
    } else {
      var i, j :| 0 <= i < j < n && Lives(states, m, i, n) && Refetched(states, events, cfg, m, a, i, j);
      assert Lives(states, m, i, n + 1);
    }
  }

  lemma {:induction false} RunStanding(states: seq<LoopState>, events: seq<Event>, cfg: Config, n: nat, m: Mint,
      a: Address)
    requires Run(states, events, cfg) && n <= |events| && m in states[n].candidates
    ensures Standing(states, events, cfg, m, a, n)
  {
    if m in states[n - 1].candidates {
      RunStanding(states, events, cfg, n - 1, m, a);
      StandingGoesOn(states, events, cfg, n - 1, m, a);
    } else {
      FreshInStep(states, events, cfg, n - 1, m, a);
    }
  }

  /**
   * As long as no message of an earlier admission has reached this one, a buyer has at most one fetch
   * outstanding for it, and has one exactly while it is marked.
   */
  lemma SingleFlight(states: seq<LoopState>, events: seq<Event>, cfg: Config, n: nat, m: Mint, a: Address)
    requires Run(states, events, cfg) && n <= |events| && m in states[n].candidates
    requires forall i :: 0 <= i < n && Lives(states, m, i, n) ==> !Stale(states[i], events[i], m, a)
    ensures Fetches(states[n], m, a) == if a in states[n].candidates[m].pendingBuyerProfiles then 1 else 0
    ensures !TwoFetches(states, m, a, n)
  {
    forall k | 0 <= k <= n && Lives(states, m, k, n) ensures InStep(states[k], m, a) {
      RunStanding(states, events, cfg, k, m, a);
      forall i | 0 <= i < k && Lives(states, m, i, k) ensures !Stale(states[i], events[i], m, a) {
        assert Lives(states, m, i, n);
      }
    }
    assert Lives(states, m, n, n);
  }

  lemma MarkedIsFetched(states: seq<LoopState>, events: seq<Event>, cfg: Config, n: nat, m: Mint, a: Address)
    requires Run(states, events, cfg) && n <= |events|
    requires m in states[n].candidates && a in states[n].candidates[m].pendingBuyerProfiles
    ensures cfg.hasApiKey && Fetches(states[n], m, a) >= 1 && a !in states[n].candidates[m].buyerProfiles
  {
    var t := ProfileTask(m, a, states[n].candidates[m].admission);
    AwaitedProfilesAreFetched(states, events, cfg, n, m, a);
    var p := FetchOrigin(states, events, cfg, n, t);
    assert t in multiset(states[n].tasks);
  }

  /** No profile is known, and a fetch is outstanding, a second one if the buyer is marked. */
  ghost predicate Exposed(s: LoopState, m: Mint, a: Address)
    requires m in s.candidates
  {
    && a !in s.candidates[m].buyerProfiles
    && Fetches(s, m, a) >= if a in s.candidates[m].pendingBuyerProfiles then 2 else 1
  }

  lemma ExposedGoesOn(states: seq<LoopState>, events: seq<Event>, cfg: Config, n: nat, m: Mint, a: Address)
    requires Run(states, events, cfg) && n < |events| && m in states[n].candidates && m in states[n + 1].candidates
    requires Exposed(states[n], m, a)
    requires !Own(states[n], events[n], m, a) && !Brings(states[n], events[n], m, a)
    ensures Exposed(states[n + 1], m, a)
  {
    RunFetches(states, events, cfg, n, m, a);
  }

  lemma UnmarkedIsExposed(states: seq<LoopState>, events: seq<Event>, cfg: Config, m: Mint, a: Address, i: nat)
    requires Run(states, events, cfg) && i < |events| && Unheard(states, events, m, a, i, i + 1)
    ensures cfg.hasApiKey && Exposed(states[i + 1], m, a)
  {
    MarkedIsFetched(states, events, cfg, i, m, a);
    RunFetches(states, events, cfg, i, m, a);
  }

  /** From the lost mark on, the outstanding fetch stays, and a second mark means a second fetch. */
  lemma {:induction false} UnmarkedKeeps(states: seq<LoopState>, events: seq<Event>, cfg: Config, m: Mint, a: Address,
      i: nat, q: nat)
    requires Run(states, events, cfg) && i < q <= |events| && Unheard(states, events, m, a, i, q)
    ensures cfg.hasApiKey && Exposed(states[q], m, a)
  {
    if q == i + 1 {
      UnmarkedIsExposed(states, events, cfg, m, a, i);
    } else {
      UnmarkedKeeps(states, events, cfg, m, a, i, q - 1);
      ExposedGoesOn(states, events, cfg, q - 1, m, a);
    }
  }

  lemma RefetchDoubles(states: seq<LoopState>, events: seq<Event>, cfg: Config, n: nat, m: Mint, a: Address, i: nat,
      j: nat)
    requires Run(states, events, cfg) && i < j < n <= |events| && Lives(states, m, i, n)
    requires Refetched(states, events, cfg, m, a, i, j)
    ensures Fetches(states[j], m, a) >= 2 || Fetches(states[j + 1], m, a) >= 2
  {
    UnmarkedKeeps(states, events, cfg, m, a, i, j);
    RunFetches(states, events, cfg, j, m, a);
  }

  /**
   * An admission comes to have two fetches of one buyer outstanding if and only if a message of an earlier
   * admission reaches it while the buyer is being fetched, and then, before the buyer's own message is handled
   * and before any message brings a profile, a further buy of the buyer is accepted.
   */
  lemma TwoFetchesIff(states: seq<LoopState>, events: seq<Event>, cfg: Config, n: nat, m: Mint, a: Address)
    requires Run(states, events, cfg) && n <= |events| && m in states[n].candidates
    ensures TwoFetches(states, m, a, n) <==> RefetchedBy(states, events, cfg, m, a, n)
  {
    if TwoFetches(states, m, a, n) {
      var k :| 0 <= k <= n && Lives(states, m, k, n) && Fetches(states[k], m, a) >= 2;
      RunStanding(states, events, cfg, k, m, a);
      var i, j :| 0 <= i < j < k && Lives(states, m, i, k) && Refetched(states, events, cfg, m, a, i, j);
      assert Lives(states, m, i, n);
    }
    if RefetchedBy(states, events, cfg, m, a, n) {
      var i, j :| 0 <= i < j < n && Lives(states, m, i, n) && Refetched(states, events, cfg, m, a, i, j);
      RefetchDoubles(states, events, cfg, n, m, a, i, j);
      assert Lives(states, m, j, n) && Lives(states, m, j + 1, n);
    }
  }
}
