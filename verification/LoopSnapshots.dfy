/**
 * What a candidate keeps between events: while its score is outstanding nothing but profile lookups can
 * change it, every buyer it waits for is being fetched, and it only ever took buys from its own window.
 */
module LoopSnapshots {
  import opened Wrappers
  import opened FilterTypes
  import opened BuyFeed
  import opened SmartMoney
  import opened Gate3
  import opened Scoring
  import opened EventLoop
  import opened LoopInvariants

  /** The two differ at most in what is known about buyers. */
  predicate SameButProfiles(c: Candidate, snapshot: Candidate) {
    c.(buyerProfiles := snapshot.buyerProfiles, pendingBuyerProfiles := snapshot.pendingBuyerProfiles) == snapshot
  }

  /** Each outstanding score message carries the candidate as it still is, profiles aside. */
  ghost predicate Frozen(tasks: seq<Task>, cs: map<Mint, Candidate>) {
    forall t :: t in tasks && t.ScoreTask? ==> t.mint in cs && SameButProfiles(cs[t.mint], t.snapshot)
  }

  /** Each buyer a candidate waits for has a fetch outstanding, sent for this admission, and no profile yet. */
  ghost predicate Awaits(c: Candidate, m: Mint, tasks: seq<Task>) {
    forall a :: a in c.pendingBuyerProfiles ==> ProfileTask(m, a, c.admission) in tasks && a !in c.buyerProfiles
  }

  /** Every early buy was first seen before the candidate's hard deadline. */
  ghost predicate Timely(c: Candidate, cfg: Config) {
    forall k :: 0 <= k < |c.earlyBuys| ==> SatSub(c.earlyBuys[k].detectedAt, c.createdAt) <= HardRejectMs(cfg)
  }

  ghost predicate CandKept(c: Candidate, m: Mint, tasks: seq<Task>, cfg: Config) {
    Awaits(c, m, tasks) && Timely(c, cfg)
  }

  ghost predicate Kept(s: LoopState, cfg: Config) {
    Frozen(s.tasks, s.candidates) && forall m :: m in s.candidates ==> CandKept(s.candidates[m], m, s.tasks, cfg)
  }

  predicate NoScore(tasks: seq<Task>, m: Mint) {
    forall t :: t in tasks && t.ScoreTask? ==> t.mint != m
  }

  lemma QuietIsUnscored(s: LoopState, m: Mint)
    requires CoupledAt(s, m) && !HasStatus(s, m, Finalizing)
    ensures NoScore(s.tasks, m)
  {
    NoneOutstanding(s.tasks, ScoreMessage, m);
    forall t | t in s.tasks && t.ScoreTask? ensures t.mint != m {
      assert !IsFor(t, ScoreMessage, m);
    }
  }

  // ---------------------------------------------------------------- building blocks

  lemma PutKept(s: LoopState, m: Mint, c: Candidate, cfg: Config)
    requires Kept(s, cfg) && CandKept(c, m, s.tasks, cfg)
    requires NoScore(s.tasks, m) || (m in s.candidates && SameButProfiles(c, s.candidates[m]))
    ensures Kept(Put(s, m, c), cfg)
  {
    var cs := s.candidates[m := c];
    forall t | t in s.tasks && t.ScoreTask? ensures t.mint in cs && SameButProfiles(cs[t.mint], t.snapshot) {
      assert t.mint in s.candidates && SameButProfiles(s.candidates[t.mint], t.snapshot);
    }
  }

  lemma MoreTasksKept(s: LoopState, t: Task, cfg: Config)
    requires Kept(s, cfg) && (t.ScoreTask? ==> t.mint in s.candidates && s.candidates[t.mint] == t.snapshot)
    ensures Kept(s.(tasks := s.tasks + [t]), cfg)
  {
    var tasks := s.tasks + [t];
    forall m | m in s.candidates ensures CandKept(s.candidates[m], m, tasks, cfg) {
      assert CandKept(s.candidates[m], m, s.tasks, cfg);
    }
  }

  lemma FinalizeKept(s: LoopState, m: Mint, c: Candidate, path: Gate3Path, nowMs: nat, cfg: Config)
    requires Kept(s, cfg) && CandKept(c, m, s.tasks, cfg) && NoScore(s.tasks, m) && c.mint == m
    ensures Kept(Finalize(s, m, c, path, nowMs), cfg)
  {
    var c' := c.(status := Finalizing, trace := c.trace.(gate3TriggerAtMs := Some(nowMs), path := Some(path)));
    PutKept(s, m, c', cfg);
    MoreTasksKept(Put(s, m, c'), ScoreTask(c'.mint, c'), cfg);
  }

  lemma PutAndTryKept(s: LoopState, m: Mint, c: Candidate, cfg: Config, env: Env)
    requires Kept(s, cfg) && CandKept(c, m, s.tasks, cfg) && NoScore(s.tasks, m) && c.mint == m
    ensures Kept(PutAndTry(s, m, c, cfg, env), cfg)
  {
    match ShouldFinalize(c, cfg, env)
    case None => PutKept(s, m, c, cfg);
    case Some(path) => FinalizeKept(s, m, c, path, env.nowMs, cfg);
  }

  lemma RetireKept(s: LoopState, m: Mint, gate: Option<Gate>, trace: Trace, cfg: Config)
    requires Kept(s, cfg) && m in s.candidates && NoScore(s.tasks, m)
    ensures Kept(Retire(s, m, gate, trace), cfg)
  {
  }

  // ---------------------------------------------------------------- events

  lemma ResolveKept(s: LoopState, m: Mint, r: GateResult, cfg: Config, env: Env)
    requires Kept(s, cfg) && NoScore(s.tasks, m) && m in s.candidates && s.candidates[m].mint == m
    ensures Kept(Resolve(s, m, r, cfg, env), cfg)
  {
    var c := s.candidates[m];
    var trace := c.trace.(gate2AtMs := Some(r.readyAtMs));
    if r.passed {
      PutAndTryKept(s, m, c.(status := Active, creatorProfile := r.profile, gate2Penalty := r.penalty,
                             trace := trace.(gate3OpenAtMs := FirstOf(trace.gate3OpenAtMs, r.readyAtMs))), cfg, env);
    } else {
      RetireKept(s, m, Some(Gate2), trace, cfg);
    }
  }

  lemma OnGate1Kept(s: LoopState, token: Token, passed: bool, local: LocalGate, cfg: Config, env: Env)
    requires Kept(s, cfg) && Coupled(s)
    ensures Kept(OnGate1(s, token, passed, local, cfg, env), cfg)
  {
    var m := token.mint;
    if m !in s.candidates && passed {
      assert CoupledAt(s, m);
      QuietIsUnscored(s, m);
      var admitted := Admitted(s, token, env.now);
      PutKept(s, m, NewCandidate(token, s.admissions, env.now), cfg);
      assert Kept(admitted, cfg);
      match local
      case LocalFailed =>
      case LocalHit(r) => ResolveKept(admitted, m, r, cfg, env);
      case LocalMiss => MoreTasksKept(admitted, GateTask(m, s.admissions), cfg);
    }
  }

  lemma JudgeKept(s: LoopState, m: Mint, c: Candidate, cfg: Config, env: Env)
    requires Kept(s, cfg) && CandKept(c, m, s.tasks, cfg) && NoScore(s.tasks, m) && c.mint == m
    ensures Kept(Judge(s, m, c, cfg, env), cfg)
  {
    if c.status == Active {
      PutAndTryKept(s, m, c, cfg, env);
    } else {
      PutKept(s, m, c, cfg);
    }
  }

  lemma EvaluateKept(s: LoopState, m: Mint, c: Candidate, cfg: Config, env: Env)
    requires Kept(s, cfg) && CandKept(c, m, s.tasks, cfg) && NoScore(s.tasks, m) && c.mint == m
    ensures Kept(Evaluate(s, m, c, cfg, env), cfg)
  {
    if RejectNow(c, cfg, env).Some? {
      PutKept(s, m, c, cfg);
      RetireKept(Put(s, m, c), m, Some(Gate3), c.trace, cfg);
    } else {
      JudgeKept(s, m, c, cfg, env);
    }
  }

  lemma MergeTimely(c: Candidate, k: nat, buy: Buy, cfg: Config)
    requires Timely(c, cfg) && k < |c.earlyBuys|
    ensures Timely(Merge(c, k, buy), cfg)
  {
    assert Upgrade(c.earlyBuys[k], buy).detectedAt == c.earlyBuys[k].detectedAt;
  }

  /** Accepting a buy marks its buyer as awaited exactly when a fetch is spawned for it. */
  lemma AcceptedKept(s: LoopState, m: Mint, buy: Buy, cfg: Config, nowMs: nat)
    requires Kept(s, cfg) && m in s.candidates && s.candidates[m].mint == m
    requires SatSub(buy.detectedAt, s.candidates[m].createdAt) <= HardRejectMs(cfg)
    ensures var c := s.candidates[m];
            var spawned := Spawned(c, buy.buyer, cfg);
            && Kept(s.(tasks := s.tasks + spawned), cfg)
            && CandKept(Accepted(c, buy, cfg, nowMs), m, s.tasks + spawned, cfg)
  {
    var c := s.candidates[m];
    var t := ProfileTask(c.mint, buy.buyer, c.admission);
    if WantsProfile(c, buy.buyer, cfg) {
      MoreTasksKept(s, t, cfg);
    } else {
      assert s.tasks + [] == s.tasks;
    }
  }

  lemma OnBuyKept(s: LoopState, buy: Buy, cfg: Config, env: Env)
    requires Kept(s, cfg) && Coupled(s) && Keyed(s)
    ensures Kept(OnBuy(s, buy, cfg, env), cfg)
  {
    var m := buy.mint;
    if m in s.candidates && s.candidates[m].status != Finalizing {
      var c := s.candidates[m];
      assert CoupledAt(s, m);
      QuietIsUnscored(s, m);
      match FindBuy(c.earlyBuys, buy.signature)
      case Some(k) =>
        var c' := Merge(c, k, buy);
        MergeTimely(c, k, buy, cfg);
        PutKept(s, m, c', cfg);
        JudgeKept(s, m, c', cfg, env);
      case None =>
        if SatSub(buy.detectedAt, c.createdAt) <= HardRejectMs(cfg) {
          AcceptedKept(s, m, buy, cfg, env.nowMs);
          var spawned := Spawned(c, buy.buyer, cfg);
          EvaluateKept(s.(tasks := s.tasks + spawned), m, Accepted(c, buy, cfg, env.nowMs), cfg, env);
        }
    }
  }

  /** A profile message is spent: it is awaited by nobody once its address is struck off. */
  lemma ProfileTakenKept(s: LoopState, i: nat, profile: Option<BuyerProfile>, cfg: Config, env: Env)
    requires Kept(s, cfg) && Coupled(s) && Keyed(s) && i < |s.tasks| && s.tasks[i].ProfileTask?
    ensures Kept(OnProfile(Taken(s, i), s.tasks[i].mint, s.tasks[i].address, profile, cfg, env), cfg)
  {
    var m, a, tasks := s.tasks[i].mint, s.tasks[i].address, RemoveAt(s.tasks, i);
    RemovedTasks(s.tasks, i);
    if m in s.candidates {
      var c := s.candidates[m];
      var c' := Profiled(c, a, profile);
      var s1 := Put(Taken(s, i), m, c');
      StruckOffKept(s, i, c', cfg);
      if c.status == Active {
        assert CoupledAt(s, m);
        QuietIsUnscored(s, m);
        assert NoScore(tasks, m);
        match ShouldFinalize(c', cfg, env)
        case None =>
        case Some(path) => FinalizePutKept(Taken(s, i), m, c', path, env.nowMs, cfg);
      }
    } else {
      forall n | n in s.candidates ensures CandKept(s.candidates[n], n, tasks, cfg) {
        assert CandKept(s.candidates[n], n, s.tasks, cfg);
      }
    }
  }

  lemma RemovedTasks(tasks: seq<Task>, i: nat)
    requires i < |tasks|
    ensures forall t :: t in RemoveAt(tasks, i) ==> t in tasks
    ensures forall t :: t in tasks && t != tasks[i] ==> t in RemoveAt(tasks, i)
  {
    var rest := RemoveAt(tasks, i);
    forall t | t in tasks && t != tasks[i] ensures t in rest {
      var j :| 0 <= j < |tasks| && tasks[j] == t;
      assert rest[if j < i then j else j - 1] == t;
    }
  }

  lemma StruckOffKept(s: LoopState, i: nat, c': Candidate, cfg: Config)
    requires Kept(s, cfg) && i < |s.tasks| && s.tasks[i].ProfileTask? && s.tasks[i].mint in s.candidates
    requires SameButProfiles(c', s.candidates[s.tasks[i].mint])
    requires c'.pendingBuyerProfiles == s.candidates[s.tasks[i].mint].pendingBuyerProfiles - {s.tasks[i].address}
    requires c'.buyerProfiles.Keys <= s.candidates[s.tasks[i].mint].buyerProfiles.Keys + {s.tasks[i].address}
    ensures Kept(Put(Taken(s, i), s.tasks[i].mint, c'), cfg)
  {
    var m, tasks := s.tasks[i].mint, RemoveAt(s.tasks, i);
    var cs := s.candidates[m := c'];
    RemovedTasks(s.tasks, i);
    forall t | t in tasks && t.ScoreTask? ensures t.mint in cs && SameButProfiles(cs[t.mint], t.snapshot) {
      assert SameButProfiles(s.candidates[t.mint], t.snapshot);
    }
    forall n | n in cs ensures CandKept(cs[n], n, tasks, cfg) {
      assert CandKept(s.candidates[n], n, s.tasks, cfg);
    }
  }

  /** As `FinalizeKept`, from a state that is only known to be kept once the candidate is stored. */
  lemma FinalizePutKept(s: LoopState, m: Mint, c: Candidate, path: Gate3Path, nowMs: nat, cfg: Config)
    requires Kept(Put(s, m, c), cfg) && NoScore(s.tasks, m) && c.mint == m
    ensures Kept(Finalize(s, m, c, path, nowMs), cfg)
  {
    var s1 := Put(s, m, c);
    assert CandKept(s1.candidates[m], m, s1.tasks, cfg);
    FinalizeKept(s1, m, c, path, nowMs, cfg);
    assert Finalize(s1, m, c, path, nowMs) == Finalize(s, m, c, path, nowMs) by {
      var c' := c.(status := Finalizing, trace := c.trace.(gate3TriggerAtMs := Some(nowMs), path := Some(path)));
      assert s1.candidates[m := c'] == s.candidates[m := c'];
    }
  }

  lemma OtherTakenKept(s: LoopState, i: nat, cfg: Config)
    requires Kept(s, cfg) && i < |s.tasks| && !s.tasks[i].ProfileTask?
    ensures Kept(Taken(s, i), cfg)
  {
    RemovedTasks(s.tasks, i);
    forall n | n in s.candidates ensures CandKept(s.candidates[n], n, Taken(s, i).tasks, cfg) {
      assert CandKept(s.candidates[n], n, s.tasks, cfg);
    }
  }

  lemma TakenScoreless(s: LoopState, i: nat, kind: Kind)
    requires Coupled(s) && i < |s.tasks| && IsFor(s.tasks[i], kind, s.tasks[i].mint)
    ensures NoScore(Taken(s, i).tasks, s.tasks[i].mint)
  {
    var m, tasks := s.tasks[i].mint, Taken(s, i).tasks;
    TakenQuiet(s, i, kind);
    NoneOutstanding(tasks, ScoreMessage, m);
    forall t | t in tasks && t.ScoreTask? ensures t.mint != m {
      assert !IsFor(t, ScoreMessage, m);
    }
  }

  lemma OnScoredKept(s: LoopState, m: Mint, d: Decision, sent: bool, cfg: Config)
    requires Kept(s, cfg) && NoScore(s.tasks, m) && m in s.candidates
    ensures Kept(OnScored(s, m, d, sent), cfg)
  {
    var gate := if d.signal.Some? then None else Some(d.gate);
    RetireKept(s, m, gate, s.candidates[m].trace.(gate4AtMs := d.gate4AtMs), cfg);
  }

  lemma {:induction false} RetireAllKept(s: LoopState, order: seq<Mint>, cfg: Config)
    requires Kept(s, cfg) && forall m :: m in order ==> NoScore(s.tasks, m)
    ensures Kept(RetireAll(s, order), cfg) && RetireAll(s, order).tasks == s.tasks
  {
    if order != [] {
      var n := |order| - 1;
      RetireAllKept(s, order[..n], cfg);
      var s1 := RetireAll(s, order[..n]);
      if order[n] in s1.candidates {
        assert order[n] in order;
        RetireKept(s1, order[n], Some(Gate3), s1.candidates[order[n]].trace, cfg);
      }
    }
  }

  lemma TickKept(s: LoopState, envs: map<Mint, Env>, order: seq<Mint>, cfg: Config)
    requires Kept(s, cfg) && Coupled(s) && Enabled(s, Tick(envs, order), cfg)
    ensures Kept(RetireAll(s, order), cfg)
  {
    ExpiredActive(s, cfg, envs, order);
    forall m | m in order ensures NoScore(s.tasks, m) {
      assert CoupledAt(s, m);
      QuietIsUnscored(s, m);
    }
    RetireAllKept(s, order, cfg);
  }

  lemma StepKept(s: LoopState, e: Event, cfg: Config)
    requires Inv(s, cfg) && Kept(s, cfg) && Enabled(s, e, cfg)
    ensures Kept(Step(s, e, cfg), cfg)
  {
    match e
    case Gate1Done(token, passed, local, env) => OnGate1Kept(s, token, passed, local, cfg, env);
    case GateResolved(i, r, env) =>
      OtherTakenKept(s, i, cfg);
      TakenQuiet(s, i, GateMessage);
      TakenScoreless(s, i, GateMessage);
      ResolveKept(Taken(s, i), s.tasks[i].mint, r, cfg, env);
    case ProfileResolved(i, profile, env) => ProfileTakenKept(s, i, profile, cfg, env);
    case Scored(i, env, later, sent) =>
      OtherTakenKept(s, i, cfg);
      TakenQuiet(s, i, ScoreMessage);
      TakenScoreless(s, i, ScoreMessage);
      OnScoredKept(Taken(s, i), s.tasks[i].mint, ScoreCandidate(s.tasks[i].snapshot, cfg, env, later), sent, cfg);
    case BuyArrived(buy, env) => OnBuyKept(s, buy, cfg, env);
    case Tick(envs, order) => TickKept(s, envs, order, cfg);
  }

  // ---------------------------------------------------------------- whole runs

  lemma {:induction false} RunKept(states: seq<LoopState>, events: seq<Event>, cfg: Config, n: nat)
    requires Run(states, events, cfg) && n <= |events|
    ensures Kept(states[n], cfg)
  {
    if n > 0 {
      RunKept(states, events, cfg, n - 1);
      RunKeepsInv(states, events, cfg, n - 1);
      StepKept(states[n - 1], events[n - 1], cfg);
    }
  }

  /**
   * A candidate is scored on what it still is: while the score is outstanding its buys, its trigger, its
   * gate results and everything else but the profiles of its buyers stay as they were when it triggered.
   */
  lemma ScoredAsTriggered(states: seq<LoopState>, events: seq<Event>, cfg: Config, n: nat, t: Task)
    requires Run(states, events, cfg) && n <= |events|
    requires t in states[n].tasks && t.ScoreTask?
    ensures t.mint in states[n].candidates
    ensures var c := states[n].candidates[t.mint];
            && c.admission == t.snapshot.admission && c.earlyBuys == t.snapshot.earlyBuys && c.trace == t.snapshot.trace
            && c == t.snapshot.(buyerProfiles := c.buyerProfiles, pendingBuyerProfiles := c.pendingBuyerProfiles)
  {
    RunKept(states, events, cfg, n);
    assert SameButProfiles(states[n].candidates[t.mint], t.snapshot);
  }

  lemma ScoreAppends(s: LoopState, i: nat, env: Env, later: HotLists, sent: bool, cfg: Config)
    requires i < |s.tasks| && s.tasks[i].ScoreTask?
    ensures var t := s.tasks[i];
            var s' := OnScored(Taken(s, i), t.mint, ScoreCandidate(t.snapshot, cfg, env, later), sent);
            && t.mint !in s'.candidates
            && (|s'.signals| > |s.signals| ==> s'.signals[|s.signals|].triggerTrade in t.snapshot.earlyBuys)
  {
  }

  /** The trade a signal mirrors is one of the buys its candidate holds when the score arrives. */
  lemma SignalMirrorsHeldBuy(states: seq<LoopState>, events: seq<Event>, cfg: Config, n: nat)
    requires Run(states, events, cfg) && n < |events| && events[n].Scored?
    ensures var m := states[n].tasks[events[n].task].mint;
            && m in states[n].candidates && m !in states[n + 1].candidates
            && (|states[n + 1].signals| > |states[n].signals| ==>
                  var trade := states[n + 1].signals[|states[n].signals|].triggerTrade;
                  && trade in states[n].candidates[m].earlyBuys
                  && SatSub(trade.detectedAt, states[n].candidates[m].createdAt) <= HardRejectMs(cfg))
  {
    var s, t := states[n], states[n].tasks[events[n].task];
    RunKept(states, events, cfg, n);
    ScoredAsTriggered(states, events, cfg, n, t);
    ScoreAppends(s, events[n].task, events[n].env, events[n].later, events[n].sent, cfg);
    assert CandKept(s.candidates[t.mint], t.mint, s.tasks, cfg);
  }

  /** No buyer is waited for in vain: each one a candidate awaits has its fetch outstanding and no profile yet. */
  lemma AwaitedProfilesAreFetched(states: seq<LoopState>, events: seq<Event>, cfg: Config, n: nat, m: Mint, a: Address)
    requires Run(states, events, cfg) && n <= |events|
    requires m in states[n].candidates && a in states[n].candidates[m].pendingBuyerProfiles
    ensures var c := states[n].candidates[m];
            ProfileTask(m, a, c.admission) in states[n].tasks && a !in c.buyerProfiles
  {
    RunKept(states, events, cfg, n);
    assert CandKept(states[n].candidates[m], m, states[n].tasks, cfg);
  }

  /** No early buy was first seen after the candidate's hard deadline. */
  lemma EarlyBuysInWindow(states: seq<LoopState>, events: seq<Event>, cfg: Config, n: nat, m: Mint, k: nat)
    requires Run(states, events, cfg) && n <= |events|
    requires m in states[n].candidates && k < |states[n].candidates[m].earlyBuys|
    ensures var c := states[n].candidates[m]; SatSub(c.earlyBuys[k].detectedAt, c.createdAt) <= HardRejectMs(cfg)
  {
    RunKept(states, events, cfg, n);
    assert CandKept(states[n].candidates[m], m, states[n].tasks, cfg);
  }
}
