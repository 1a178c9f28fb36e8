/**
 * The event loop with its state in fields, each handler written as the program performs it: look the
 * candidate up, change it in place, store it, spawn, enqueue. Every handler is proved to take the
 * fields from one `LoopState` to the one that the state machine's handler prescribes.
 */
module FilterLoop {
  import opened Wrappers
  import opened FilterTypes
  import opened BuyFeed
  import opened SmartMoney
  import opened Gate3
  import opened Scoring
  import opened EventLoop
  import opened LoopInvariants

  class Loop {
    const cfg: Config
    var candidates: map<Mint, Candidate>
    var tasks: seq<Task>
    var outcomes: seq<Outcome>
    var signals: seq<Signal>
    var gate1Rejects: seq<Mint>
    var admissions: nat
    var halted: bool

    function State(): LoopState
      reads this
    {
      LoopState(candidates, tasks, outcomes, signals, gate1Rejects, admissions, halted)
    }

    constructor (cfg: Config)
      ensures State() == Initial && this.cfg == cfg
      ensures Inv(State(), cfg)
    {
      this.cfg := cfg;
      candidates, tasks, outcomes, signals, gate1Rejects := map[], [], [], [], [];
      admissions, halted := 0, false;
      new;
      RunKeepsInv([Initial], [], cfg, 0);
    }

    method EnqueueOutcome(c: Candidate, gate: Option<Gate>)
      modifies this`outcomes
      ensures outcomes == old(outcomes) + [Outcome(c.admission, c.mint, gate.None?, gate, c.trace)]
    {
      outcomes := outcomes + [Outcome(c.admission, c.mint, gate.None?, gate, c.trace)];
    }

    /** Marks a stored candidate as finalizing and spawns its scoring. */
    method StartScoring(m: Mint, path: Gate3Path, nowMs: nat)
      requires m in candidates
      modifies this`candidates, this`tasks
      ensures State() == Finalize(old(State()), m, old(candidates)[m], path, nowMs)
    {
      var c := candidates[m];
      c := c.(status := Finalizing);
      c := c.(trace := c.trace.(gate3TriggerAtMs := Some(nowMs)));
      c := c.(trace := c.trace.(path := Some(path)));
      candidates := candidates[m := c];
      tasks := tasks + [ScoreTask(c.mint, c)];
    }

    method CheckShouldFinalize(c: Candidate, env: Env) returns (trigger: Option<Gate3Path>)
      ensures trigger == ShouldFinalize(c, cfg, env)
    {
      var stats, _ := ScanWindow(c, cfg, env);
      if RejectReason(c, stats, cfg).Some? {
        return None;
      }
      trigger := Trigger(cfg, stats);
    }

    method HandleCreatorGateResolution(m: Mint, r: GateResult, env: Env)
      modifies this`candidates, this`tasks, this`outcomes
      ensures State() == Resolve(old(State()), m, r, cfg, env)
    {
      if m !in candidates {
        return;
      }
      var c := candidates[m];
      c := c.(trace := c.trace.(gate2AtMs := Some(r.readyAtMs)));
      if !r.passed {
        candidates := candidates - {m};
        EnqueueOutcome(c, Some(Gate2));
        return;
      }
      c := c.(status := Active, creatorProfile := r.profile, gate2Penalty := r.penalty);
      if c.trace.gate3OpenAtMs.None? {
        c := c.(trace := c.trace.(gate3OpenAtMs := Some(r.readyAtMs)));
      }
      candidates := candidates[m := c];
      var trigger := CheckShouldFinalize(c, env);
      if trigger.Some? {
        StartScoring(m, trigger.value, env.nowMs);
        assert candidates == old(candidates)[m := candidates[m]];
      }
    }

    method HandleGate1Result(token: Token, passed: bool, local: LocalGate, env: Env)
      modifies this
      ensures State() == OnGate1(old(State()), token, passed, local, cfg, env)
    {
      if token.mint in candidates {
        return;
      }
      if !passed {
        gate1Rejects := gate1Rejects + [token.mint];
        return;
      }
      var trace := Trace(Some(token.gate1AtMs), None, None, None, None, None);
      candidates := candidates[token.mint :=
                                 Candidate(admissions, token.mint, token.creator, env.now, token.detectedAtMs,
                                           CreatorPending, token.gate1Penalty, token.templateRepeats,
                                           token.narrativeTiers, 0, [], {}, None, map[], {}, trace, [])];
      admissions := admissions + 1;
      match local
      case LocalFailed => halted := true;
      case LocalHit(r) => HandleCreatorGateResolution(token.mint, r, env);
      case LocalMiss => tasks := tasks + [GateTask(token.mint, admissions - 1)];
    }

    method HandleBuyerProfileResolution(m: Mint, address: Address, profile: Option<BuyerProfile>, env: Env)
      modifies this`candidates, this`tasks
      ensures State() == OnProfile(old(State()), m, address, profile, cfg, env)
    {
      if m !in candidates {
        return;
      }
      var c := candidates[m];
      c := c.(pendingBuyerProfiles := c.pendingBuyerProfiles - {address});
      if profile.Some? {
        c := c.(buyerProfiles := c.buyerProfiles[address := profile.value]);
      }
      candidates := candidates[m := c];
      if c.status != Active {
        return;
      }
      var trigger := CheckShouldFinalize(c, env);
      if trigger.Some? {
        StartScoring(m, trigger.value, env.nowMs);
        assert candidates == old(candidates)[m := candidates[m]];
      }
    }

    /** Evaluates the stored candidate; a reject that cannot wait for the tick is handed back. */
    method EvaluateCandidateAfterBuy(m: Mint, env: Env) returns (rejectNow: Option<Reject>)
      requires m in candidates
      modifies this`candidates, this`tasks
      ensures State() == Judge(old(State()), m, old(candidates)[m], cfg, env)
      ensures rejectNow == RejectNow(old(candidates)[m], cfg, env)
      ensures rejectNow.Some? ==> State() == old(State())
    {
      rejectNow := None;
      var c := candidates[m];
      assert candidates == candidates[m := c];
      if c.status != Active {
        return;
      }
      var stats, _ := ScanWindow(c, cfg, env);
      var reason := RejectReason(c, stats, cfg);
      if reason.Some? {
        if Immediate(reason.value) {
          rejectNow := reason;
        }
      } else {
        var trigger := Trigger(cfg, stats);
        if trigger.Some? {
          StartScoring(m, trigger.value, env.nowMs);
        }
      }
    }

    method MaybeSpawnBuyerProfileFetch(m: Mint, buyer: Address)
      requires m in candidates
      modifies this`candidates, this`tasks
      ensures var c := old(candidates)[m];
              if WantsProfile(c, buyer, cfg) then
                candidates == old(candidates)[m := c.(pendingBuyerProfiles := c.pendingBuyerProfiles + {buyer})]
                && tasks == old(tasks) + [ProfileTask(c.mint, buyer, c.admission)]
              else candidates == old(candidates) && tasks == old(tasks)
    {
      var c := candidates[m];
      if !cfg.hasApiKey || buyer in c.buyerProfiles || buyer in c.pendingBuyerProfiles {
        return;
      }
      candidates := candidates[m := c.(pendingBuyerProfiles := c.pendingBuyerProfiles + {buyer})];
      tasks := tasks + [ProfileTask(c.mint, buyer, c.admission)];
    }

    method RemoveRejected(m: Mint)
      requires m in candidates
      modifies this`candidates, this`outcomes
      ensures State() == Retire(old(State()), m, Some(Gate3), old(candidates)[m].trace)
    {
      var c := candidates[m];
      candidates := candidates - {m};
      EnqueueOutcome(c, Some(Gate3));
    }

    /** Merges a delivery whose signature is already kept. */
    method MergeBuy(m: Mint, k: nat, buy: Buy) returns (upgraded: bool)
      requires m in candidates && k < |candidates[m].earlyBuys|
      modifies this`candidates
      ensures candidates == old(candidates)[m := Merge(old(candidates)[m], k, buy)]
      ensures upgraded <==> candidates[m].earlyBuys[k] != old(candidates)[m].earlyBuys[k]
    {
      var c := candidates[m];
      var merged;
      merged, upgraded := UpgradeExistingBuyEvent(c.earlyBuys[k], buy);
      candidates := candidates[m := c.(earlyBuys := c.earlyBuys[k := merged], log := c.log + [buy])];
    }

    /** Stores a first delivery and starts fetching its buyer's profile. */
    method AcceptBuy(m: Mint, buy: Buy, env: Env)
      requires m in candidates
      modifies this`candidates, this`tasks
      ensures var c := old(candidates)[m];
              && candidates == old(candidates)[m := Accepted(c, buy, cfg, env.nowMs)]
              && tasks == old(tasks) + Spawned(c, buy.buyer, cfg)
    {
      var c := candidates[m];
      c := c.(buySignatures := c.buySignatures + {buy.signature}, earlyBuys := c.earlyBuys + [buy],
          log := c.log + [buy]);
      if c.trace.gate3OpenAtMs.None? {
        c := c.(trace := c.trace.(gate3OpenAtMs := Some(env.nowMs)));
      }
      candidates := candidates[m := c];
      MaybeSpawnBuyerProfileFetch(m, buy.buyer);
    }

    /** A reject that an upgraded buy gives cause for is dropped on the way out; nothing remembers it. */
    method HandleBuyEvent(buy: Buy, env: Env)
      modifies this`candidates, this`tasks, this`outcomes
      ensures State() == OnBuy(old(State()), buy, cfg, env)
    {
      if buy.mint !in candidates {
        return;
      }
      ghost var before := State();
      var c := candidates[buy.mint];
      if c.status == Finalizing {
        return;
      }
      var hit := FindBuy(c.earlyBuys, buy.signature);
      if hit.Some? {
        var upgraded := MergeBuy(buy.mint, hit.value, buy);
        if upgraded {
          ghost var merged := State();
          var _ := EvaluateCandidateAfterBuy(buy.mint, env);
          JudgeOverwrites(before, merged, buy.mint, Merge(c, hit.value, buy), env);
        }
        return;
      }
      if |c.earlyBuys| >= cfg.maxBuys {
        return;
      }
      if SatSub(buy.detectedAt, c.createdAt) > HardRejectMs(cfg) {
        return;
      }
      AcceptBuy(buy.mint, buy, env);
      ghost var accepted := State();
      var rejectNow := EvaluateCandidateAfterBuy(buy.mint, env);
      JudgeOverwrites(before.(tasks := accepted.tasks), accepted, buy.mint, Accepted(c, buy, cfg, env.nowMs), env);
      if rejectNow.Some? {
        RemoveRejected(buy.mint);
      }
    }

    /** Storing the candidate first and judging it then is judging it as it is stored. */
    lemma JudgeOverwrites(s: LoopState, s': LoopState, m: Mint, c: Candidate, env: Env)
      requires s' == Put(s, m, c)
      ensures Judge(s', m, c, cfg, env) == Judge(s, m, c, cfg, env)
    {
      assert Put(s', m, c) == Put(s, m, c);
      if c.status == Active {
        match ShouldFinalize(c, cfg, env)
        case None =>
        case Some(path) =>
          assert Finalize(s', m, c, path, env.nowMs).candidates == Finalize(s, m, c, path, env.nowMs).candidates;
      }
    }

    /** The message of a finished scoring: the candidate's outcome, and the signal if it passed. */
    method HandleScored(m: Mint, d: Decision, sent: bool)
      modifies this
      ensures State() == OnScored(old(State()), m, d, sent)
    {
      if m in candidates {
        var c := candidates[m];
        candidates := candidates - {m};
        c := c.(trace := c.trace.(gate4AtMs := d.gate4AtMs));
        EnqueueOutcome(c, if d.signal.Some? then None else Some(d.gate));
      }
      if d.signal.Some? {
        if sent {
          signals := signals + [d.signal.value];
        } else {
          halted := true;
        }
      }
    }

    method IsExpired(m: Mint, envs: map<Mint, Env>) returns (expired: bool)
      requires m in candidates && candidates.Keys <= envs.Keys
      ensures expired <==> m in Expired(candidates, cfg, envs)
    {
      expired := false;
      var c := candidates[m];
      if c.status == Active {
        var stats, _ := ScanWindow(c, cfg, envs[m]);
        expired := RejectReason(c, stats, cfg).Some?;
      }
    }

    /** The active candidates that gate 3 now rejects, in the order in which the map is enumerated. */
    method CollectExpired(envs: map<Mint, Env>) returns (order: seq<Mint>)
      requires candidates.Keys <= envs.Keys
      ensures Enumerates(order, Expired(candidates, cfg, envs))
    {
      order := [];
      ghost var expired := Expired(candidates, cfg, envs);
      var left := candidates.Keys;
      assert expired - left == {};
      while left != {}
        invariant left <= candidates.Keys
        invariant Enumerates(order, expired - left)
        decreases |left|
      {
        var m :| m in left;
        var reject := IsExpired(m, envs);
        CollectStep(order, expired, left, m);
        if reject {
          order := order + [m];
        }
        left := left - {m};
      }
      assert expired - left == expired;
    }

    lemma EnumeratesSnoc(order: seq<Mint>, mints: set<Mint>, m: Mint)
      requires Enumerates(order, mints) && m !in mints
      ensures Enumerates(order + [m], mints + {m})
    {
      forall x ensures x in (set y | y in order + [m]) <==> x in mints + {m} {
        assert x in order <==> x in (set y | y in order);
      }
      forall a | 0 <= a < |order| ensures order[a] != m {
        assert order[a] in (set y | y in order);
      }
    }

    lemma CollectStep(order: seq<Mint>, expired: set<Mint>, left: set<Mint>, m: Mint)
      requires Enumerates(order, expired - left) && m in left
      ensures Enumerates(if m in expired then order + [m] else order, expired - (left - {m}))
    {
      if m in expired {
        EnumeratesSnoc(order, expired - left, m);
        assert expired - (left - {m}) == expired - left + {m};
      } else {
        assert expired - (left - {m}) == expired - left;
      }
    }

    /** Collects what gate 3 now rejects, then removes it one by one. */
    method HandleTick(envs: map<Mint, Env>) returns (order: seq<Mint>)
      requires candidates.Keys <= envs.Keys
      modifies this`candidates, this`outcomes
      ensures Enumerates(order, Expired(old(candidates), cfg, envs))
      ensures State() == RetireAll(old(State()), order)
    {
      order := CollectExpired(envs);
      for i := 0 to |order|
        invariant State() == RetireAll(old(State()), order[..i])
      {
        assert order[..i + 1][..i] == order[..i];
        if order[i] in candidates {
          RemoveRejected(order[i]);
        }
      }
      assert order[..|order|] == order;
    }

    /** One turn of the loop for a message of a spawned task: the task is done and its message handled. */
    method HandleMessage(i: nat, r: GateResult, profile: Option<BuyerProfile>, env: Env, later: HotLists, sent: bool)
      requires !halted && i < |tasks| && Inv(State(), cfg)
      modifies this
      ensures var s := old(State());
              State() == match s.tasks[i]
                         case GateTask(_, _) => Step(s, GateResolved(i, r, env), cfg)
                         case ProfileTask(_, _, _) => Step(s, ProfileResolved(i, profile, env), cfg)
                         case ScoreTask(_, _) => Step(s, Scored(i, env, later, sent), cfg)
      ensures Inv(State(), cfg)
    {
      ghost var s := State();
      var t := tasks[i];
      tasks := RemoveAt(tasks, i);
      match t
      case GateTask(m, _) =>
        StepKeepsInv(s, GateResolved(i, r, env), cfg);
        HandleCreatorGateResolution(m, r, env);
      case ProfileTask(m, address, _) =>
        StepKeepsInv(s, ProfileResolved(i, profile, env), cfg);
        HandleBuyerProfileResolution(m, address, profile, env);
      case ScoreTask(m, snapshot) =>
        StepKeepsInv(s, Scored(i, env, later, sent), cfg);
        HandleScored(m, ScoreCandidate(snapshot, cfg, env, later), sent);
    }
  }
}
