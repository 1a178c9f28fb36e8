/**
 * What every step of the event loop keeps, and what therefore holds over whole runs: which messages
 * are outstanding for which candidate, where every admission ends up, and whose signals are sent.
 */
module LoopInvariants {
  import opened Wrappers
  import opened FilterTypes
  import opened BuyFeed
  import opened SmartMoney
  import opened Gate3
  import opened Scoring
  import opened EventLoop

  // ---------------------------------------------------------------- outstanding messages

  datatype Kind = GateMessage | ScoreMessage

  predicate IsFor(t: Task, kind: Kind, m: Mint) {
    t.mint == m && match kind case GateMessage => t.GateTask? case ScoreMessage => t.ScoreTask?
  }

  /** How many messages of this kind are outstanding for the mint. */
  function Outstanding(tasks: seq<Task>, kind: Kind, m: Mint): nat {
    if tasks == [] then 0
    else Outstanding(tasks[..|tasks| - 1], kind, m) + if IsFor(tasks[|tasks| - 1], kind, m) then 1 else 0
  }

  lemma OutstandingSnoc(tasks: seq<Task>, t: Task, kind: Kind, m: Mint)
    ensures Outstanding(tasks + [t], kind, m) == Outstanding(tasks, kind, m) + if IsFor(t, kind, m) then 1 else 0
  {
    assert (tasks + [t])[..|tasks|] == tasks;
  }

  lemma RemoveAtInit(tasks: seq<Task>, i: nat)
    requires i + 1 < |tasks|
    ensures var n := |tasks| - 1; RemoveAt(tasks, i) == RemoveAt(tasks[..n], i) + [tasks[n]]
  {
  }

  lemma {:induction false} OutstandingRemoved(tasks: seq<Task>, i: nat, kind: Kind, m: Mint)
    requires i < |tasks|
    ensures Outstanding(RemoveAt(tasks, i), kind, m)
            == Outstanding(tasks, kind, m) - if IsFor(tasks[i], kind, m) then 1 else 0
    ensures IsFor(tasks[i], kind, m) ==> Outstanding(tasks, kind, m) >= 1
  {
    var n := |tasks| - 1;
    if i == n {
      assert RemoveAt(tasks, i) == tasks[..n];
    } else {
      var init := tasks[..n];
      assert init[i] == tasks[i];
      OutstandingRemoved(init, i, kind, m);
      RemoveAtInit(tasks, i);
      OutstandingSnoc(RemoveAt(init, i), tasks[n], kind, m);
    }
  }

  lemma NoneOutstanding(tasks: seq<Task>, kind: Kind, m: Mint)
    requires Outstanding(tasks, kind, m) == 0
    ensures forall t :: t in tasks ==> !IsFor(t, kind, m)
  {
    forall i | 0 <= i < |tasks|
      ensures !IsFor(tasks[i], kind, m)
    {
      OutstandingRemoved(tasks, i, kind, m);
    }
  }

  predicate HasStatus(s: LoopState, m: Mint, status: Status) {
    m in s.candidates && s.candidates[m].status == status
  }

  function AdmissionOf(t: Task): nat {
    match t
    case GateTask(_, n) => n
    case ProfileTask(_, _, n) => n
    case ScoreTask(_, c) => c.admission
  }

  /**
   * The mint has one outstanding gate message exactly while its candidate is pending, one outstanding
   * score message exactly while it is finalizing, none otherwise, and they were sent for this admission.
   */
  ghost predicate CoupledAt(s: LoopState, m: Mint) {
    && Outstanding(s.tasks, GateMessage, m) == (if HasStatus(s, m, CreatorPending) then 1 else 0)
    && Outstanding(s.tasks, ScoreMessage, m) == (if HasStatus(s, m, Finalizing) then 1 else 0)
    && (forall t :: t in s.tasks && (IsFor(t, GateMessage, m) || IsFor(t, ScoreMessage, m)) ==>
          m in s.candidates && AdmissionOf(t) == s.candidates[m].admission)
  }

  ghost predicate Coupled(s: LoopState) {
    forall m :: CoupledAt(s, m)
  }

  /** No gate or score message is outstanding for the mint. */
  ghost predicate Quiet(s: LoopState, m: Mint) {
    Outstanding(s.tasks, GateMessage, m) == 0 && Outstanding(s.tasks, ScoreMessage, m) == 0
  }

  /** Everything is coupled except possibly this mint, for which nothing is outstanding. */
  ghost predicate CoupledBut(s: LoopState, m: Mint) {
    (forall m' :: m' != m ==> CoupledAt(s, m')) && Quiet(s, m)
  }

  lemma Elsewhere(s: LoopState, s': LoopState, m: Mint, m': Mint)
    requires m' != m && CoupledAt(s, m')
    requires m' in s.candidates <==> m' in s'.candidates
    requires m' in s.candidates ==> s'.candidates[m'] == s.candidates[m']
    requires s'.tasks == s.tasks || (exists t: Task :: t.mint == m && s'.tasks == s.tasks + [t])
    ensures CoupledAt(s', m')
  {
    if s'.tasks != s.tasks {
      var t: Task :| t.mint == m && s'.tasks == s.tasks + [t];
      OutstandingSnoc(s.tasks, t, GateMessage, m');
      OutstandingSnoc(s.tasks, t, ScoreMessage, m');
    }
  }

  lemma PutCoupled(s: LoopState, m: Mint, c: Candidate)
    requires CoupledBut(s, m) && c.status == Active
    ensures Coupled(Put(s, m, c))
  {
    var s' := Put(s, m, c);
    NoneOutstanding(s.tasks, GateMessage, m);
    NoneOutstanding(s.tasks, ScoreMessage, m);
    forall m' ensures CoupledAt(s', m') {
      if m' != m {
        Elsewhere(s, s', m, m');
      }
    }
  }

  lemma FinalizeCoupled(s: LoopState, m: Mint, c: Candidate, path: Gate3Path, nowMs: nat)
    requires CoupledBut(s, m) && c.mint == m
    ensures Coupled(Finalize(s, m, c, path, nowMs))
  {
    var s' := Finalize(s, m, c, path, nowMs);
    var t := ScoreTask(m, s'.candidates[m]);
    NoneOutstanding(s.tasks, GateMessage, m);
    NoneOutstanding(s.tasks, ScoreMessage, m);
    OutstandingSnoc(s.tasks, t, GateMessage, m);
    OutstandingSnoc(s.tasks, t, ScoreMessage, m);
    forall m' ensures CoupledAt(s', m') {
      if m' != m {
        Elsewhere(s, s', m, m');
      }
    }
  }

  lemma PutAndTryCoupled(s: LoopState, m: Mint, c: Candidate, cfg: Config, env: Env)
    requires CoupledBut(s, m) && c.mint == m && c.status == Active
    ensures Coupled(PutAndTry(s, m, c, cfg, env))
  {
    match ShouldFinalize(c, cfg, env)
    case None => PutCoupled(s, m, c);
    case Some(path) => FinalizeCoupled(s, m, c, path, env.nowMs);
  }

  lemma RetireCoupled(s: LoopState, m: Mint, gate: Option<Gate>, trace: Trace)
    requires CoupledBut(s, m) && m in s.candidates
    ensures Coupled(Retire(s, m, gate, trace))
  {
    var s' := Retire(s, m, gate, trace);
    NoneOutstanding(s.tasks, GateMessage, m);
    NoneOutstanding(s.tasks, ScoreMessage, m);
    forall m' ensures CoupledAt(s', m') {
      if m' != m {
        Elsewhere(s, s', m, m');
      }
    }
  }

  lemma ActiveIsQuiet(s: LoopState, m: Mint)
    requires Coupled(s) && (m !in s.candidates || HasStatus(s, m, Active))
    ensures CoupledBut(s, m)
  {
    assert CoupledAt(s, m);
  }

  /** Taking the one outstanding message of a mint leaves that mint quiet and the rest coupled. */
  lemma TakenQuiet(s: LoopState, i: nat, kind: Kind)
    requires Coupled(s) && i < |s.tasks| && IsFor(s.tasks[i], kind, s.tasks[i].mint)
    ensures CoupledBut(Taken(s, i), s.tasks[i].mint)
    ensures HasStatus(s, s.tasks[i].mint, if kind == GateMessage then CreatorPending else Finalizing)
    ensures s.candidates[s.tasks[i].mint].admission == AdmissionOf(s.tasks[i])
  {
    var m := s.tasks[i].mint;
    assert CoupledAt(s, m) && s.tasks[i] in s.tasks;
    OutstandingRemoved(s.tasks, i, GateMessage, m);
    OutstandingRemoved(s.tasks, i, ScoreMessage, m);
    forall m' | m' != m ensures CoupledAt(Taken(s, i), m') {
      assert CoupledAt(s, m');
      OutstandingRemoved(s.tasks, i, GateMessage, m');
      OutstandingRemoved(s.tasks, i, ScoreMessage, m');
    }
  }

  lemma ProfileTaskUncoupled(s: LoopState, s': LoopState)
    requires Coupled(s) && s'.candidates == s.candidates
    requires (exists i: nat :: i < |s.tasks| && s.tasks[i].ProfileTask? && s'.tasks == RemoveAt(s.tasks, i))
             || (exists t: Task :: t.ProfileTask? && s'.tasks == s.tasks + [t])
    ensures Coupled(s')
  {
    forall m ensures CoupledAt(s', m) {
      assert CoupledAt(s, m);
      if i: nat :| i < |s.tasks| && s.tasks[i].ProfileTask? && s'.tasks == RemoveAt(s.tasks, i) {
        OutstandingRemoved(s.tasks, i, GateMessage, m);
        OutstandingRemoved(s.tasks, i, ScoreMessage, m);
      } else {
        var t: Task :| t.ProfileTask? && s'.tasks == s.tasks + [t];
        OutstandingSnoc(s.tasks, t, GateMessage, m);
        OutstandingSnoc(s.tasks, t, ScoreMessage, m);
      }
    }
  }

  /** Changing a candidate without touching its status or admission changes no coupling. */
  lemma SameStatusCoupled(s: LoopState, m: Mint, c: Candidate)
    requires Coupled(s) && m in s.candidates
    requires c.status == s.candidates[m].status && c.admission == s.candidates[m].admission
    ensures Coupled(Put(s, m, c))
  {
    forall m' ensures CoupledAt(Put(s, m, c), m') {
      assert CoupledAt(s, m');
    }
  }

  lemma OnProfileCoupled(s: LoopState, m: Mint, address: Address, profile: Option<BuyerProfile>, cfg: Config, env: Env)
    requires Coupled(s) && Keyed(s)
    ensures Coupled(OnProfile(s, m, address, profile, cfg, env))
  {
    if m in s.candidates {
      var c := s.candidates[m];
      var c' := Profiled(c, address, profile);
      if c.status == Active {
        ActiveIsQuiet(s, m);
        PutAndTryCoupled(s, m, c', cfg, env);
      } else {
        SameStatusCoupled(s, m, c');
      }
    }
  }

  lemma JudgeCoupled(s: LoopState, m: Mint, c: Candidate, cfg: Config, env: Env)
    requires Coupled(s) && m in s.candidates && c.mint == m
    requires c.status == s.candidates[m].status && c.admission == s.candidates[m].admission
    ensures Coupled(Judge(s, m, c, cfg, env))
  {
    if c.status == Active {
      ActiveIsQuiet(s, m);
      PutAndTryCoupled(s, m, c, cfg, env);
    } else {
      SameStatusCoupled(s, m, c);
    }
  }

  lemma EvaluateCoupled(s: LoopState, m: Mint, c: Candidate, cfg: Config, env: Env)
    requires Coupled(s) && m in s.candidates && c.mint == m
    requires c.status == s.candidates[m].status && c.admission == s.candidates[m].admission
    ensures Coupled(Evaluate(s, m, c, cfg, env))
  {
    if RejectNow(c, cfg, env).Some? {
      SameStatusCoupled(s, m, c);
      ActiveIsQuiet(Put(s, m, c), m);
      RetireCoupled(Put(s, m, c), m, Some(Gate3), c.trace);
    } else {
      JudgeCoupled(s, m, c, cfg, env);
    }
  }

  lemma OnBuyCoupled(s: LoopState, buy: Buy, cfg: Config, env: Env)
    requires Coupled(s) && Keyed(s)
    ensures Coupled(OnBuy(s, buy, cfg, env))
  {
    var m := buy.mint;
    if m in s.candidates && s.candidates[m].status != Finalizing {
      var c := s.candidates[m];
      match FindBuy(c.earlyBuys, buy.signature)
      case Some(k) =>
        JudgeCoupled(s, m, Merge(c, k, buy), cfg, env);
        SameStatusCoupled(s, m, Merge(c, k, buy));
      case None =>
        var t := ProfileTask(c.mint, buy.buyer, c.admission);
        var wants := WantsProfile(c, buy.buyer, cfg);
        var s1 := s.(tasks := s.tasks + if wants then [t] else []);
        if wants {
          ProfileTaskUncoupled(s, s1);
        } else {
          assert s1 == s;
        }
        EvaluateCoupled(s1, m, Accepted(c, buy, cfg, env.nowMs), cfg, env);
    }
  }

  lemma ResolveCoupled(s: LoopState, m: Mint, r: GateResult, cfg: Config, env: Env)
    requires CoupledBut(s, m) && m in s.candidates && s.candidates[m].mint == m
    ensures Coupled(Resolve(s, m, r, cfg, env))
  {
    var c := s.candidates[m];
    var trace := c.trace.(gate2AtMs := Some(r.readyAtMs));
    if r.passed {
      PutAndTryCoupled(s, m, c.(status := Active, creatorProfile := r.profile, gate2Penalty := r.penalty,
                                trace := trace.(gate3OpenAtMs := FirstOf(trace.gate3OpenAtMs, r.readyAtMs))), cfg, env);
    } else {
      RetireCoupled(s, m, Some(Gate2), trace);
    }
  }

  lemma OnGate1Coupled(s: LoopState, token: Token, passed: bool, local: LocalGate, cfg: Config, env: Env)
    requires Coupled(s)
    ensures var s' := OnGate1(s, token, passed, local, cfg, env); s'.halted || Coupled(s')
  {
    var m := token.mint;
    if m in s.candidates || !passed {
      forall m' ensures CoupledAt(OnGate1(s, token, passed, local, cfg, env), m') {
        assert CoupledAt(s, m');
      }
    } else {
      var admitted := Admitted(s, token, env.now);
      ActiveIsQuiet(s, m);
      forall m' | m' != m ensures CoupledAt(admitted, m') {
        Elsewhere(s, admitted, m, m');
      }
      match local
      case LocalFailed =>
      case LocalHit(r) => ResolveCoupled(admitted, m, r, cfg, env);
      case LocalMiss =>
        var t := GateTask(m, s.admissions);
        var s' := admitted.(tasks := s.tasks + [t]);
        NoneOutstanding(s.tasks, GateMessage, m);
        NoneOutstanding(s.tasks, ScoreMessage, m);
        OutstandingSnoc(s.tasks, t, GateMessage, m);
        OutstandingSnoc(s.tasks, t, ScoreMessage, m);
        forall m' ensures CoupledAt(s', m') {
          if m' != m {
            Elsewhere(s, s', m, m');
          }
        }
    }
  }

  lemma OnScoredCoupled(s: LoopState, m: Mint, d: Decision, sent: bool)
    requires CoupledBut(s, m) && m in s.candidates
    ensures Coupled(OnScored(s, m, d, sent))
  {
    var gate := if d.signal.Some? then None else Some(d.gate);
    var trace := s.candidates[m].trace.(gate4AtMs := d.gate4AtMs);
    RetireCoupled(s, m, gate, trace);
    forall m' ensures CoupledAt(OnScored(s, m, d, sent), m') {
      assert CoupledAt(Retire(s, m, gate, trace), m');
    }
  }

  lemma {:induction false} RetireAllCoupled(s: LoopState, order: seq<Mint>)
    requires Coupled(s)
    requires forall m :: m in order ==> HasStatus(s, m, Active)
    ensures Coupled(RetireAll(s, order))
    ensures RetireAll(s, order).candidates.Keys <= s.candidates.Keys
    ensures forall m :: m in RetireAll(s, order).candidates ==> RetireAll(s, order).candidates[m] == s.candidates[m]
  {
    if order != [] {
      var n := |order| - 1;
      RetireAllCoupled(s, order[..n]);
      var s1 := RetireAll(s, order[..n]);
      if order[n] in s1.candidates {
        assert order[n] in order;
        ActiveIsQuiet(s1, order[n]);
        RetireCoupled(s1, order[n], Some(Gate3), s1.candidates[order[n]].trace);
      }
    }
  }

  // ---------------------------------------------------------------- candidates and the ledger

  /** Candidates are filed under their own mint, and no two share an admission number. */
  ghost predicate Filed(cs: map<Mint, Candidate>, admissions: nat) {
    && (forall m :: m in cs ==> cs[m].mint == m && cs[m].admission < admissions)
    && (forall m, n :: m in cs && n in cs && m != n ==> cs[m].admission != cs[n].admission)
  }

  ghost predicate Keyed(s: LoopState) {
    Filed(s.candidates, s.admissions)
  }

  /** Every admission is either live or has exactly one outcome. */
  ghost predicate Accounted(cs: map<Mint, Candidate>, outcomes: seq<Outcome>, admissions: nat) {
    && |outcomes| + |cs| == admissions
    && (forall j :: 0 <= j < |outcomes| ==> outcomes[j].admission < admissions)
    && (forall j, k :: 0 <= j < k < |outcomes| ==> outcomes[j].admission != outcomes[k].admission)
    && (forall j, m :: 0 <= j < |outcomes| && m in cs ==> outcomes[j].admission != cs[m].admission)
  }

  ghost predicate Ledger(s: LoopState) {
    Accounted(s.candidates, s.outcomes, s.admissions)
  }

  predicate Traced(c: Candidate) {
    && (c.status != CreatorPending ==> c.trace.gate2AtMs.Some? && c.trace.gate3OpenAtMs.Some?)
    && (c.status == Finalizing ==> c.trace.gate3TriggerAtMs.Some? && c.trace.path.Some?)
  }

  ghost predicate Sound(s: LoopState, cfg: Config) {
    forall m :: m in s.candidates ==> Faithful(s.candidates[m], cfg.maxBuys) && Traced(s.candidates[m])
  }

  /** The admissions of the passed outcomes, in order. */
  function PassedOf(outcomes: seq<Outcome>): seq<nat> {
    if outcomes == [] then []
    else
      var before := PassedOf(outcomes[..|outcomes| - 1]);
      if outcomes[|outcomes| - 1].passed then before + [outcomes[|outcomes| - 1].admission] else before
  }

  function SignalIds(signals: seq<Signal>): seq<nat> {
    seq(|signals|, i requires 0 <= i < |signals| => signals[i].admission)
  }

  /** A passed outcome carries the times of gates 2, 3 and 4; a failed one names the gate that rejected. */
  predicate Evidenced(o: Outcome) {
    && (o.passed ==>
          o.gate.None? && o.trace.gate2AtMs.Some? && o.trace.gate3TriggerAtMs.Some? && o.trace.gate4AtMs.Some?)
    && (!o.passed ==> o.gate.Some?)
  }

  /**
   * The signals sent are those of the passed outcomes, in order; only the one on which the loop stopped may be
   * missing.
   */
  ghost predicate Signalled(s: LoopState) {
    && (forall j :: 0 <= j < |s.outcomes| ==> Evidenced(s.outcomes[j]))
    && (s.halted || SignalIds(s.signals) == PassedOf(s.outcomes))
    && SignalIds(s.signals) <= PassedOf(s.outcomes)
  }

  ghost predicate Books(s: LoopState, cfg: Config) {
    Keyed(s) && Ledger(s) && Sound(s, cfg) && Signalled(s)
  }

  ghost predicate CandOk(c: Candidate, m: Mint, cfg: Config) {
    c.mint == m && Faithful(c, cfg.maxBuys) && Traced(c)
  }

  lemma Counts(cs: map<Mint, Candidate>, m: Mint, c: Candidate)
    ensures |cs[m := c]| == |cs| + if m in cs then 0 else 1
    ensures m in cs ==> |cs - {m}| == |cs| - 1
  {
    assert |cs[m := c]| == |cs[m := c].Keys| && |cs| == |cs.Keys| && |cs - {m}| == |(cs - {m}).Keys|;
    assert cs[m := c].Keys == cs.Keys + {m};
    assert (cs - {m}).Keys == cs.Keys - {m};
  }

  lemma PutLedger(s: LoopState, m: Mint, c: Candidate)
    requires Keyed(s) && Ledger(s) && m in s.candidates
    requires c.mint == m && c.admission == s.candidates[m].admission
    ensures Keyed(Put(s, m, c)) && Ledger(Put(s, m, c))
  {
    Counts(s.candidates, m, c);
    var cs := s.candidates[m := c];
    assert forall n :: n in cs ==> n in s.candidates && cs[n].admission == s.candidates[n].admission;
  }

  lemma PutBooks(s: LoopState, m: Mint, c: Candidate, cfg: Config)
    requires Books(s, cfg) && m in s.candidates
    requires CandOk(c, m, cfg) && c.admission == s.candidates[m].admission
    ensures Books(Put(s, m, c), cfg)
  {
    PutLedger(s, m, c);
  }

  lemma RetireAccounts(cs: map<Mint, Candidate>, outcomes: seq<Outcome>, admissions: nat, m: Mint, o: Outcome)
    requires Filed(cs, admissions) && Accounted(cs, outcomes, admissions) && m in cs && o.admission == cs[m].admission
    ensures Accounted(cs - {m}, outcomes + [o], admissions)
  {
    Counts(cs, m, cs[m]);
    var now := outcomes + [o];
    forall j, k | 0 <= j < k < |now| ensures now[j].admission != now[k].admission {
      assert now[j] == outcomes[j];
    }
    forall j, n | 0 <= j < |now| && n in cs - {m} ensures now[j].admission != (cs - {m})[n].admission {
      assert j < |outcomes| ==> now[j] == outcomes[j];
    }
  }

  lemma RetireLedger(s: LoopState, m: Mint, gate: Option<Gate>, trace: Trace)
    requires Keyed(s) && Ledger(s) && m in s.candidates
    ensures Keyed(Retire(s, m, gate, trace)) && Ledger(Retire(s, m, gate, trace))
  {
    var c := s.candidates[m];
    RetireAccounts(s.candidates, s.outcomes, s.admissions, m, Outcome(c.admission, c.mint, gate.None?, gate, trace));
  }

  lemma PassedSnoc(outcomes: seq<Outcome>, o: Outcome)
    ensures PassedOf(outcomes + [o]) == if o.passed then PassedOf(outcomes) + [o.admission] else PassedOf(outcomes)
  {
    assert (outcomes + [o])[..|outcomes|] == outcomes;
  }

  lemma RetireBooks(s: LoopState, m: Mint, gate: Gate, trace: Trace, cfg: Config)
    requires Books(s, cfg) && m in s.candidates
    ensures Books(Retire(s, m, Some(gate), trace), cfg)
  {
    RetireLedger(s, m, Some(gate), trace);
    var c := s.candidates[m];
    PassedSnoc(s.outcomes, Outcome(c.admission, c.mint, false, Some(gate), trace));
  }

  lemma FinalizeBooks(s: LoopState, m: Mint, c: Candidate, path: Gate3Path, nowMs: nat, cfg: Config)
    requires Books(s, cfg) && m in s.candidates
    requires CandOk(c, m, cfg) && c.admission == s.candidates[m].admission && c.status == Active
    ensures Books(Finalize(s, m, c, path, nowMs), cfg)
  {
    var c' := c.(status := Finalizing, trace := c.trace.(gate3TriggerAtMs := Some(nowMs), path := Some(path)));
    RestatusFaithful(c, c', cfg.maxBuys);
    PutBooks(s, m, c', cfg);
  }

  /** Status, profiles and trace play no part in what is kept of the buys. */
  lemma RestatusFaithful(c: Candidate, c': Candidate, maxBuys: nat)
    requires Faithful(c, maxBuys)
    requires c'.earlyBuys == c.earlyBuys && c'.buySignatures == c.buySignatures && c'.log == c.log
    ensures Faithful(c', maxBuys)
  {
    forall k: nat | k < |c.earlyBuys| ensures Merged(c', k) {
      assert Merged(c, k);
    }
  }

  lemma PutAndTryBooks(s: LoopState, m: Mint, c: Candidate, cfg: Config, env: Env)
    requires Books(s, cfg) && m in s.candidates
    requires CandOk(c, m, cfg) && c.admission == s.candidates[m].admission && c.status == Active
    ensures Books(PutAndTry(s, m, c, cfg, env), cfg)
  {
    match ShouldFinalize(c, cfg, env)
    case None => PutBooks(s, m, c, cfg);
    case Some(path) => FinalizeBooks(s, m, c, path, env.nowMs, cfg);
  }

  lemma ResolveBooks(s: LoopState, m: Mint, r: GateResult, cfg: Config, env: Env)
    requires Books(s, cfg)
    ensures Books(Resolve(s, m, r, cfg, env), cfg)
  {
    if m in s.candidates {
      var c := s.candidates[m];
      var trace := c.trace.(gate2AtMs := Some(r.readyAtMs));
      if r.passed {
        var c' := c.(status := Active, creatorProfile := r.profile, gate2Penalty := r.penalty,
                     trace := trace.(gate3OpenAtMs := FirstOf(trace.gate3OpenAtMs, r.readyAtMs)));
        RestatusFaithful(c, c', cfg.maxBuys);
        PutAndTryBooks(s, m, c', cfg, env);
      } else {
        RetireBooks(s, m, Gate2, trace, cfg);
      }
    }
  }

  function Admitted(s: LoopState, token: Token, now: nat): LoopState {
    Put(s, token.mint, NewCandidate(token, s.admissions, now)).(admissions := s.admissions + 1)
  }

  lemma AdmitAccounts(cs: map<Mint, Candidate>, outcomes: seq<Outcome>, admissions: nat, m: Mint, c: Candidate)
    requires Filed(cs, admissions) && Accounted(cs, outcomes, admissions) && m !in cs
    requires c.mint == m && c.admission == admissions
    ensures Filed(cs[m := c], admissions + 1) && Accounted(cs[m := c], outcomes, admissions + 1)
  {
    Counts(cs, m, c);
    var now := cs[m := c];
    forall a, b | a in now && b in now && a != b ensures now[a].admission != now[b].admission {
      assert (a == m || now[a] == cs[a]) && (b == m || now[b] == cs[b]);
    }
    forall j, n | 0 <= j < |outcomes| && n in now ensures outcomes[j].admission != now[n].admission {
      assert n == m || now[n] == cs[n];
    }
  }

  lemma AdmitLedger(s: LoopState, token: Token, now: nat)
    requires Keyed(s) && Ledger(s) && token.mint !in s.candidates
    ensures Keyed(Admitted(s, token, now)) && Ledger(Admitted(s, token, now))
  {
    AdmitAccounts(s.candidates, s.outcomes, s.admissions, token.mint, NewCandidate(token, s.admissions, now));
  }

  lemma NewCandidateOk(token: Token, admission: nat, now: nat, cfg: Config)
    ensures CandOk(NewCandidate(token, admission, now), token.mint, cfg)
  {
  }

  lemma AdmitBooks(s: LoopState, token: Token, now: nat, cfg: Config)
    requires Books(s, cfg) && token.mint !in s.candidates
    ensures Books(Admitted(s, token, now), cfg)
  {
    AdmitLedger(s, token, now);
    NewCandidateOk(token, s.admissions, now, cfg);
    assert Sound(Admitted(s, token, now), cfg);
  }

  lemma OnGate1Books(s: LoopState, token: Token, passed: bool, local: LocalGate, cfg: Config, env: Env)
    requires Books(s, cfg)
    ensures Books(OnGate1(s, token, passed, local, cfg, env), cfg)
  {
    if token.mint !in s.candidates && passed {
      AdmitBooks(s, token, env.now, cfg);
      match local
      case LocalHit(r) => ResolveBooks(Admitted(s, token, env.now), token.mint, r, cfg, env);
      case LocalMiss => TasksBooks(Admitted(s, token, env.now), s.tasks + [GateTask(token.mint, s.admissions)], cfg);
      case LocalFailed =>
    }
  }

  /** The books do not depend on which tasks are outstanding. */
  lemma TasksBooks(s: LoopState, tasks: seq<Task>, cfg: Config)
    requires Books(s, cfg)
    ensures Books(s.(tasks := tasks), cfg)
  {
  }

  lemma OnProfileBooks(s: LoopState, m: Mint, address: Address, profile: Option<BuyerProfile>, cfg: Config, env: Env)
    requires Books(s, cfg)
    ensures Books(OnProfile(s, m, address, profile, cfg, env), cfg)
  {
    if m in s.candidates {
      var c := s.candidates[m];
      var c' := Profiled(c, address, profile);
      RestatusFaithful(c, c', cfg.maxBuys);
      if c.status == Active {
        PutAndTryBooks(s, m, c', cfg, env);
      } else {
        PutBooks(s, m, c', cfg);
      }
    }
  }

  lemma RetireScored(s: LoopState, m: Mint, gate: Option<Gate>, trace: Trace, cfg: Config)
    requires Books(s, cfg) && !s.halted && HasStatus(s, m, Finalizing)
    requires trace.gate2AtMs == s.candidates[m].trace.gate2AtMs
        && trace.gate3TriggerAtMs == s.candidates[m].trace.gate3TriggerAtMs
    requires gate.None? ==> trace.gate4AtMs.Some?
    ensures var s1 := Retire(s, m, gate, trace);
            && Keyed(s1) && Ledger(s1) && Sound(s1, cfg)
            && (forall j :: 0 <= j < |s1.outcomes| ==> Evidenced(s1.outcomes[j]))
            && PassedOf(s1.outcomes) == SignalIds(s.signals) + if gate.None? then [s.candidates[m].admission] else []
  {
    var c := s.candidates[m];
    RetireLedger(s, m, gate, trace);
    PassedSnoc(s.outcomes, Outcome(c.admission, c.mint, gate.None?, gate, trace));
  }

  lemma OnScoredBooks(s: LoopState, m: Mint, d: Decision, sent: bool, cfg: Config)
    requires Books(s, cfg) && !s.halted && HasStatus(s, m, Finalizing)
    requires d.signal.Some? ==> d.signal.value.admission == s.candidates[m].admission && d.gate4AtMs.Some?
    ensures Books(OnScored(s, m, d, sent), cfg)
  {
    var gate := if d.signal.Some? then None else Some(d.gate);
    var trace := s.candidates[m].trace.(gate4AtMs := d.gate4AtMs);
    RetireScored(s, m, gate, trace, cfg);
    var s1 := Retire(s, m, gate, trace);
    if d.signal.Some? && sent {
      SignalIdsSnoc(s1.signals, d.signal.value);
      SameBooks(s1, s1.(signals := s1.signals + [d.signal.value]), cfg);
    } else if d.signal.Some? {
      SameBooks(s1, s1.(halted := true), cfg);
    }
  }

  lemma SignalIdsSnoc(signals: seq<Signal>, signal: Signal)
    ensures SignalIds(signals + [signal]) == SignalIds(signals) + [signal.admission]
  {
  }

  /** The books but for the signals do not depend on the signals. */
  lemma SameBooks(s: LoopState, s': LoopState, cfg: Config)
    requires Keyed(s) && Ledger(s) && Sound(s, cfg)
    requires s'.candidates == s.candidates && s'.outcomes == s.outcomes && s'.admissions == s.admissions
    ensures Keyed(s') && Ledger(s') && Sound(s', cfg)
  {
  }

  lemma JudgeBooks(s: LoopState, m: Mint, c: Candidate, cfg: Config, env: Env)
    requires Books(s, cfg) && m in s.candidates
    requires CandOk(c, m, cfg) && c.admission == s.candidates[m].admission
    ensures Books(Judge(s, m, c, cfg, env), cfg)
  {
    if c.status == Active {
      PutAndTryBooks(s, m, c, cfg, env);
    } else {
      PutBooks(s, m, c, cfg);
    }
  }

  lemma EvaluateBooks(s: LoopState, m: Mint, c: Candidate, cfg: Config, env: Env)
    requires Books(s, cfg) && m in s.candidates
    requires CandOk(c, m, cfg) && c.admission == s.candidates[m].admission
    ensures Books(Evaluate(s, m, c, cfg, env), cfg)
  {
    if RejectNow(c, cfg, env).Some? {
      PutBooks(s, m, c, cfg);
      RetireBooks(Put(s, m, c), m, Gate3, c.trace, cfg);
    } else {
      JudgeBooks(s, m, c, cfg, env);
    }
  }

  lemma AcceptBooks(s: LoopState, m: Mint, buy: Buy, cfg: Config, env: Env)
    requires Books(s, cfg) && m in s.candidates
    requires FindBuy(s.candidates[m].earlyBuys, buy.signature).None? && |s.candidates[m].earlyBuys| < cfg.maxBuys
    ensures var c := s.candidates[m];
            var tasks := s.tasks + Spawned(c, buy.buyer, cfg);
            Books(Evaluate(s.(tasks := tasks), m, Accepted(c, buy, cfg, env.nowMs), cfg, env), cfg)
  {
    var c := s.candidates[m];
    AcceptFaithful(c, cfg.maxBuys, buy);
    var c' := Accepted(c, buy, cfg, env.nowMs);
    RestatusFaithful(Accept(c, buy), c', cfg.maxBuys);
    var tasks := s.tasks + Spawned(c, buy.buyer, cfg);
    TasksBooks(s, tasks, cfg);
    EvaluateBooks(s.(tasks := tasks), m, c', cfg, env);
  }

  lemma MergeBooks(s: LoopState, m: Mint, k: nat, buy: Buy, cfg: Config, env: Env)
    requires Books(s, cfg) && m in s.candidates
    requires k < |s.candidates[m].earlyBuys| && s.candidates[m].earlyBuys[k].signature == buy.signature
    ensures Books(Judge(s, m, Merge(s.candidates[m], k, buy), cfg, env), cfg)
    ensures Books(Put(s, m, Merge(s.candidates[m], k, buy)), cfg)
  {
    var c := s.candidates[m];
    MergeFaithful(c, cfg.maxBuys, k, buy);
    PutBooks(s, m, Merge(c, k, buy), cfg);
    JudgeBooks(s, m, Merge(c, k, buy), cfg, env);
  }

  lemma OnBuyBooks(s: LoopState, buy: Buy, cfg: Config, env: Env)
    requires Books(s, cfg)
    ensures Books(OnBuy(s, buy, cfg, env), cfg)
  {
    var m := buy.mint;
    if m !in s.candidates || s.candidates[m].status == Finalizing {
      assert OnBuy(s, buy, cfg, env) == s;
    } else {
      var c := s.candidates[m];
      match FindBuy(c.earlyBuys, buy.signature)
      case Some(k) => RepeatBooks(s, m, k, buy, cfg, env);
      case None =>
        if |c.earlyBuys| < cfg.maxBuys {
          AcceptBooks(s, m, buy, cfg, env);
        } else {
          assert OnBuy(s, buy, cfg, env) == s;
        }
    }
  }

  /** A repeated delivery is merged and judged, or merged only. */
  lemma RepeatIsMerge(s: LoopState, m: Mint, k: nat, buy: Buy, cfg: Config, env: Env)
    requires m == buy.mint && m in s.candidates && s.candidates[m].status != Finalizing
    requires FindBuy(s.candidates[m].earlyBuys, buy.signature) == Some(k)
    ensures var c', s' := Merge(s.candidates[m], k, buy), OnBuy(s, buy, cfg, env);
            s' == Judge(s, m, c', cfg, env) || s' == Put(s, m, c')
  {
  }

  lemma RepeatBooks(s: LoopState, m: Mint, k: nat, buy: Buy, cfg: Config, env: Env)
    requires Books(s, cfg) && m == buy.mint && m in s.candidates && s.candidates[m].status != Finalizing
    requires FindBuy(s.candidates[m].earlyBuys, buy.signature) == Some(k)
    ensures Books(OnBuy(s, buy, cfg, env), cfg)
  {
    RepeatIsMerge(s, m, k, buy, cfg, env);
    MergeBooks(s, m, k, buy, cfg, env);
  }

  lemma {:induction false} RetireAllBooks(s: LoopState, order: seq<Mint>, cfg: Config)
    requires Books(s, cfg)
    ensures Books(RetireAll(s, order), cfg)
  {
    if order != [] {
      var n := |order| - 1;
      RetireAllBooks(s, order[..n], cfg);
      var s1 := RetireAll(s, order[..n]);
      if order[n] in s1.candidates {
        RetireBooks(s1, order[n], Gate3, s1.candidates[order[n]].trace, cfg);
      }
    }
  }

  // ---------------------------------------------------------------- one step

  ghost predicate Inv(s: LoopState, cfg: Config) {
    Books(s, cfg) && (s.halted || Coupled(s))
  }

  lemma ExpiredActive(s: LoopState, cfg: Config, envs: map<Mint, Env>, order: seq<Mint>)
    requires s.candidates.Keys <= envs.Keys && Enumerates(order, Expired(s.candidates, cfg, envs))
    ensures forall m :: m in order ==> HasStatus(s, m, Active)
  {
    forall m | m in order
      ensures HasStatus(s, m, Active)
    {
      assert m in (set x | x in order);
      assert m in Expired(s.candidates, cfg, envs);
    }
  }

  /** A score message finds the candidate whose admission spawned it, still finalizing. */
  lemma ScoredStep(s: LoopState, i: nat, env: Env, later: HotLists, sent: bool, cfg: Config)
    requires Inv(s, cfg) && Enabled(s, Scored(i, env, later, sent), cfg)
    ensures Inv(Step(s, Scored(i, env, later, sent), cfg), cfg)
  {
    var t := s.tasks[i];
    var d := ScoreCandidate(t.snapshot, cfg, env, later);
    TakenQuiet(s, i, ScoreMessage);
    TasksBooks(s, RemoveAt(s.tasks, i), cfg);
    OnScoredBooks(Taken(s, i), t.mint, d, sent, cfg);
    OnScoredCoupled(Taken(s, i), t.mint, d, sent);
  }

  /** Every event keeps the invariant. */
  lemma StepKeepsInv(s: LoopState, e: Event, cfg: Config)
    requires Inv(s, cfg) && Enabled(s, e, cfg)
    ensures Inv(Step(s, e, cfg), cfg)
  {
    match e
    case Gate1Done(token, passed, local, env) =>
      OnGate1Books(s, token, passed, local, cfg, env);
      OnGate1Coupled(s, token, passed, local, cfg, env);
    case GateResolved(i, r, env) =>
      TakenQuiet(s, i, GateMessage);
      TasksBooks(s, RemoveAt(s.tasks, i), cfg);
      ResolveBooks(Taken(s, i), s.tasks[i].mint, r, cfg, env);
      ResolveCoupled(Taken(s, i), s.tasks[i].mint, r, cfg, env);
    case ProfileResolved(i, profile, env) =>
      ProfileTaskUncoupled(s, Taken(s, i));
      TasksBooks(s, RemoveAt(s.tasks, i), cfg);
      OnProfileBooks(Taken(s, i), s.tasks[i].mint, s.tasks[i].address, profile, cfg, env);
      OnProfileCoupled(Taken(s, i), s.tasks[i].mint, s.tasks[i].address, profile, cfg, env);
    case Scored(i, env, later, sent) =>
      ScoredStep(s, i, env, later, sent, cfg);
    case BuyArrived(buy, env) =>
      OnBuyBooks(s, buy, cfg, env);
      OnBuyCoupled(s, buy, cfg, env);
    case Tick(envs, order) =>
      ExpiredActive(s, cfg, envs, order);
      RetireAllBooks(s, order, cfg);
      RetireAllCoupled(s, order);
  }

  function Rank(status: Status): nat {
    match status case CreatorPending => 0 case Active => 1 case Finalizing => 2
  }

  /** From one state to the next a surviving admission never moves back, and numbers are not reused. */
  ghost predicate Forward(s: LoopState, s': LoopState) {
    && s.admissions <= s'.admissions
    && forall m :: m in s'.candidates ==>
         || (m in s.candidates && s.candidates[m].admission == s'.candidates[m].admission
             && Rank(s.candidates[m].status) <= Rank(s'.candidates[m].status))
         || (m !in s.candidates && s'.candidates[m].admission >= s.admissions)
  }

  lemma {:induction false} RetireAllKeeps(s: LoopState, order: seq<Mint>)
    ensures RetireAll(s, order).admissions == s.admissions
    ensures forall m :: m in RetireAll(s, order).candidates ==>
              m in s.candidates && RetireAll(s, order).candidates[m] == s.candidates[m]
  {
    if order != [] {
      RetireAllKeeps(s, order[..|order| - 1]);
    }
  }

  /** Only the candidate of mint `m` changed, and it did not move back. */
  ghost predicate Moves(s: LoopState, s': LoopState, m: Mint) {
    && s'.admissions == s.admissions
    && s'.candidates.Keys <= s.candidates.Keys
    && (forall n :: n in s'.candidates && n != m ==> s'.candidates[n] == s.candidates[n])
    && (m in s'.candidates ==> s'.candidates[m].admission == s.candidates[m].admission
                               && Rank(s.candidates[m].status) <= Rank(s'.candidates[m].status))
  }

  lemma PutMoves(s: LoopState, m: Mint, c: Candidate)
    requires m in s.candidates && c.admission == s.candidates[m].admission
    requires Rank(s.candidates[m].status) <= Rank(c.status)
    ensures Moves(s, Put(s, m, c), m)
  {
  }

  lemma FinalizeMoves(s: LoopState, m: Mint, c: Candidate, path: Gate3Path, nowMs: nat)
    requires m in s.candidates && c.admission == s.candidates[m].admission
    ensures Moves(s, Finalize(s, m, c, path, nowMs), m)
  {
  }

  lemma PutAndTryMoves(s: LoopState, m: Mint, c: Candidate, cfg: Config, env: Env)
    requires m in s.candidates && c.admission == s.candidates[m].admission
    requires Rank(s.candidates[m].status) <= Rank(c.status)
    ensures Moves(s, PutAndTry(s, m, c, cfg, env), m)
  {
    match ShouldFinalize(c, cfg, env)
    case None => PutMoves(s, m, c);
    case Some(path) => FinalizeMoves(s, m, c, path, env.nowMs);
  }

  lemma RetireMoves(s: LoopState, m: Mint, gate: Option<Gate>, trace: Trace)
    requires m in s.candidates
    ensures Moves(s, Retire(s, m, gate, trace), m)
  {
  }

  lemma JudgeMoves(s: LoopState, m: Mint, c: Candidate, cfg: Config, env: Env)
    requires m in s.candidates && c.admission == s.candidates[m].admission && c.status == s.candidates[m].status
    ensures Moves(s, Judge(s, m, c, cfg, env), m)
  {
    PutMoves(s, m, c);
    PutAndTryMoves(s, m, c, cfg, env);
  }

  lemma EvaluateMoves(s: LoopState, m: Mint, c: Candidate, cfg: Config, env: Env)
    requires m in s.candidates && c.admission == s.candidates[m].admission && c.status == s.candidates[m].status
    ensures Moves(s, Evaluate(s, m, c, cfg, env), m)
  {
    PutMoves(s, m, c);
    RetireMoves(Put(s, m, c), m, Some(Gate3), c.trace);
    JudgeMoves(s, m, c, cfg, env);
  }

  lemma OnBuyMoves(s: LoopState, buy: Buy, cfg: Config, env: Env)
    ensures Moves(s, OnBuy(s, buy, cfg, env), buy.mint)
  {
    var m := buy.mint;
    if m in s.candidates && s.candidates[m].status != Finalizing {
      var c := s.candidates[m];
      match FindBuy(c.earlyBuys, buy.signature)
      case Some(k) =>
        PutMoves(s, m, Merge(c, k, buy));
        JudgeMoves(s, m, Merge(c, k, buy), cfg, env);
      case None =>
        var tasks := s.tasks + Spawned(c, buy.buyer, cfg);
        EvaluateMoves(s.(tasks := tasks), m, Accepted(c, buy, cfg, env.nowMs), cfg, env);
    }
  }

  lemma OnProfileMoves(s: LoopState, m: Mint, address: Address, profile: Option<BuyerProfile>, cfg: Config, env: Env)
    ensures Moves(s, OnProfile(s, m, address, profile, cfg, env), m)
  {
    if m in s.candidates {
      var c := s.candidates[m];
      var c' := Profiled(c, address, profile);
      PutMoves(s, m, c');
      PutAndTryMoves(s, m, c', cfg, env);
    }
  }

  lemma ResolveMoves(s: LoopState, m: Mint, r: GateResult, cfg: Config, env: Env)
    requires HasStatus(s, m, CreatorPending)
    ensures Moves(s, Resolve(s, m, r, cfg, env), m)
  {
    var c := s.candidates[m];
    var trace := c.trace.(gate2AtMs := Some(r.readyAtMs));
    if r.passed {
      PutAndTryMoves(s, m, c.(status := Active, creatorProfile := r.profile, gate2Penalty := r.penalty,
                              trace := trace.(gate3OpenAtMs := FirstOf(trace.gate3OpenAtMs, r.readyAtMs))), cfg, env);
    } else {
      RetireMoves(s, m, Some(Gate2), trace);
    }
  }

  lemma OnGate1Forward(s: LoopState, token: Token, passed: bool, local: LocalGate, cfg: Config, env: Env)
    ensures Forward(s, OnGate1(s, token, passed, local, cfg, env))
  {
    if token.mint !in s.candidates && passed {
      var admitted := Admitted(s, token, env.now);
      assert Forward(s, admitted);
      if local.LocalHit? {
        ResolveMoves(admitted, token.mint, local.result, cfg, env);
      }
    }
  }

  lemma ScoredForward(s: LoopState, i: nat, d: Decision, sent: bool)
    requires i < |s.tasks|
    ensures Forward(s, OnScored(Taken(s, i), s.tasks[i].mint, d, sent))
  {
  }

  lemma MovesForward(s: LoopState, s1: LoopState, s': LoopState, m: Mint)
    requires s1.candidates == s.candidates && s1.admissions == s.admissions && Moves(s1, s', m)
    ensures Forward(s, s')
  {
  }

  lemma StepForward(s: LoopState, e: Event, cfg: Config)
    requires Inv(s, cfg) && Enabled(s, e, cfg)
    ensures Forward(s, Step(s, e, cfg))
  {
    var s' := Step(s, e, cfg);
    match e
    case GateResolved(i, r, env) =>
      TakenQuiet(s, i, GateMessage);
      ResolveMoves(Taken(s, i), s.tasks[i].mint, r, cfg, env);
      MovesForward(s, Taken(s, i), s', s.tasks[i].mint);
    case Scored(i, env, later, sent) => ScoredForward(s, i, ScoreCandidate(s.tasks[i].snapshot, cfg, env, later), sent);
    case Tick(envs, order) => RetireAllKeeps(s, order);
    case Gate1Done(token, passed, local, env) => OnGate1Forward(s, token, passed, local, cfg, env);
    case ProfileResolved(i, profile, env) =>
      OnProfileMoves(Taken(s, i), s.tasks[i].mint, s.tasks[i].address, profile, cfg, env);
      MovesForward(s, Taken(s, i), s', s.tasks[i].mint);
    case BuyArrived(buy, env) =>
      OnBuyMoves(s, buy, cfg, env);
      MovesForward(s, s, s', buy.mint);
  }

  // ---------------------------------------------------------------- whole runs

  /** `states` are the states a run passes through when it handles `events` one after the other. */
  ghost predicate Run(states: seq<LoopState>, events: seq<Event>, cfg: Config) {
    && |states| == |events| + 1
    && states[0] == Initial
    && forall i :: 0 <= i < |events| ==>
         Enabled(states[i], events[i], cfg) && states[i + 1] == Step(states[i], events[i], cfg)
  }

  lemma {:induction false} RunKeepsInv(states: seq<LoopState>, events: seq<Event>, cfg: Config, n: nat)
    requires Run(states, events, cfg) && n <= |events|
    ensures Inv(states[n], cfg)
  {
    if n == 0 {
      forall m ensures CoupledAt(Initial, m) {
      }
    } else {
      RunKeepsInv(states, events, cfg, n - 1);
      StepKeepsInv(states[n - 1], events[n - 1], cfg);
    }
  }

  /**
   * In every state a run passes through before it stops: a mint's candidate is pending exactly when one
   * creator-gate message is outstanding for the mint, finalizing exactly when one score message is, and
   * while it is active, or there is none, neither is outstanding.
   */
  lemma OneMessagePerStatus(states: seq<LoopState>, events: seq<Event>, cfg: Config, n: nat, m: Mint)
    requires Run(states, events, cfg) && n <= |events| && !states[n].halted
    ensures var s := states[n];
            && (HasStatus(s, m, CreatorPending) <==> Outstanding(s.tasks, GateMessage, m) == 1)
            && (HasStatus(s, m, Finalizing) <==> Outstanding(s.tasks, ScoreMessage, m) == 1)
            && (HasStatus(s, m, Active) || m !in s.candidates ==>
                  Outstanding(s.tasks, GateMessage, m) == 0 && Outstanding(s.tasks, ScoreMessage, m) == 0)
            && (forall t :: t in s.tasks && (IsFor(t, GateMessage, m) || IsFor(t, ScoreMessage, m)) ==>
                  m in s.candidates && AdmissionOf(t) == s.candidates[m].admission)
  {
    RunKeepsInv(states, events, cfg, n);
    assert CoupledAt(states[n], m);
  }

  /** Consecutive states go forward and number their candidates below the admission counter. */
  ghost predicate Chain(states: seq<LoopState>) {
    && (forall i :: 0 <= i && i + 1 < |states| ==> Forward(states[i], states[i + 1]))
    && (forall i, m :: 0 <= i < |states| && m in states[i].candidates ==>
        states[i].candidates[m].admission < states[i].admissions)
  }

  lemma RunIsChain(states: seq<LoopState>, events: seq<Event>, cfg: Config)
    requires Run(states, events, cfg)
    ensures Chain(states)
  {
    forall i | 0 <= i < |states|
      ensures forall m :: m in states[i].candidates ==> states[i].candidates[m].admission < states[i].admissions
    {
      RunKeepsInv(states, events, cfg, i);
    }
    forall i | 0 <= i && i + 1 < |states|
      ensures Forward(states[i], states[i + 1])
    {
      RunKeepsInv(states, events, cfg, i);
      StepForward(states[i], events[i], cfg);
    }
  }

  lemma {:induction false} ChainForward(states: seq<LoopState>, i: nat, j: nat, m: Mint)
    requires Chain(states) && i <= j < |states|
    ensures states[i].admissions <= states[j].admissions
    ensures m in states[i].candidates && m in states[j].candidates
            && states[i].candidates[m].admission == states[j].candidates[m].admission
            ==> Rank(states[i].candidates[m].status) <= Rank(states[j].candidates[m].status)
  {
    if i < j {
      ChainForward(states, i, j - 1, m);
      assert Forward(states[j - 1], states[j - 1 + 1]);
    }
  }

  /** Within one admission the status never moves back, however far apart the two states are. */
  lemma StatusMovesForward(states: seq<LoopState>, events: seq<Event>, cfg: Config, i: nat, j: nat, m: Mint)
    requires Run(states, events, cfg) && i <= j <= |events|
    requires m in states[i].candidates && m in states[j].candidates
    requires states[i].candidates[m].admission == states[j].candidates[m].admission
    ensures Rank(states[i].candidates[m].status) <= Rank(states[j].candidates[m].status)
  {
    RunIsChain(states, events, cfg);
    ChainForward(states, i, j, m);
  }

  ghost predicate Live(s: LoopState, id: nat) {
    exists m :: m in s.candidates && s.candidates[m].admission == id
  }

  function OutcomesOf(outcomes: seq<Outcome>, id: nat): nat {
    if outcomes == [] then 0
    else OutcomesOf(outcomes[..|outcomes| - 1], id) + if outcomes[|outcomes| - 1].admission == id then 1 else 0
  }

  lemma {:induction false} OutcomesOfDistinct(outcomes: seq<Outcome>, id: nat)
    requires forall j, k :: 0 <= j < k < |outcomes| ==> outcomes[j].admission != outcomes[k].admission
    ensures OutcomesOf(outcomes, id) == if exists j :: 0 <= j < |outcomes| && outcomes[j].admission == id then 1 else 0
  {
    if outcomes != [] {
      var n := |outcomes| - 1;
      OutcomesOfDistinct(outcomes[..n], id);
      if j :| 0 <= j < |outcomes[..n]| && outcomes[..n][j].admission == id {
        assert outcomes[j].admission == id;
      } else {
        assert forall j :: 0 <= j < n ==> outcomes[..n][j] == outcomes[j];
      }
    }
  }

  lemma {:induction false} LiveIdsCount(candidates: map<Mint, Candidate>, keys: set<Mint>)
    requires keys <= candidates.Keys
    requires forall m, n :: m in keys && n in keys && m != n ==> candidates[m].admission != candidates[n].admission
    ensures |set m | m in keys :: candidates[m].admission| == |keys|
    decreases |keys|
  {
    if keys != {} {
      var k :| k in keys;
      LiveIdsCount(candidates, keys - {k});
      var rest := set m | m in keys - {k} :: candidates[m].admission;
      assert (set m | m in keys :: candidates[m].admission) == rest + {candidates[k].admission};
    }
  }

  lemma {:induction false} OutcomeIdsCount(outcomes: seq<Outcome>)
    requires forall j, k :: 0 <= j < k < |outcomes| ==> outcomes[j].admission != outcomes[k].admission
    ensures |set o | o in outcomes :: o.admission| == |outcomes|
  {
    if outcomes != [] {
      var n := |outcomes| - 1;
      OutcomeIdsCount(outcomes[..n]);
      assert outcomes == outcomes[..n] + [outcomes[n]];
      assert (set o | o in outcomes :: o.admission) == (set o | o in outcomes[..n] :: o.admission)
          + {outcomes[n].admission};
    }
  }

  lemma {:induction false} FullRange(ids: set<nat>, n: nat)
    requires |ids| == n && forall i :: i in ids ==> i < n
    ensures forall i: nat :: i < n ==> i in ids
  {
    if n > 0 {
      if n - 1 in ids {
        FullRange(ids - {n - 1}, n - 1);
      } else {
        RangeBound(ids, n - 1);
      }
    }
  }

  lemma {:induction false} RangeBound(ids: set<nat>, n: nat)
    requires forall i :: i in ids ==> i < n
    ensures |ids| <= n
  {
    if n == 0 {
      assert ids == {};
    } else {
      RangeBound(ids - {n - 1}, n - 1);
    }
  }

  lemma EveryIdAccounted(cs: map<Mint, Candidate>, outcomes: seq<Outcome>, admissions: nat, id: nat)
    requires Filed(cs, admissions) && Accounted(cs, outcomes, admissions) && id < admissions
    ensures || (exists m :: m in cs && cs[m].admission == id)
            || (exists j :: 0 <= j < |outcomes| && outcomes[j].admission == id)
  {
    var live := set m | m in cs.Keys :: cs[m].admission;
    var done := set o | o in outcomes :: o.admission;
    LiveIdsCount(cs, cs.Keys);
    OutcomeIdsCount(outcomes);
    assert live !! done by {
      forall x | x in live ensures x !in done {
        var m :| m in cs.Keys && cs[m].admission == x;
      }
    }
    assert |live + done| == |live| + |done|;
    assert |cs| == |cs.Keys|;
    FullRange(live + done, admissions);
    assert id in live + done;
    if id in done {
      var j :| 0 <= j < |outcomes| && outcomes[j].admission == id;
    }
  }

  /**
   * Over any run, admissions are conserved: their number is that of the live candidates plus that of the
   * outcomes enqueued, and each single admission is either live and without outcome or gone with exactly one.
   */
  lemma AdmissionsConserved(states: seq<LoopState>, events: seq<Event>, cfg: Config, n: nat, id: nat)
    requires Run(states, events, cfg) && n <= |events|
    ensures var s := states[n];
            && s.admissions == |s.candidates| + |s.outcomes|
            && (Live(s, id) ==> id < s.admissions)
            && OutcomesOf(s.outcomes, id) == (if id < s.admissions && !Live(s, id) then 1 else 0)
  {
    RunKeepsInv(states, events, cfg, n);
    var s := states[n];
    OutcomesOfDistinct(s.outcomes, id);
    if id < s.admissions {
      EveryIdAccounted(s.candidates, s.outcomes, s.admissions, id);
    }
  }

  lemma {:induction false} PassedIndex(outcomes: seq<Outcome>, k: nat) returns (j: nat)
    requires k < |PassedOf(outcomes)|
    ensures j < |outcomes| && outcomes[j].passed && outcomes[j].admission == PassedOf(outcomes)[k]
  {
    var n := |outcomes| - 1;
    var before := PassedOf(outcomes[..n]);
    if k < |before| {
      j := PassedIndex(outcomes[..n], k);
    } else {
      j := n;
    }
  }

  lemma {:induction false} PassedDistinct(outcomes: seq<Outcome>, k: nat, l: nat)
    requires k < l < |PassedOf(outcomes)|
    requires forall a, b :: 0 <= a < b < |outcomes| ==> outcomes[a].admission != outcomes[b].admission
    ensures PassedOf(outcomes)[k] != PassedOf(outcomes)[l]
  {
    var n := |outcomes| - 1;
    if l < |PassedOf(outcomes[..n])| {
      PassedDistinct(outcomes[..n], k, l);
    } else {
      var j := PassedIndex(outcomes[..n], k);
    }
  }

  /**
   * Every signal belongs to an admission that passed gate 2 and recorded a gate-3 trigger, its outcome
   * says so, and no other signal carries that admission, even if the mint was admitted again. Until the
   * loop stops the correspondence is exact: the signals are those of the passed outcomes, in order.
   */
  lemma SignalsBelongToAdmissions(states: seq<LoopState>, events: seq<Event>, cfg: Config, n: nat, k: nat)
    requires Run(states, events, cfg) && n <= |events| && k < |states[n].signals|
    ensures var s := states[n];
            && (exists j :: 0 <= j < |s.outcomes|
                  && s.outcomes[j].admission == s.signals[k].admission && s.outcomes[j].passed
                  && s.outcomes[j].trace.gate2AtMs.Some? && s.outcomes[j].trace.gate3TriggerAtMs.Some?)
            && (forall l :: 0 <= l < |s.signals| && l != k ==> s.signals[l].admission != s.signals[k].admission)
            && (!s.halted ==> SignalIds(s.signals) == PassedOf(s.outcomes))
  {
    RunKeepsInv(states, events, cfg, n);
    var s := states[n];
    var ids, passed := SignalIds(s.signals), PassedOf(s.outcomes);
    assert ids[k] == passed[k];
    var j := PassedIndex(s.outcomes, k);
    assert Evidenced(s.outcomes[j]);
    forall l | 0 <= l < |s.signals| && l != k
      ensures s.signals[l].admission != s.signals[k].admission
    {
      assert ids[l] == passed[l];
      if l < k {
        PassedDistinct(s.outcomes, l, k);
      } else {
        PassedDistinct(s.outcomes, k, l);
      }
    }
  }
}
