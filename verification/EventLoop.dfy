/**
 * The filter's event loop as a state machine. `LoopState` holds the candidate map, the spawned tasks
 * whose message has not been handled yet, and what the loop has put on its outgoing queues; one event
 * is one branch of the loop's select. Tasks carry the admission they were spawned for, which no
 * handler looks at: messages are matched to candidates by mint alone.
 */
module EventLoop {
  import opened Wrappers
  import opened FilterTypes
  import opened BuyFeed
  import opened SmartMoney
  import opened Gate3
  import opened Scoring

  datatype Token = Token(
    mint: Mint, creator: Address, detectedAtMs: nat,
    gate1AtMs: nat, gate1Penalty: nat, templateRepeats: nat, narrativeTiers: seq<Tier>)

  datatype GateResult = GateResult(passed: bool, profile: Option<CreatorProfile>, penalty: nat, readyAtMs: nat)

  /** What the local creator-gate lookup answers: an error, nothing cached, or a result. */
  datatype LocalGate = LocalFailed | LocalMiss | LocalHit(result: GateResult)

  /** A spawned task whose message is still to be handled. */
  datatype Task =
    | GateTask(mint: Mint, admission: nat)
    | ProfileTask(mint: Mint, address: Address, admission: nat)
    | ScoreTask(mint: Mint, snapshot: Candidate)

  datatype Gate = Gate2 | Gate3 | Gate4

  datatype Outcome = Outcome(admission: nat, mint: Mint, passed: bool, gate: Option<Gate>, trace: Trace)

  datatype Signal = Signal(admission: nat, mint: Mint, path: Gate3Path, score: Score, triggerTrade: Buy)

  datatype Decision = Decision(gate: Gate, signal: Option<Signal>, gate4AtMs: Option<nat>)

  datatype LoopState = LoopState(
    candidates: map<Mint, Candidate>,
    tasks: seq<Task>,
    outcomes: seq<Outcome>,
    signals: seq<Signal>,
    gate1Rejects: seq<Mint>,
    admissions: nat,
    halted: bool)

  datatype Event =
    | Gate1Done(token: Token, passed: bool, local: LocalGate, env: Env)
    | GateResolved(task: nat, result: GateResult, env: Env)
    | ProfileResolved(task: nat, profile: Option<BuyerProfile>, env: Env)
    | Scored(task: nat, env: Env, later: HotLists, sent: bool)
    | BuyArrived(buy: Buy, env: Env)
    | Tick(envs: map<Mint, Env>, order: seq<Mint>)

  const Initial := LoopState(map[], [], [], [], [], 0, false)

  // ---------------------------------------------------------------- scoring task

  predicate TriggerEligible(cfg: Config, cand: Candidate, hot: HotLists, buy: Buy) {
    && buy.buyer !in hot.blockedBuyers
    && !(cfg.selfBuyBlock && buy.buyer == cand.creator)
    && (ModeOf(cfg, hot) == Hotlist ==> OnHotlist(LensOf(cand, cfg, hot), buy.buyer))
  }

  /** The first early buy that may be mirrored, if there is one. */
  function SelectTriggerTrade(cfg: Config, cand: Candidate, hot: HotLists, buys: seq<Buy>): (trade: Option<Buy>)
    ensures trade.Some? ==> trade.value in buys && TriggerEligible(cfg, cand, hot, trade.value)
    ensures trade.None? ==> forall b :: b in buys ==> !TriggerEligible(cfg, cand, hot, b)
  {
    if buys == [] then None
    else if TriggerEligible(cfg, cand, hot, buys[0]) then Some(buys[0])
    else SelectTriggerTrade(cfg, cand, hot, buys[1..])
  }

  /**
   * The decision on a snapshot. The statistics are taken again, and the hot lists may have been
   * reloaded since the trigger and again before the trade is selected. The fallback to the first early
   * buy is well defined because a trigger implies that there is one.
   */
  function ScoreCandidate(cand: Candidate, cfg: Config, env: Env, later: HotLists): (d: Decision)
    ensures d.signal.Some? ==>
      && d.signal.value.admission == cand.admission && d.signal.value.mint == cand.mint
      && d.signal.value.triggerTrade in cand.earlyBuys
      && d.gate4AtMs.Some?
      && Trigger(cfg, Stats(cand, cfg, env)) == Some(d.signal.value.path)
  {
    var stats := Stats(cand, cfg, env);
    match Trigger(cfg, stats)
    case None => Decision(Gate3, None, None)
    case Some(path) =>
      var score := ScoreOf(cand, stats, cfg, env, path);
      if SniperVeto(cfg, stats, env, path, score) then Decision(Gate4, None, Some(env.nowMs))
      else
        TriggerBacked(cand, cfg, env);
        var trade := match SelectTriggerTrade(cfg, cand, later, cand.earlyBuys)
                     case Some(b) => b
                     case None => cand.earlyBuys[0];
        Decision(Gate4, Some(Signal(cand.admission, cand.mint, path, score, trade)), Some(env.nowMs))
  }

  // ---------------------------------------------------------------- handlers

  function RemoveAt<T>(s: seq<T>, i: nat): seq<T>
    requires i < |s|
  {
    s[..i] + s[i + 1..]
  }

  function FirstOf<T>(old_: Option<T>, new_: T): Option<T> {
    if old_.Some? then old_ else Some(new_)
  }

  function NewCandidate(token: Token, admission: nat, now: nat): Candidate {
    Candidate(admission, token.mint, token.creator, now, token.detectedAtMs, CreatorPending,
              token.gate1Penalty, token.templateRepeats, token.narrativeTiers, 0, [], {}, None, map[], {},
              Trace(Some(token.gate1AtMs), None, None, None, None, None), [])
  }

  function Put(s: LoopState, m: Mint, c: Candidate): LoopState {
    s.(candidates := s.candidates[m := c])
  }

  /** Takes the candidate out of the map and enqueues its outcome. */
  function Retire(s: LoopState, m: Mint, gate: Option<Gate>, trace: Trace): LoopState
    requires m in s.candidates
  {
    var c := s.candidates[m];
    s.(candidates := s.candidates - {m},
       outcomes := s.outcomes + [Outcome(c.admission, c.mint, gate.None?, gate, trace)])
  }

  /** Marks the candidate as finalizing and spawns the scoring of a copy of it. */
  function Finalize(s: LoopState, m: Mint, c: Candidate, path: Gate3Path, nowMs: nat): LoopState {
    var c' := c.(status := Finalizing, trace := c.trace.(gate3TriggerAtMs := Some(nowMs), path := Some(path)));
    Put(s, m, c').(tasks := s.tasks + [ScoreTask(c'.mint, c')])
  }

  /** Stores the candidate and, if gate 3 now triggers, finalizes it. */
  function PutAndTry(s: LoopState, m: Mint, c: Candidate, cfg: Config, env: Env): LoopState {
    match ShouldFinalize(c, cfg, env)
    case None => Put(s, m, c)
    case Some(path) => Finalize(s, m, c, path, env.nowMs)
  }

  function Resolve(s: LoopState, m: Mint, r: GateResult, cfg: Config, env: Env): LoopState {
    if m !in s.candidates then s
    else
      var c := s.candidates[m];
      var trace := c.trace.(gate2AtMs := Some(r.readyAtMs));
      if !r.passed then Retire(s, m, Some(Gate2), trace)
      else
        PutAndTry(s, m, c.(status := Active, creatorProfile := r.profile, gate2Penalty := r.penalty,
                           trace := trace.(gate3OpenAtMs := FirstOf(trace.gate3OpenAtMs, r.readyAtMs))), cfg, env)
  }

  function OnGate1(s: LoopState, token: Token, passed: bool, local: LocalGate, cfg: Config, env: Env): LoopState {
    if token.mint in s.candidates then s
    else if !passed then s.(gate1Rejects := s.gate1Rejects + [token.mint])
    else
      var admitted := Put(s, token.mint, NewCandidate(token, s.admissions, env.now)).(admissions := s.admissions + 1);
      match local
      case LocalFailed => admitted.(halted := true)
      case LocalMiss => admitted.(tasks := s.tasks + [GateTask(token.mint, s.admissions)])
      case LocalHit(r) => Resolve(admitted, token.mint, r, cfg, env)
  }

  /** The candidate once a fetch for one of its buyers has come back. */
  function Profiled(c: Candidate, address: Address, profile: Option<BuyerProfile>): Candidate {
    c.(pendingBuyerProfiles := c.pendingBuyerProfiles - {address},
       buyerProfiles := if profile.Some? then c.buyerProfiles[address := profile.value] else c.buyerProfiles)
  }

  function OnProfile(s: LoopState, m: Mint, address: Address, profile: Option<BuyerProfile>, cfg: Config, env: Env)
    : LoopState
  {
    if m !in s.candidates then s
    else
      var c := Profiled(s.candidates[m], address, profile);
      if c.status != Active then Put(s, m, c) else PutAndTry(s, m, c, cfg, env)
  }

  function OnScored(s: LoopState, m: Mint, d: Decision, sent: bool): LoopState {
    var s1 :=
      if m in s.candidates then
        Retire(s, m, if d.signal.Some? then None else Some(d.gate), s.candidates[m].trace.(gate4AtMs := d.gate4AtMs))
      else s;
    if d.signal.None? then s1
    else if sent then s1.(signals := s1.signals + [d.signal.value])
    else s1.(halted := true)
  }

  /** Gate 3 after a buy: finalizes the candidate if it now triggers, and otherwise leaves it as it is. */
  function Judge(s: LoopState, m: Mint, c: Candidate, cfg: Config, env: Env): LoopState {
    if c.status == Active then PutAndTry(s, m, c, cfg, env) else Put(s, m, c)
  }

  /** The reason on which a first delivery removes the candidate at once. */
  function RejectNow(c: Candidate, cfg: Config, env: Env): Option<Reject> {
    var reason := RejectReason(c, Stats(c, cfg, env), cfg);
    if c.status == Active && reason.Some? && Immediate(reason.value) then reason else None
  }

  function Evaluate(s: LoopState, m: Mint, c: Candidate, cfg: Config, env: Env): LoopState {
    if RejectNow(c, cfg, env).Some? then Retire(Put(s, m, c), m, Some(Gate3), c.trace) else Judge(s, m, c, cfg, env)
  }

  predicate WantsProfile(c: Candidate, buyer: Address, cfg: Config) {
    cfg.hasApiKey && buyer !in c.buyerProfiles && buyer !in c.pendingBuyerProfiles
  }

  /** The fetch that accepting a buy of this buyer starts, if it starts one. */
  function Spawned(c: Candidate, buyer: Address, cfg: Config): seq<Task> {
    if WantsProfile(c, buyer, cfg) then [ProfileTask(c.mint, buyer, c.admission)] else []
  }

  /** The candidate with a new buy accepted, and with the buyer's profile marked as being fetched if it is. */
  function Accepted(c: Candidate, buy: Buy, cfg: Config, nowMs: nat): Candidate {
    var a := Accept(c, buy);
    a.(trace := a.trace.(gate3OpenAtMs := FirstOf(a.trace.gate3OpenAtMs, nowMs)),
       pendingBuyerProfiles :=
         if WantsProfile(c, buy.buyer, cfg) then c.pendingBuyerProfiles + {buy.buyer} else c.pendingBuyerProfiles)
  }

  /** After an upgrade the handler returns before it looks at an immediate reject: only a first delivery removes. */
  function OnBuy(s: LoopState, buy: Buy, cfg: Config, env: Env): LoopState {
    if buy.mint !in s.candidates then s
    else
      var m := buy.mint;
      var c := s.candidates[m];
      if c.status == Finalizing then s
      else
        match FindBuy(c.earlyBuys, buy.signature)
        case Some(k) =>
          var c' := Merge(c, k, buy);
          if c'.earlyBuys[k] != c.earlyBuys[k] then Judge(s, m, c', cfg, env) else Put(s, m, c')
        case None =>
          if |c.earlyBuys| >= cfg.maxBuys then s
          else if SatSub(buy.detectedAt, c.createdAt) > HardRejectMs(cfg) then s
          else
            Evaluate(s.(tasks := s.tasks + Spawned(c, buy.buyer, cfg)), m, Accepted(c, buy, cfg, env.nowMs), cfg, env)
  }

  predicate ExpiredNow(c: Candidate, cfg: Config, env: Env) {
    c.status == Active && RejectReason(c, Stats(c, cfg, env), cfg).Some?
  }

  /** The mints whose candidate a tick rejects. */
  function Expired(candidates: map<Mint, Candidate>, cfg: Config, envs: map<Mint, Env>): set<Mint>
    requires candidates.Keys <= envs.Keys
  {
    set m | m in candidates && ExpiredNow(candidates[m], cfg, envs[m])
  }

  function RetireAll(s: LoopState, order: seq<Mint>): LoopState {
    if order == [] then s
    else
      var s1 := RetireAll(s, order[..|order| - 1]);
      var m := order[|order| - 1];
      if m in s1.candidates then Retire(s1, m, Some(Gate3), s1.candidates[m].trace) else s1
  }

  /** `order` lists the expired mints in the order in which the map happens to be enumerated. */
  ghost predicate Enumerates(order: seq<Mint>, mints: set<Mint>) {
    && (forall a, b :: 0 <= a < b < |order| ==> order[a] != order[b])
    && (set m | m in order) == mints
  }

  ghost predicate Enabled(s: LoopState, e: Event, cfg: Config) {
    && !s.halted
    && match e
       case Gate1Done(_, _, _, _) => true
       case GateResolved(i, _, _) => i < |s.tasks| && s.tasks[i].GateTask?
       case ProfileResolved(i, _, _) => i < |s.tasks| && s.tasks[i].ProfileTask?
       case Scored(i, _, _, _) => i < |s.tasks| && s.tasks[i].ScoreTask?
       case BuyArrived(_, _) => true
       case Tick(envs, order) =>
         s.candidates.Keys <= envs.Keys && Enumerates(order, Expired(s.candidates, cfg, envs))
  }

  function Taken(s: LoopState, i: nat): LoopState
    requires i < |s.tasks|
  {
    s.(tasks := RemoveAt(s.tasks, i))
  }

  ghost function Step(s: LoopState, e: Event, cfg: Config): LoopState
    requires Enabled(s, e, cfg)
  {
    match e
    case Gate1Done(token, passed, local, env) => OnGate1(s, token, passed, local, cfg, env)
    case GateResolved(i, r, env) => Resolve(Taken(s, i), s.tasks[i].mint, r, cfg, env)
    case ProfileResolved(i, profile, env) =>
      OnProfile(Taken(s, i), s.tasks[i].mint, s.tasks[i].address, profile, cfg, env)
    case Scored(i, env, later, sent) =>
      OnScored(Taken(s, i), s.tasks[i].mint, ScoreCandidate(s.tasks[i].snapshot, cfg, env, later), sent)
    case BuyArrived(buy, env) => OnBuy(s, buy, cfg, env)
    case Tick(envs, order) => RetireAll(s, order)
  }
}
