/**
 * Single-flight creator profile refreshes behind a bounded number of permits. Callers and refresh
 * tasks run concurrently and can be interrupted at every await point; each step below is one of the
 * sections that run without interruption.
 */
module Refresh {
  import opened Wrappers

  type Creator = string
  type Id = nat

  datatype Launch = Cooldown | Inflight | Busy | Started

  /**
   * Where a caller of the launch function stands. Only `Holding` owns a permit. A caller that is refused one has
   * its answer; if it has no cached profile either, it goes on to set a cooldown and then returns.
   */
  datatype Caller =
    | Entered(creator: Creator)
    | CooldownOver(creator: Creator)
    | SeenIdle(creator: Creator)
    | Holding(creator: Creator)
    | Refused(creator: Creator)
    | Returned(launch: Launch)

  /** A spawned refresh owns its permit from start to end, and its in-flight entry until it clears it. */
  datatype Phase = Remote | Settled | Cleared

  datatype Task = Task(creator: Creator, phase: Phase)

  datatype State = State(
    free: nat,
    inflight: set<Creator>,
    callers: map<Id, Caller>,
    tasks: map<Id, Task>,
    retryAfter: map<Creator, nat>,
    nextId: Id)

  datatype Step =
    | Call(creator: Creator)
    | CheckCooldown(id: Id, nowMs: nat)
    | CheckInflight(id: Id)
    | TryAcquire(id: Id)
    | TryInsert(id: Id)
    | BackOff(id: Id, nowMs: nat, cooldownMs: nat)
    | Settle(task: Id, ok: bool, nowMs: nat, cooldownMs: nat)
    | Clear(task: Id)
    | Finish(task: Id)

  predicate CallerAt(s: State, id: Id, c: Caller) {
    id in s.callers && s.callers[id] == c
  }

  predicate Enabled(s: State, step: Step) {
    match step
    case Call(_) => true
    case CheckCooldown(id, _) => id in s.callers && s.callers[id].Entered?
    case CheckInflight(id) => id in s.callers && s.callers[id].CooldownOver?
    case TryAcquire(id) => id in s.callers && s.callers[id].SeenIdle?
    case TryInsert(id) => id in s.callers && s.callers[id].Holding?
    case BackOff(id, _, _) => id in s.callers && s.callers[id].Refused?
    case Settle(t, _, _, _) => t in s.tasks && s.tasks[t].phase == Remote
    case Clear(t) => t in s.tasks && s.tasks[t].phase == Settled
    case Finish(t) => t in s.tasks && s.tasks[t].phase == Cleared
  }

  function Next(s: State, step: Step): State
    requires Enabled(s, step)
  {
    match step
    case Call(creator) => s.(callers := s.callers[s.nextId := Entered(creator)], nextId := s.nextId + 1)
    case CheckCooldown(id, nowMs) =>
      var creator := s.callers[id].creator;
      var until := if creator in s.retryAfter then s.retryAfter[creator] else 0;
      s.(callers := s.callers[id := if SatSub(until, nowMs) > 0 then Returned(Cooldown) else CooldownOver(creator)])
    case CheckInflight(id) =>
      var creator := s.callers[id].creator;
      s.(callers := s.callers[id := if creator in s.inflight then Returned(Inflight) else SeenIdle(creator)])
    case TryAcquire(id) =>
      if s.free == 0 then s.(callers := s.callers[id := Refused(s.callers[id].creator)])
      else s.(free := s.free - 1, callers := s.callers[id := Holding(s.callers[id].creator)])
    case TryInsert(id) =>
      var creator := s.callers[id].creator;
      if creator in s.inflight then s.(free := s.free + 1, callers := s.callers[id := Returned(Inflight)])
      else
        s.(inflight := s.inflight + {creator}, callers := s.callers[id := Returned(Started)],
           tasks := s.tasks[s.nextId := Task(creator, Remote)], nextId := s.nextId + 1)
    case BackOff(id, nowMs, cooldownMs) =>
      s.(callers := s.callers[id := Returned(Busy)],
         retryAfter := s.retryAfter[s.callers[id].creator := Min(nowMs + cooldownMs, U64_MAX)])
    case Settle(t, ok, nowMs, cooldownMs) =>
      var creator := s.tasks[t].creator;
      s.(tasks := s.tasks[t := Task(creator, Settled)],
         retryAfter := if ok then s.retryAfter - {creator}
                       else s.retryAfter[creator := Min(nowMs + cooldownMs, U64_MAX)])
    case Clear(t) =>
      var creator := s.tasks[t].creator;
      s.(tasks := s.tasks[t := Task(creator, Cleared)], inflight := s.inflight - {creator})
    case Finish(t) => s.(free := s.free + 1, tasks := s.tasks - {t})
  }

  function Start(capacity: nat): State {
    State(Max(capacity, 1), {}, map[], map[], map[], 0)
  }

  /** The shared state in fields; each method is one uninterrupted section. */
  class Shared {
    var free: nat
    var inflight: set<Creator>
    var callers: map<Id, Caller>
    var tasks: map<Id, Task>
    var retryAfter: map<Creator, nat>
    var nextId: Id

    function View(): State
      reads this
    {
      State(free, inflight, callers, tasks, retryAfter, nextId)
    }

    constructor (capacity: nat)
      ensures View() == Start(capacity)
    {
      free := if capacity >= 1 then capacity else 1;
      inflight, callers, tasks, retryAfter, nextId := {}, map[], map[], map[], 0;
    }

    method ReadCooldown(id: Id, nowMs: nat)
      requires Enabled(View(), CheckCooldown(id, nowMs))
      modifies this`callers
      ensures View() == Next(old(View()), CheckCooldown(id, nowMs))
    {
      var creator := callers[id].creator;
      var remaining := 0;
      if creator in retryAfter && retryAfter[creator] > nowMs {
        remaining := retryAfter[creator] - nowMs;
      }
      if remaining > 0 {
        callers := callers[id := Returned(Cooldown)];
      } else {
        callers := callers[id := CooldownOver(creator)];
      }
    }

    method ReadInflight(id: Id)
      requires Enabled(View(), CheckInflight(id))
      modifies this`callers
      ensures View() == Next(old(View()), CheckInflight(id))
    {
      var creator := callers[id].creator;
      if creator in inflight {
        callers := callers[id := Returned(Inflight)];
      } else {
        callers := callers[id := SeenIdle(creator)];
      }
    }

    method AcquirePermit(id: Id)
      requires Enabled(View(), TryAcquire(id))
      modifies this`callers, this`free
      ensures View() == Next(old(View()), TryAcquire(id))
    {
      var creator := callers[id].creator;
      if free == 0 {
        callers := callers[id := Refused(creator)];
        return;
      }
      free := free - 1;
      callers := callers[id := Holding(creator)];
    }

    /** The caller that loses the race returns, which gives its permit back. */
    method InsertInflight(id: Id)
      requires Enabled(View(), TryInsert(id))
      modifies this
      ensures View() == Next(old(View()), TryInsert(id))
    {
      var creator := callers[id].creator;
      var inserted := creator !in inflight;
      inflight := inflight + {creator};
      if !inserted {
        assert inflight == old(inflight);
        free := free + 1;
        callers := callers[id := Returned(Inflight)];
        return;
      }
      tasks := tasks[nextId := Task(creator, Remote)];
      nextId := nextId + 1;
      callers := callers[id := Returned(Started)];
    }

    /** A caller without a permit and without a cached profile sets a cooldown for the next ones. */
    method SetRetryAfter(id: Id, nowMs: nat, cooldownMs: nat)
      requires Enabled(View(), BackOff(id, nowMs, cooldownMs))
      modifies this`callers, this`retryAfter
      ensures View() == Next(old(View()), BackOff(id, nowMs, cooldownMs))
    {
      retryAfter := retryAfter[callers[id].creator := Min(nowMs + cooldownMs, U64_MAX)];
      callers := callers[id := Returned(Busy)];
    }

    /** A refresh that succeeds ends the cooldown of its creator, one that fails sets it. */
    method SettleRefresh(t: Id, ok: bool, nowMs: nat, cooldownMs: nat)
      requires Enabled(View(), Settle(t, ok, nowMs, cooldownMs))
      modifies this`tasks, this`retryAfter
      ensures View() == Next(old(View()), Settle(t, ok, nowMs, cooldownMs))
    {
      var creator := tasks[t].creator;
      if ok {
        retryAfter := retryAfter - {creator};
      } else {
        retryAfter := retryAfter[creator := Min(nowMs + cooldownMs, U64_MAX)];
      }
      tasks := tasks[t := tasks[t].(phase := Settled)];
    }

    method ClearInflight(t: Id)
      requires Enabled(View(), Clear(t))
      modifies this`inflight, this`tasks
      ensures View() == Next(old(View()), Clear(t))
    {
      inflight := inflight - {tasks[t].creator};
      tasks := tasks[t := tasks[t].(phase := Cleared)];
    }
  }

  // ---------------------------------------------------------------- invariant

  ghost function HoldingCallers(s: State): set<Id> {
    set id | id in s.callers && s.callers[id].Holding?
  }

  /** `t` is a refresh of creator `c` that has not cleared its in-flight entry yet. */
  predicate Owns(tasks: map<Id, Task>, t: Id, c: Creator) {
    t in tasks && tasks[t].phase != Cleared && tasks[t].creator == c
  }

  /** In-flight entries and uncleared refreshes correspond one to one. */
  ghost predicate Links(tasks: map<Id, Task>, inflight: set<Creator>) {
    && (forall t, c :: Owns(tasks, t, c) ==> c in inflight)
    && (forall c :: c in inflight ==> exists t :: Owns(tasks, t, c))
    && (forall t, u, c :: Owns(tasks, t, c) && Owns(tasks, u, c) ==> t == u)
  }

  ghost predicate Permits(s: State, capacity: nat) {
    && s.free + |HoldingCallers(s)| + |s.tasks| == capacity
    && (forall id :: id in s.callers ==> id < s.nextId)
    && (forall t :: t in s.tasks ==> t < s.nextId)
  }

  ghost predicate Inv(s: State, capacity: nat) {
    Permits(s, capacity) && Links(s.tasks, s.inflight)
  }

  /** Moving a caller changes the number of permits that callers hold by what it gains or loses. */
  lemma CallerMoves(s: State, s': State, id: Id, c: Caller)
    requires s'.callers == s.callers[id := c]
    ensures |HoldingCallers(s')| == |HoldingCallers(s)|
              + (if c.Holding? then 1 else 0) - (if id in s.callers && s.callers[id].Holding? then 1 else 0)
  {
    var was, now := HoldingCallers(s), HoldingCallers(s');
    assert was - {id} == now - {id};
    assert id in was ==> |was| == |was - {id}| + 1;
    assert id in now ==> |now| == |now - {id}| + 1;
    assert id !in was ==> was - {id} == was;
    assert id !in now ==> now - {id} == now;
  }

  lemma MapCards(m: map<Id, Task>, t: Id, v: Task)
    ensures |m[t := v]| == |m| + if t in m then 0 else 1
    ensures |m - {t}| == |m| - if t in m then 1 else 0
  {
    assert |m[t := v]| == |m[t := v].Keys| && |m| == |m.Keys| && |m - {t}| == |(m - {t}).Keys|;
    assert m[t := v].Keys == m.Keys + {t};
    assert (m - {t}).Keys == m.Keys - {t};
  }

  lemma OwnersCarryLinks(tasks: map<Id, Task>, tasks': map<Id, Task>, inflight: set<Creator>)
    requires Links(tasks, inflight)
    requires forall t, c :: Owns(tasks', t, c) <==> Owns(tasks, t, c)
    ensures Links(tasks', inflight)
  {
    forall c | c in inflight ensures exists t :: Owns(tasks', t, c) {
      var t :| Owns(tasks, t, c);
      assert Owns(tasks', t, c);
    }
  }

  lemma InsertKeepsLinks(tasks: map<Id, Task>, inflight: set<Creator>, t: Id, creator: Creator)
    requires Links(tasks, inflight) && t !in tasks && creator !in inflight
    ensures Links(tasks[t := Task(creator, Remote)], inflight + {creator})
  {
    var tasks' := tasks[t := Task(creator, Remote)];
    assert forall u, c :: Owns(tasks', u, c) <==> Owns(tasks, u, c) || (u == t && c == creator);
    forall c | c in inflight + {creator} ensures exists u :: Owns(tasks', u, c) {
      if c == creator {
        assert Owns(tasks', t, c);
      } else {
        var u :| Owns(tasks, u, c);
        assert Owns(tasks', u, c);
      }
    }
  }

  lemma ClearKeepsLinks(tasks: map<Id, Task>, inflight: set<Creator>, t: Id)
    requires Links(tasks, inflight) && t in tasks && tasks[t].phase == Settled
    ensures Links(tasks[t := Task(tasks[t].creator, Cleared)], inflight - {tasks[t].creator})
  {
    var creator := tasks[t].creator;
    var tasks' := tasks[t := Task(creator, Cleared)];
    assert Owns(tasks, t, creator);
    assert forall u, c :: Owns(tasks', u, c) <==> Owns(tasks, u, c) && u != t;
    forall c | c in inflight - {creator} ensures exists u :: Owns(tasks', u, c) {
      var u :| Owns(tasks, u, c);
      assert Owns(tasks', u, c);
    }
  }

  lemma NextKeepsLinks(s: State, step: Step, capacity: nat)
    requires Inv(s, capacity) && Enabled(s, step)
    ensures var s' := Next(s, step); Links(s'.tasks, s'.inflight)
  {
    var s' := Next(s, step);
    match step
    case TryInsert(id) =>
      if s.callers[id].creator !in s.inflight {
        InsertKeepsLinks(s.tasks, s.inflight, s.nextId, s.callers[id].creator);
      }
    case Clear(t) => ClearKeepsLinks(s.tasks, s.inflight, t);
    case _ => OwnersCarryLinks(s.tasks, s'.tasks, s.inflight);
  }

  predicate MovesCaller(step: Step) {
    step.Call? || step.CheckCooldown? || step.CheckInflight? || step.TryAcquire? || step.TryInsert? || step.BackOff?
  }

  function Held(s: State, id: Id): nat {
    if id in s.callers && s.callers[id].Holding? then 1 else 0
  }

  lemma CallerMoveKeepsPermits(s: State, s': State, id: Id, capacity: nat)
    requires Permits(s, capacity)
    requires id in s'.callers && s'.callers == s.callers[id := s'.callers[id]]
    requires id < s'.nextId && s.nextId <= s'.nextId && forall t :: t in s'.tasks ==> t < s'.nextId
    requires s'.free + Held(s', id) + |s'.tasks| == s.free + Held(s, id) + |s.tasks|
    ensures Permits(s', capacity)
  {
    CallerMoves(s, s', id, s'.callers[id]);
  }

  lemma InsertKeepsPermits(s: State, id: Id, capacity: nat)
    requires Permits(s, capacity) && Enabled(s, TryInsert(id))
    ensures Permits(Next(s, TryInsert(id)), capacity)
  {
    MapCards(s.tasks, s.nextId, Task(s.callers[id].creator, Remote));
    CallerMoveKeepsPermits(s, Next(s, TryInsert(id)), id, capacity);
  }

  lemma CallerStepKeepsPermits(s: State, step: Step, capacity: nat)
    requires Permits(s, capacity) && Enabled(s, step) && MovesCaller(step)
    ensures Permits(Next(s, step), capacity)
  {
    var s' := Next(s, step);
    match step
    case Call(_) => CallerMoveKeepsPermits(s, s', s.nextId, capacity);
    case CheckCooldown(id, _) => CallerMoveKeepsPermits(s, s', id, capacity);
    case CheckInflight(id) => CallerMoveKeepsPermits(s, s', id, capacity);
    case TryAcquire(id) => CallerMoveKeepsPermits(s, s', id, capacity);
    case TryInsert(id) => InsertKeepsPermits(s, id, capacity);
    case BackOff(id, _, _) => CallerMoveKeepsPermits(s, s', id, capacity);
  }

  lemma TaskStepKeepsPermits(s: State, step: Step, capacity: nat)
    requires Permits(s, capacity) && Enabled(s, step) && !MovesCaller(step)
    ensures Permits(Next(s, step), capacity)
  {
    var s' := Next(s, step);
    assert HoldingCallers(s') == HoldingCallers(s);
    if step.Finish? {
      MapCards(s.tasks, step.task, s.tasks[step.task]);
    } else {
      MapCards(s.tasks, step.task, s'.tasks[step.task]);
    }
  }

  lemma NextKeepsInv(s: State, step: Step, capacity: nat)
    requires Inv(s, capacity) && Enabled(s, step)
    ensures Inv(Next(s, step), capacity)
  {
    NextKeepsLinks(s, step, capacity);
    if MovesCaller(step) {
      CallerStepKeepsPermits(s, step, capacity);
    } else {
      TaskStepKeepsPermits(s, step, capacity);
    }
  }

  // ---------------------------------------------------------------- every interleaving

  ghost predicate Run(states: seq<State>, steps: seq<Step>, capacity: nat) {
    && |states| == |steps| + 1
    && states[0] == Start(capacity)
    && forall i :: 0 <= i < |steps| ==> Enabled(states[i], steps[i]) && states[i + 1] == Next(states[i], steps[i])
  }

  lemma {:induction false} RunKeepsInv(states: seq<State>, steps: seq<Step>, capacity: nat, n: nat)
    requires Run(states, steps, capacity) && n <= |steps|
    ensures Inv(states[n], Max(capacity, 1))
  {
    if n > 0 {
      RunKeepsInv(states, steps, capacity, n - 1);
      NextKeepsInv(states[n - 1], steps[n - 1], Max(capacity, 1));
    }
  }

  lemma {:induction false} InflightAtMostTasks(tasks: map<Id, Task>, inflight: set<Creator>, owners: set<Id>)
    requires owners <= tasks.Keys
    requires forall c :: c in inflight ==> exists t :: t in owners && tasks[t].creator == c
    ensures |inflight| <= |owners|
    decreases |inflight|
  {
    if inflight != {} {
      var c :| c in inflight;
      var t :| t in owners && tasks[t].creator == c;
      InflightAtMostTasks(tasks, inflight - {c}, owners - {t});
    }
  }

  /**
   * In every reachable state, whatever the interleaving: free permits and held permits add up to the
   * capacity, creators in flight are no more than the permits held, and no creator has two refreshes that
   * have not cleared their entry.
   */
  lemma PermitsAndFlightsBounded(states: seq<State>, steps: seq<Step>, capacity: nat, n: nat)
    requires Run(states, steps, capacity) && n <= |steps|
    ensures var s := states[n];
            var held := |HoldingCallers(s)| + |s.tasks|;
            && s.free + held == Max(capacity, 1)
            && |s.inflight| <= |s.tasks| <= held <= Max(capacity, 1)
            && (forall t, u, c :: Owns(s.tasks, t, c) && Owns(s.tasks, u, c) ==> t == u)
  {
    RunKeepsInv(states, steps, capacity, n);
    var s := states[n];
    forall c | c in s.inflight ensures exists t :: t in s.tasks.Keys && s.tasks[t].creator == c {
      var t :| Owns(s.tasks, t, c);
      assert t in s.tasks.Keys && s.tasks[t].creator == c;
    }
    InflightAtMostTasks(s.tasks, s.inflight, s.tasks.Keys);
    assert |s.tasks| == |s.tasks.Keys|;
  }

  /** When a task clears its entry, the entry is there and is its own: no other refresh of the creator is uncleared. */
  lemma OnlyTheOwnerClears(states: seq<State>, steps: seq<Step>, capacity: nat, n: nat)
    requires Run(states, steps, capacity) && n < |steps| && steps[n].Clear?
    ensures var s := states[n];
            var t := steps[n].task;
            && s.tasks[t].creator in s.inflight
            && (forall u :: Owns(s.tasks, u, s.tasks[t].creator) ==> u == t)
            && states[n + 1].inflight == s.inflight - {s.tasks[t].creator}
  {
    RunKeepsInv(states, steps, capacity, n);
    var s, t := states[n], steps[n].task;
    assert Owns(s.tasks, t, s.tasks[t].creator);
  }

  /** The caller that took a permit and then lost the race for the entry gives the permit back. */
  lemma LostRaceReturnsPermit(s: State, id: Id, capacity: nat)
    requires Inv(s, capacity) && Enabled(s, TryInsert(id)) && s.callers[id].creator in s.inflight
    ensures var s' := Next(s, TryInsert(id));
            && s'.free == s.free + 1 && s'.tasks == s.tasks && s'.inflight == s.inflight
            && |HoldingCallers(s')| == |HoldingCallers(s)| - 1
            && CallerAt(s', id, Returned(Inflight))
  {
    var s' := Next(s, TryInsert(id));
    CallerMoves(s, s', id, s'.callers[id]);
  }

  // ---------------------------------------------------------------- cooldowns

  /** A cooldown of this creator is stored and not yet over at `nowMs`. */
  predicate Cooling(s: State, c: Creator, nowMs: nat) {
    c in s.retryAfter && s.retryAfter[c] > nowMs
  }

  /** The step settles a refresh of this creator, or a caller that was refused one sets a cooldown. */
  predicate Rules(s: State, step: Step, c: Creator) {
    || (step.Settle? && step.task in s.tasks && s.tasks[step.task].creator == c)
    || (step.BackOff? && CallerAt(s, step.id, Refused(c)))
  }

  /** The end of the cooldown that such a step sets; a success sets none. */
  function Until(step: Step): nat {
    match step
    case Settle(_, ok, nowMs, cooldownMs) => if ok then 0 else Min(nowMs + cooldownMs, U64_MAX)
    case BackOff(_, nowMs, cooldownMs) => Min(nowMs + cooldownMs, U64_MAX)
    case _ => 0
  }

  /** The step that starts a refresh of this creator. */
  predicate StartsRefresh(s: State, step: Step, c: Creator) {
    step.TryInsert? && step.id in s.callers && s.callers[step.id] == Holding(c) && c !in s.inflight
  }

  /** At `r` the caller read the cooldown and went on. */
  ghost predicate PassedAt(states: seq<State>, steps: seq<Step>, r: nat, id: Id, c: Creator)
    requires |states| == |steps| + 1
  {
    && r < |steps| && steps[r].CheckCooldown? && steps[r].id == id
    && CallerAt(states[r], id, Entered(c)) && CallerAt(states[r + 1], id, CooldownOver(c))
  }

  /** The step that ruled last before `n` came after `r`, and the cooldown it set runs. */
  ghost predicate SetSince(states: seq<State>, steps: seq<Step>, r: nat, n: nat, c: Creator, nowMs: nat)
    requires n < |states| && n <= |steps|
  {
    exists q :: r < q < n && Rules(states[q], steps[q], c) && Until(steps[q]) > nowMs
                && forall k :: q < k < n ==> !Rules(states[k], steps[k], c)
  }

  /** Past the cooldown check and not yet returned. */
  predicate GoneOn(c: Caller, creator: Creator) {
    c == CooldownOver(creator) || c == SeenIdle(creator) || c == Holding(creator)
  }

  lemma StepGoesOn(s: State, step: Step, id: Id, c: Creator)
    requires Enabled(s, step) && id in Next(s, step).callers && GoneOn(Next(s, step).callers[id], c)
    ensures || (id in s.callers && GoneOn(s.callers[id], c))
            || (step.CheckCooldown? && step.id == id && CallerAt(s, id, Entered(c))
                && CallerAt(Next(s, step), id, CooldownOver(c)))
  {
  }

  /** A caller that holds a permit read the cooldown once, and went on. */
  lemma {:induction false} CooldownRead(states: seq<State>, steps: seq<Step>, capacity: nat, n: nat, id: Id, c: Creator)
    returns (r: nat)
    requires Run(states, steps, capacity) && n <= |steps|
    requires id in states[n].callers && GoneOn(states[n].callers[id], c)
    ensures r < n && PassedAt(states, steps, r, id, c)
  {
    StepGoesOn(states[n - 1], steps[n - 1], id, c);
    if id in states[n - 1].callers && GoneOn(states[n - 1].callers[id], c) {
      r := CooldownRead(states, steps, capacity, n - 1, id, c);
    } else {
      r := n - 1;
    }
  }

  /** Nothing else changes the cooldown of a creator. */
  lemma CooldownSteps(s: State, step: Step, c: Creator, nowMs: nat)
    requires Enabled(s, step)
    ensures Cooling(Next(s, step), c, nowMs) <==>
              if Rules(s, step, c) then Until(step) > nowMs else Cooling(s, c, nowMs)
  {
  }

  lemma PassedIsOver(states: seq<State>, steps: seq<Step>, capacity: nat, r: nat, id: Id, c: Creator, nowMs: nat)
    requires Run(states, steps, capacity) && PassedAt(states, steps, r, id, c) && steps[r].nowMs <= nowMs
    ensures !Cooling(states[r + 1], c, nowMs)
  {
  }

  lemma CoolingGoesOn(states: seq<State>, steps: seq<Step>, r: nat, n: nat, c: Creator, nowMs: nat)
    requires r < n < |steps| && n + 1 < |states|
    requires Enabled(states[n], steps[n]) && states[n + 1] == Next(states[n], steps[n])
    requires Cooling(states[n], c, nowMs) <==> SetSince(states, steps, r, n, c, nowMs)
    ensures Cooling(states[n + 1], c, nowMs) <==> SetSince(states, steps, r, n + 1, c, nowMs)
  {
    CooldownSteps(states[n], steps[n], c, nowMs);
    if !Rules(states[n], steps[n], c) {
      SetSinceCarries(states, steps, r, n + 1, c, nowMs);
    }
  }

  /** A caller that went on at `r` finds a cooldown running later exactly if one was set since. */
  lemma {:induction false} CoolingSince(states: seq<State>, steps: seq<Step>, capacity: nat, r: nat, n: nat, id: Id,
      c: Creator, nowMs: nat)
    requires Run(states, steps, capacity) && r < n <= |steps| && PassedAt(states, steps, r, id, c)
    requires steps[r].nowMs <= nowMs
    ensures Cooling(states[n], c, nowMs) <==> SetSince(states, steps, r, n, c, nowMs)
  {
    if n == r + 1 {
      PassedIsOver(states, steps, capacity, r, id, c, nowMs);
    } else {
      CoolingSince(states, steps, capacity, r, n - 1, id, c, nowMs);
      CoolingGoesOn(states, steps, r, n - 1, c, nowMs);
    }
  }

  lemma SetSinceCarries(states: seq<State>, steps: seq<Step>, r: nat, n: nat, c: Creator, nowMs: nat)
    requires r + 1 < n < |states| && n <= |steps| && !Rules(states[n - 1], steps[n - 1], c)
    ensures SetSince(states, steps, r, n, c, nowMs) <==> SetSince(states, steps, r, n - 1, c, nowMs)
  {
    if SetSince(states, steps, r, n - 1, c, nowMs) {
      var q :| r < q < n - 1 && Rules(states[q], steps[q], c) && Until(steps[q]) > nowMs
               && forall k :: q < k < n - 1 ==> !Rules(states[k], steps[k], c);
      assert forall k :: q < k < n ==> !Rules(states[k], steps[k], c);
    }
  }

  /**
   * A refresh starts during a cooldown of its creator if and only if that cooldown was set, by a refresh that
   * failed or by a caller that was refused, after this caller had read that there was none. `nowMs` is the time of
   * the start, not before that of the reading.
   */
  lemma StartsWhileCoolingIff(states: seq<State>, steps: seq<Step>, capacity: nat, n: nat, c: Creator, nowMs: nat)
    returns (r: nat)
    requires Run(states, steps, capacity) && n < |steps| && StartsRefresh(states[n], steps[n], c)
    ensures r < n && PassedAt(states, steps, r, steps[n].id, c)
    ensures steps[r].nowMs <= nowMs ==>
              (Cooling(states[n], c, nowMs) <==> SetSince(states, steps, r, n, c, nowMs))
  {
    r := CooldownRead(states, steps, capacity, n, steps[n].id, c);
    if steps[r].nowMs <= nowMs {
      CoolingSince(states, steps, capacity, r, n, steps[n].id, c, nowMs);
    }
  }

  // ---------------------------------------------------------------- a start during a cooldown

  const CREATOR: Creator := "creator"

  /** The first caller starts a refresh; the second reads that there is no cooldown before that refresh fails. */
  const STEPS := [
    Call(CREATOR), CheckCooldown(0, 0), CheckInflight(0), TryAcquire(0), TryInsert(0),
    Call(CREATOR), CheckCooldown(2, 0), Settle(1, false, 0, 10), Clear(1), Finish(1),
    CheckInflight(2), TryAcquire(2), TryInsert(2)]

  lemma Extend(states: seq<State>, steps: seq<Step>, capacity: nat, k: nat) returns (longer: seq<State>)
    requires k < |STEPS| && steps == STEPS[..k] && Run(states, steps, capacity) && Enabled(states[k], STEPS[k])
    ensures Run(longer, STEPS[..k + 1], capacity) && longer == states + [Next(states[k], STEPS[k])]
  {
    var all := STEPS[..k + 1];
    longer := states + [Next(states[k], STEPS[k])];
    forall i | 0 <= i < |all| ensures Enabled(longer[i], all[i]) && longer[i + 1] == Next(longer[i], all[i]) {
      assert all[i] == STEPS[i] && longer[i] == states[i];
      assert i < k ==> steps[i] == STEPS[i] && longer[i + 1] == states[i + 1];
    }
  }

  lemma FirstGoesOn(capacity: nat) returns (states: seq<State>)
    ensures Run(states, STEPS[..2], capacity)
    ensures states[2] == State(Max(capacity, 1), {}, map[0 := CooldownOver(CREATOR)], map[], map[], 1)
  {
    states := [Start(capacity)];
    states := Extend(states, [], capacity, 0);
    states := Extend(states, STEPS[..1], capacity, 1);
  }

  lemma FirstHolds(capacity: nat) returns (states: seq<State>)
    ensures Run(states, STEPS[..4], capacity)
    ensures states[4] == State(Max(capacity, 1) - 1, {}, map[0 := Holding(CREATOR)], map[], map[], 1)
  {
    states := FirstGoesOn(capacity);
    states := Extend(states, STEPS[..2], capacity, 2);
    states := Extend(states, STEPS[..3], capacity, 3);
  }

  lemma SecondGoesOn(capacity: nat) returns (states: seq<State>)
    ensures Run(states, STEPS[..7], capacity)
    ensures states[7] == State(Max(capacity, 1) - 1, {CREATOR},
                               map[0 := Returned(Started), 2 := CooldownOver(CREATOR)],
                               map[1 := Task(CREATOR, Remote)], map[], 3)
  {
    states := FirstHolds(capacity);
    states := Extend(states, STEPS[..4], capacity, 4);
    states := Extend(states, STEPS[..5], capacity, 5);
    states := Extend(states, STEPS[..6], capacity, 6);
  }

  lemma FirstFails(capacity: nat) returns (states: seq<State>)
    ensures Run(states, STEPS[..10], capacity)
    ensures states[10] == State(Max(capacity, 1), {}, map[0 := Returned(Started), 2 := CooldownOver(CREATOR)], map[],
                                map[CREATOR := 10], 3)
  {
    states := SecondGoesOn(capacity);
    states := Extend(states, STEPS[..7], capacity, 7);
    states := Extend(states, STEPS[..8], capacity, 8);
    states := Extend(states, STEPS[..9], capacity, 9);
  }

  /** The second caller goes on and starts a refresh while the cooldown of the first has 10 ms to run. */
  lemma StartsWhileCoolingWitness(capacity: nat) returns (states: seq<State>)
    ensures Run(states, STEPS, capacity)
    ensures StartsRefresh(states[12], STEPS[12], CREATOR) && Cooling(states[12], CREATOR, 0)
    ensures Owns(states[13].tasks, 3, CREATOR)
  {
    states := FirstFails(capacity);
    states := Extend(states, STEPS[..10], capacity, 10);
    states := Extend(states, STEPS[..11], capacity, 11);
    states := Extend(states, STEPS[..12], capacity, 12);
    assert STEPS[..13] == STEPS;
  }
}
