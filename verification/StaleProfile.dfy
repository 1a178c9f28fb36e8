/**
 * A run in which a profile message of a retired admission reaches the next admission of the mint, and two
 * fetches of one buyer are then outstanding for it.
 */
module StaleProfile {
  import opened Wrappers
  import opened FilterTypes
  import opened BuyFeed
  import opened Gate3
  import opened EventLoop
  import opened LoopInvariants
  import opened LoopHistory
  import opened ProfileFetches

  const MINT: Mint := "mint"
  const BUYER: Address := "a"
  const QUIET := Env(HotLists({}, {}, {}), 0, 0, 0.0, 0.0, 0, 0)
  const TOKEN := Token(MINT, "creator", 0, 0, 0, 0, [])

  /** Any configuration that fetches profiles and has room for two buys. */
  function Fetching(base: Config): Config {
    base.(hasApiKey := true, maxBuys := base.maxBuys + 2)
  }

  function BuyOf(signature: string): Buy {
    Buy(MINT, BUYER, "processed", "token", 1, [], [], signature, 0, 0)
  }

  const ADMIT := Gate1Done(TOKEN, true, LocalMiss, QUIET)
  const FIRST := BuyArrived(BuyOf("1"), QUIET)
  const REJECT := GateResolved(0, GateResult(false, None, 0, 0), QUIET)
  const SECOND := BuyArrived(BuyOf("2"), QUIET)
  const STALE := ProfileResolved(0, None, QUIET)
  const THIRD := BuyArrived(BuyOf("3"), QUIET)

  const EVENTS := [ADMIT, FIRST, REJECT, ADMIT, SECOND, STALE, THIRD]

  function Gates(n: nat): Task {
    GateTask(MINT, n)
  }

  function Fetch(n: nat): Task {
    ProfileTask(MINT, BUYER, n)
  }

  /** The mint is live and pending with these buys, and the buyer is marked or not; these tasks are outstanding. */
  ghost predicate Stands(s: LoopState, admission: nat, buys: seq<Buy>, marked: bool, tasks: seq<Task>) {
    && !s.halted && s.admissions == admission + 1 && HasStatus(s, MINT, CreatorPending) && s.tasks == tasks
    && var c := s.candidates[MINT];
       && c.mint == MINT && c.admission == admission && c.createdAt == 0 && c.earlyBuys == buys
       && c.buyerProfiles == map[] && c.pendingBuyerProfiles == if marked then {BUYER} else {}
  }

  /** The mint is not live. */
  ghost predicate Gone(s: LoopState, admissions: nat, tasks: seq<Task>) {
    !s.halted && s.admissions == admissions && MINT !in s.candidates && s.tasks == tasks
  }

  lemma Admitting(s: LoopState, base: Config, n: nat, tasks: seq<Task>)
    requires Gone(s, n, tasks)
    ensures Stands(Step(s, ADMIT, Fetching(base)), n, [], false, tasks + [Gates(n)])
  {
  }

  lemma PendingIsPut(s: LoopState, c: Candidate, cfg: Config)
    requires c.status == CreatorPending
    ensures Evaluate(s, MINT, c, cfg, QUIET) == Put(s, MINT, c)
  {
  }

  /** A pending candidate takes a buy without looking at gate 3. */
  lemma Taking(s: LoopState, base: Config, buy: Buy)
    requires HasStatus(s, MINT, CreatorPending) && s.candidates[MINT].createdAt == 0
    requires buy == BuyOf(buy.signature) && |s.candidates[MINT].earlyBuys| < 2
    requires FindBuy(s.candidates[MINT].earlyBuys, buy.signature).None?
    ensures var cfg, c := Fetching(base), s.candidates[MINT];
            OnBuy(s, buy, cfg, QUIET)
            == Put(s.(tasks := s.tasks + Spawned(c, BUYER, cfg)), MINT, Accepted(c, buy, cfg, 0))
  {
    var cfg, c := Fetching(base), s.candidates[MINT];
    PendingIsPut(s.(tasks := s.tasks + Spawned(c, BUYER, cfg)), Accepted(c, buy, cfg, 0), cfg);
  }

  /** An unmarked, unknown buyer is marked. */
  lemma Marking(c: Candidate, base: Config, buy: Buy)
    requires buy.buyer == BUYER && c.buyerProfiles == map[] && c.pendingBuyerProfiles == {}
    ensures var c' := Accepted(c, buy, Fetching(base), 0);
            c' == c.(earlyBuys := c.earlyBuys + [buy], buySignatures := c'.buySignatures, log := c'.log,
                     trace := c'.trace, pendingBuyerProfiles := {BUYER})
    ensures Spawned(c, BUYER, Fetching(base)) == [ProfileTask(c.mint, BUYER, c.admission)]
  {
  }

  /** A buy of an unmarked, unknown buyer starts a fetch. */
  lemma Buying(s: LoopState, base: Config, n: nat, buys: seq<Buy>, tasks: seq<Task>, buy: Buy)
    requires Stands(s, n, buys, false, tasks) && buy == BuyOf(buy.signature)
    requires |buys| < 2 && FindBuy(buys, buy.signature).None?
    ensures Stands(Step(s, BuyArrived(buy, QUIET), Fetching(base)), n, buys + [buy], true, tasks + [Fetch(n)])
  {
    Taking(s, base, buy);
    Marking(s.candidates[MINT], base, buy);
  }

  lemma Rejecting(s: LoopState, base: Config, n: nat, buys: seq<Buy>, rest: seq<Task>)
    requires Stands(s, n, buys, true, [Gates(n)] + rest)
    ensures Gone(Step(s, REJECT, Fetching(base)), n + 1, rest)
  {
  }

  /** The message strikes the buyer off, whichever admission it is of. */
  lemma Striking(s: LoopState, base: Config, n: nat, k: nat, buys: seq<Buy>, rest: seq<Task>)
    requires Stands(s, n, buys, true, [Fetch(k)] + rest)
    ensures Stands(Step(s, STALE, Fetching(base)), n, buys, false, rest)
  {
    assert Taken(s, 0).tasks == rest;
  }

  lemma NewSignatures()
    ensures FindBuy([], "1").None? && FindBuy([], "2").None? && FindBuy([BuyOf("2")], "3").None?
    ensures [] + [BuyOf("1")] == [BuyOf("1")] && [] + [BuyOf("2")] == [BuyOf("2")]
    ensures [BuyOf("2")] + [BuyOf("3")] == [BuyOf("2"), BuyOf("3")]
  {
    assert "2"[0] != "3"[0] && [BuyOf("2")][1..] == [];
  }

  lemma Prefixes()
    ensures |EVENTS| == 7 && EVENTS[..7] == EVENTS && EVENTS[..0] == []
    ensures EVENTS[..0] + [ADMIT] == EVENTS[..1] && EVENTS[..1] + [FIRST] == EVENTS[..2]
    ensures EVENTS[..2] + [REJECT] == EVENTS[..3] && EVENTS[..3] + [ADMIT] == EVENTS[..4]
    ensures EVENTS[..4] + [SECOND] == EVENTS[..5] && EVENTS[..5] + [STALE] == EVENTS[..6]
    ensures EVENTS[..6] + [THIRD] == EVENTS[..7]
  {
  }

  lemma FirstAdmission(base: Config) returns (states: seq<LoopState>)
    ensures Run(states, EVENTS[..3], Fetching(base)) && Gone(states[3], 1, [Fetch(0)])
  {
    var cfg := Fetching(base);
    Prefixes();
    NewSignatures();
    Admitting(Initial, base, 0, []);
    states := Extend([Initial], EVENTS[..0], cfg, ADMIT);
    Buying(states[1], base, 0, [], [Gates(0)], BuyOf("1"));
    states := Extend(states, EVENTS[..1], cfg, FIRST);
    assert states[2].tasks == [Gates(0)] + [Fetch(0)];
    Rejecting(states[2], base, 0, [BuyOf("1")], [Fetch(0)]);
    states := Extend(states, EVENTS[..2], cfg, REJECT);
  }

  lemma SecondAdmission(base: Config) returns (states: seq<LoopState>)
    ensures Run(states, EVENTS[..5], Fetching(base))
    ensures Stands(states[5], 1, [BuyOf("2")], true, [Fetch(0)] + [Gates(1), Fetch(1)])
  {
    var cfg := Fetching(base);
    Prefixes();
    NewSignatures();
    var before := FirstAdmission(base);
    Admitting(before[3], base, 1, [Fetch(0)]);
    states := Extend(before, EVENTS[..3], cfg, ADMIT);
    Buying(states[4], base, 1, [], [Fetch(0)] + [Gates(1)], BuyOf("2"));
    states := Extend(states, EVENTS[..4], cfg, SECOND);
    assert [Fetch(0)] + [Gates(1)] + [Fetch(1)] == [Fetch(0)] + [Gates(1), Fetch(1)];
  }

  /**
   * The fetch of the first admission comes back empty while the second awaits its own for the same buyer; the
   * buyer's next buy then starts a second fetch for the second admission.
   */
  lemma StaleProfileWitness(base: Config) returns (states: seq<LoopState>)
    ensures Run(states, EVENTS, Fetching(base))
    ensures Stands(states[5], 1, [BuyOf("2")], true, [Fetch(0), Gates(1), Fetch(1)])
    ensures Stale(states[5], EVENTS[5], MINT, BUYER)
    ensures Stands(states[6], 1, [BuyOf("2")], false, [Gates(1), Fetch(1)])
    ensures Stands(states[7], 1, [BuyOf("2"), BuyOf("3")], true, [Gates(1), Fetch(1), Fetch(1)])
    ensures Fetches(states[7], MINT, BUYER) == 2
  {
    var cfg := Fetching(base);
    Prefixes();
    NewSignatures();
    var before := SecondAdmission(base);
    assert [Fetch(0)] + [Gates(1), Fetch(1)] == [Fetch(0), Gates(1), Fetch(1)];
    Striking(before[5], base, 1, 0, [BuyOf("2")], [Gates(1), Fetch(1)]);
    states := Extend(before, EVENTS[..5], cfg, STALE);
    Buying(states[6], base, 1, [BuyOf("2")], [Gates(1), Fetch(1)], BuyOf("3"));
    states := Extend(states, EVENTS[..6], cfg, THIRD);
    assert [Gates(1), Fetch(1)] + [Fetch(1)] == [Gates(1), Fetch(1), Fetch(1)];
    assert multiset([Gates(1), Fetch(1), Fetch(1)])[Fetch(1)] == 2;
  }
}
