/**
 * The failover controller: it keeps the runtime state of every feed, names a preferred feed of each kind,
 * and reports every change of preference.
 */
module Failover {
  import opened Wrappers
  import opened Labels

  datatype Kind = Processed | Deshred

  datatype Status = Connecting | Ready | Disconnected | Closed | Unknown

  datatype Feed = Feed(
    kind: Kind,
    url: string,
    status: Status,
    detail: string,
    lastStatusMs: nat,
    lastFirstHitMs: nat,
    firstHitCount: nat)

  datatype Change = Change(kind: Kind, previous: Option<Label>, preferred: Option<Label>, reason: string, tsMs: nat)

  datatype Observation =
    | Health(kind: Kind, feedLabel: Label, url: string, status: string, detail: string, tsMs: nat)
    | FirstHit(feedLabel: Label, tsMs: nat)

  datatype State = State(
    staleAfterMs: nat,
    feeds: map<Label, Feed>,
    preferredProcessed: Option<Label>,
    preferredDeshred: Option<Label>)
  {
    function Preferred(kind: Kind): Option<Label> {
      match kind
      case Processed => preferredProcessed
      case Deshred => preferredDeshred
    }

    function WithPreferred(kind: Kind, feedLabel: Option<Label>): State {
      match kind
      case Processed => this.(preferredProcessed := feedLabel)
      case Deshred => this.(preferredDeshred := feedLabel)
    }
  }

  function Other(kind: Kind): Kind {
    if kind == Processed then Deshred else Processed
  }

  function FromStatus(status: string): Status {
    if status == "connecting" then Connecting
    else if status == "ready" then Ready
    else if status == "disconnected" then Disconnected
    else if status == "closed" then Closed
    else Unknown
  }

  function StatusScore(status: Status): int {
    match status
    case Ready => 30
    case Connecting => 20
    case Disconnected => -20
    case Closed => -30
    case Unknown => 0
  }

  function StalePenalty(f: Feed, nowMs: nat, staleAfterMs: nat): int {
    var elapsed := SatSub(nowMs, Max(f.lastStatusMs, f.lastFirstHitMs));
    if elapsed > staleAfterMs then -25
    else if elapsed > staleAfterMs / 2 then -10
    else 0
  }

  function PriorityScore(f: Feed, nowMs: nat, staleAfterMs: nat): int {
    StatusScore(f.status) + Min(f.firstHitCount, 100) + StalePenalty(f, nowMs, staleAfterMs)
  }

  // ---------------------------------------------------------------- the ranking

  /** Feed `a` under label `la` ranks strictly below feed `b` under label `lb`. */
  predicate Below(la: Label, a: Feed, lb: Label, b: Feed, nowMs: nat, staleAfterMs: nat) {
    var sa, sb := PriorityScore(a, nowMs, staleAfterMs), PriorityScore(b, nowMs, staleAfterMs);
    || sa < sb
    || (sa == sb && a.lastFirstHitMs < b.lastFirstHitMs)
    || (sa == sb && a.lastFirstHitMs == b.lastFirstHitMs && Less(la, lb))
  }

  lemma BelowTransitive(la: Label, a: Feed, lb: Label, b: Feed, lc: Label, c: Feed, nowMs: nat, staleAfterMs: nat)
    requires Below(la, a, lb, b, nowMs, staleAfterMs) && Below(lb, b, lc, c, nowMs, staleAfterMs)
    ensures Below(la, a, lc, c, nowMs, staleAfterMs)
  {
    if Less(la, lb) && Less(lb, lc) {
      LessTransitive(la, lb, lc);
    }
  }

  lemma BelowAsymmetric(la: Label, a: Feed, lb: Label, b: Feed, nowMs: nat, staleAfterMs: nat)
    requires Below(la, a, lb, b, nowMs, staleAfterMs)
    ensures !Below(lb, b, la, a, nowMs, staleAfterMs)
  {
    if Less(la, lb) && Less(lb, la) {
      LessTransitive(la, lb, la);
      LessIrreflexive(la);
    }
  }

  lemma BelowTotal(la: Label, a: Feed, lb: Label, b: Feed, nowMs: nat, staleAfterMs: nat)
    requires la != lb
    ensures Below(la, a, lb, b, nowMs, staleAfterMs) || Below(lb, b, la, a, nowMs, staleAfterMs)
  {
    LessTotal(la, lb);
  }

  predicate Candidate(feeds: map<Label, Feed>, kind: Kind, feedLabel: Label) {
    feedLabel in feeds && feeds[feedLabel].kind == kind
  }

  /** `top` outranks every other feed of its kind among `labels`. */
  ghost predicate Tops(feeds: map<Label, Feed>, labels: set<Label>, kind: Kind, nowMs: nat, staleAfterMs: nat,
      top: Label) {
    && top in labels
    && Candidate(feeds, kind, top)
    && (forall l :: l in labels && l != top && Candidate(feeds, kind, l)
          ==> Below(l, feeds[l], top, feeds[top], nowMs, staleAfterMs))
  }

  /** The choice a recomputation must make among `labels`: the top feed of the kind, or none if there is none. */
  ghost predicate Picks(feeds: map<Label, Feed>, labels: set<Label>, kind: Kind, nowMs: nat, staleAfterMs: nat,
      pick: Option<Label>) {
    match pick
    case None => forall l :: l in labels ==> !Candidate(feeds, kind, l)
    case Some(top) => Tops(feeds, labels, kind, nowMs, staleAfterMs, top)
  }

  /** The choice depends on the feeds only, never on the order in which the map lists them. */
  lemma PickUnique(feeds: map<Label, Feed>, labels: set<Label>, kind: Kind, nowMs: nat, staleAfterMs: nat,
                   p: Option<Label>, q: Option<Label>)
    requires Picks(feeds, labels, kind, nowMs, staleAfterMs, p)
    requires Picks(feeds, labels, kind, nowMs, staleAfterMs, q)
    ensures p == q
  {
    if p.Some? && q.Some? && p != q {
      BelowAsymmetric(p.value, feeds[p.value], q.value, feeds[q.value], nowMs, staleAfterMs);
    }
  }

  // ---------------------------------------------------------------- what decides between two feeds

  /** What a status is worth, in first hits over a closed feed. */
  function StatusHits(status: Status): nat {
    match status
    case Closed => 0
    case Disconnected => 10
    case Unknown => 30
    case Connecting => 50
    case Ready => 60
  }

  /** The feed reported its health, or delivered a first hit, no longer than `ms` ago. */
  predicate HeardWithin(f: Feed, nowMs: nat, ms: nat) {
    nowMs <= f.lastStatusMs + ms || nowMs <= f.lastFirstHitMs + ms
  }

  /** What having been heard of is worth, in first hits. */
  function HeardHits(f: Feed, nowMs: nat, staleAfterMs: nat): nat {
    if HeardWithin(f, nowMs, staleAfterMs / 2) then 25 else if HeardWithin(f, nowMs, staleAfterMs) then 15 else 0
  }

  /** First hits count up to a hundred. */
  function Worth(f: Feed, nowMs: nat, staleAfterMs: nat): nat {
    StatusHits(f.status) + (if f.firstHitCount <= 100 then f.firstHitCount else 100)
    + HeardHits(f, nowMs, staleAfterMs)
  }

  /**
   * Between two feeds, a ready one outweighs a disconnected one by 50 first hits, going half stale costs 10 and
   * stale 25, and hits beyond a hundred weigh nothing; equal weights are decided by the last hit, then by label.
   */
  lemma RanksByWorth(la: Label, a: Feed, lb: Label, b: Feed, nowMs: nat, staleAfterMs: nat)
    ensures var (wa, wb) := (Worth(a, nowMs, staleAfterMs), Worth(b, nowMs, staleAfterMs));
            Below(la, a, lb, b, nowMs, staleAfterMs) <==>
              || wa < wb
              || (wa == wb && a.lastFirstHitMs < b.lastFirstHitMs)
              || (wa == wb && a.lastFirstHitMs == b.lastFirstHitMs && Less(la, lb))
  {
    assert PriorityScore(a, nowMs, staleAfterMs) + 55 == Worth(a, nowMs, staleAfterMs);
    assert PriorityScore(b, nowMs, staleAfterMs) + 55 == Worth(b, nowMs, staleAfterMs);
  }

  /** From worst to best. */
  const STATUS_ORDER: seq<Status> := [Closed, Disconnected, Unknown, Connecting, Ready]

  /** With as many hits and heard of as recently, the better status ranks above. */
  lemma StatusDecides(la: Label, a: Feed, lb: Label, b: Feed, nowMs: nat, staleAfterMs: nat, i: nat, j: nat)
    requires i < j < 5 && a.status == STATUS_ORDER[i] && b.status == STATUS_ORDER[j]
    requires a.firstHitCount == b.firstHitCount
    requires HeardWithin(a, nowMs, staleAfterMs) ==> HeardWithin(b, nowMs, staleAfterMs)
    requires HeardWithin(a, nowMs, staleAfterMs / 2) ==> HeardWithin(b, nowMs, staleAfterMs / 2)
    ensures Below(la, a, lb, b, nowMs, staleAfterMs)
  {
    RanksByWorth(la, a, lb, b, nowMs, staleAfterMs);
  }

  // ---------------------------------------------------------------- one observation

  function ObservedFeeds(feeds: map<Label, Feed>, o: Observation): map<Label, Feed>
    requires o.FirstHit? ==> o.feedLabel in feeds
  {
    match o
    case Health(kind, feedLabel, url, status, detail, ts) =>
      var hits := if feedLabel in feeds then feeds[feedLabel].firstHitCount else 0;
      var hitMs := if feedLabel in feeds then feeds[feedLabel].lastFirstHitMs else 0;
      feeds[feedLabel := Feed(kind, url, FromStatus(status), detail, ts, hitMs, hits)]
    case FirstHit(feedLabel, ts) =>
      var f := feeds[feedLabel];
      feeds[feedLabel := f.(firstHitCount := Min(f.firstHitCount + 1, U64_MAX), lastFirstHitMs := ts)]
  }

  function ObservedKind(feeds: map<Label, Feed>, o: Observation): Kind
    requires o.FirstHit? ==> o.feedLabel in feeds
  {
    match o
    case Health(kind, _, _, _, _, _) => kind
    case FirstHit(feedLabel, _) => feeds[feedLabel].kind
  }

  function Reason(o: Observation): string {
    match o
    case Health(_, _, _, status, _, _) => "health:" + status
    case FirstHit(_, _) => "first_hit"
  }

  predicate Ignored(s: State, o: Observation) {
    o.FirstHit? && o.feedLabel !in s.feeds
  }

  /** What one observation does to the state and what it reports. */
  ghost predicate Step(s: State, o: Observation, s': State, change: Option<Change>) {
    if Ignored(s, o) then s' == s && change == None
    else
      var feeds := ObservedFeeds(s.feeds, o);
      var kind := ObservedKind(s.feeds, o);
      && s' == s.(feeds := feeds).WithPreferred(kind, s'.Preferred(kind))
      && Picks(feeds, feeds.Keys, kind, o.tsMs, s.staleAfterMs, s'.Preferred(kind))
      && change == (if s.Preferred(kind) == s'.Preferred(kind) then None
                    else Some(Change(kind, s.Preferred(kind), s'.Preferred(kind), Reason(o), o.tsMs)))
  }

  lemma StepDeterministic(s: State, o: Observation, s1: State, c1: Option<Change>, s2: State, c2: Option<Change>)
    requires Step(s, o, s1, c1) && Step(s, o, s2, c2)
    ensures s1 == s2 && c1 == c2
  {
    if !Ignored(s, o) {
      var feeds := ObservedFeeds(s.feeds, o);
      var kind := ObservedKind(s.feeds, o);
      PickUnique(feeds, feeds.Keys, kind, o.tsMs, s.staleAfterMs, s1.Preferred(kind), s2.Preferred(kind));
    }
  }

  class FailoverController {
    const staleAfterMs: nat
    var feeds: map<Label, Feed>
    var preferredProcessed: Option<Label>
    var preferredDeshred: Option<Label>

    function View(): State
      reads this
    {
      State(staleAfterMs, feeds, preferredProcessed, preferredDeshred)
    }

    constructor (staleAfterMs: nat)
      ensures View() == Initial(staleAfterMs)
    {
      this.staleAfterMs := staleAfterMs;
      feeds := map[];
      preferredProcessed, preferredDeshred := None, None;
    }

    /** Goes through the feeds in whatever order the map lists them, keeping the greatest seen so far. */
    method MaxFeed(kind: Kind, nowMs: nat) returns (best: Option<Label>)
      ensures Picks(feeds, feeds.Keys, kind, nowMs, staleAfterMs, best)
    {
      best := None;
      var rest := feeds.Keys;
      while rest != {}
        invariant rest <= feeds.Keys
        invariant Picks(feeds, feeds.Keys - rest, kind, nowMs, staleAfterMs, best)
        decreases |rest|
      {
        var feedLabel :| feedLabel in rest;
        ghost var seen := feeds.Keys - rest;
        rest := rest - {feedLabel};
        assert feeds.Keys - rest == seen + {feedLabel};
        if feeds[feedLabel].kind == kind {
          if best.None? || !Below(feedLabel, feeds[feedLabel], best.value, feeds[best.value], nowMs, staleAfterMs) {
            if best.Some? {
              BelowTotal(feedLabel, feeds[feedLabel], best.value, feeds[best.value], nowMs, staleAfterMs);
              forall l | l in seen && l != best.value && Candidate(feeds, kind, l)
                ensures Below(l, feeds[l], feedLabel, feeds[feedLabel], nowMs, staleAfterMs)
              {
                BelowTransitive(l, feeds[l], best.value, feeds[best.value], feedLabel, feeds[feedLabel], nowMs,
                    staleAfterMs);
              }
            }
            best := Some(feedLabel);
          }
        }
      }
      assert feeds.Keys - rest == feeds.Keys;
    }

    method RecomputePreferred(kind: Kind, nowMs: nat, reason: string) returns (change: Option<Change>)
      modifies this`preferredProcessed, this`preferredDeshred
      ensures View() == old(View()).WithPreferred(kind, View().Preferred(kind))
      ensures Picks(feeds, feeds.Keys, kind, nowMs, staleAfterMs, View().Preferred(kind))
      ensures change == if old(View()).Preferred(kind) == View().Preferred(kind) then None
                        else Some(Change(kind, old(View()).Preferred(kind), View().Preferred(kind), reason, nowMs))
    {
      var previous := if kind == Processed then preferredProcessed else preferredDeshred;
      var next := MaxFeed(kind, nowMs);
      if kind == Processed {
        preferredProcessed := next;
      } else {
        preferredDeshred := next;
      }
      change := if previous != next then Some(Change(kind, previous, next, reason, nowMs)) else None;
    }

    method ObserveHealth(kind: Kind, feedLabel: Label, url: string, status: string, detail: string, tsMs: nat)
      returns (change: Option<Change>)
      modifies this
      ensures Step(old(View()), Health(kind, feedLabel, url, status, detail, tsMs), View(), change)
    {
      if feedLabel !in feeds {
        feeds := feeds[feedLabel := Feed(kind, url, Unknown, "", 0, 0, 0)];
      }
      feeds := feeds[feedLabel := feeds[feedLabel].(url := url, kind := kind, status := FromStatus(status),
                                            detail := detail, lastStatusMs := tsMs)];
      assert feeds == ObservedFeeds(old(feeds), Health(kind, feedLabel, url, status, detail, tsMs));
      change := RecomputePreferred(kind, tsMs, "health:" + status);
    }

    method ObserveFirstHit(feedLabel: Label, detectedAtMs: nat) returns (change: Option<Change>)
      modifies this
      ensures Step(old(View()), FirstHit(feedLabel, detectedAtMs), View(), change)
    {
      if feedLabel !in feeds {
        return None;
      }
      var kind := feeds[feedLabel].kind;
      var count := feeds[feedLabel].firstHitCount;
      feeds := feeds[feedLabel := feeds[feedLabel].(firstHitCount := if count < U64_MAX then count + 1 else U64_MAX,
                                            lastFirstHitMs := detectedAtMs)];
      change := RecomputePreferred(kind, detectedAtMs, "first_hit");
    }
  }

  function Initial(staleAfterMs: nat): State {
    State(staleAfterMs, map[], None, None)
  }

  // ---------------------------------------------------------------- a hit never dethrones

  lemma PenaltyOnlyGrows(f: Feed, earlierMs: nat, laterMs: nat, staleAfterMs: nat)
    requires earlierMs <= laterMs
    ensures PriorityScore(f, laterMs, staleAfterMs) <= PriorityScore(f, earlierMs, staleAfterMs)
  {
  }

  /** With a clock that does not run backwards, a first hit reported by the leading feed leaves it leading. */
  lemma FirstHitKeepsLeader(s: State, feedLabel: Label, chosenMs: nat, tsMs: nat, s': State, change: Option<Change>)
    requires feedLabel in s.feeds && s.feeds[feedLabel].firstHitCount <= U64_MAX
    requires s.Preferred(s.feeds[feedLabel].kind) == Some(feedLabel)
    requires Picks(s.feeds, s.feeds.Keys, s.feeds[feedLabel].kind, chosenMs, s.staleAfterMs, Some(feedLabel))
    requires chosenMs <= tsMs && forall l :: l in s.feeds ==> s.feeds[l].lastFirstHitMs <= tsMs
    requires Step(s, FirstHit(feedLabel, tsMs), s', change)
    ensures s'.Preferred(s.feeds[feedLabel].kind) == Some(feedLabel) && change == None
  {
    var kind := s.feeds[feedLabel].kind;
    var feeds := ObservedFeeds(s.feeds, FirstHit(feedLabel, tsMs));
    forall l | l in feeds.Keys && l != feedLabel && Candidate(feeds, kind, l)
      ensures Below(l, feeds[l], feedLabel, feeds[feedLabel], tsMs, s.staleAfterMs)
    {
      assert Candidate(s.feeds, kind, l) && Below(l, s.feeds[l], feedLabel, s.feeds[feedLabel], chosenMs,
          s.staleAfterMs);
      PenaltyOnlyGrows(s.feeds[l], chosenMs, tsMs, s.staleAfterMs);
      assert PriorityScore(feeds[feedLabel], tsMs, s.staleAfterMs) >= PriorityScore(s.feeds[feedLabel], chosenMs,
          s.staleAfterMs);
    }
    assert Picks(feeds, feeds.Keys, kind, tsMs, s.staleAfterMs, Some(feedLabel));
    PickUnique(feeds, feeds.Keys, kind, tsMs, s.staleAfterMs, Some(feedLabel), s'.Preferred(kind));
  }

  // ---------------------------------------------------------------- preferences and feed kinds

  /** The preference of `kind` names a feed of that kind, and is empty only when there is no such feed. */
  ghost predicate Agrees(s: State, kind: Kind) {
    match s.Preferred(kind)
    case None => forall l :: !Candidate(s.feeds, kind, l)
    case Some(top) => Candidate(s.feeds, kind, top)
  }

  /** A health event breaks the other kind's preference exactly when it re-labels that kind's preferred feed. */
  lemma OtherPreferenceBreaksIff(s: State, o: Observation, s': State, change: Option<Change>)
    requires Step(s, o, s', change) && o.Health?
    requires Agrees(s, Other(o.kind))
    ensures Agrees(s', Other(o.kind)) <==> s.Preferred(Other(o.kind)) != Some(o.feedLabel)
  {
    var k := Other(o.kind);
    assert s'.Preferred(k) == s.Preferred(k);
    assert forall l :: Candidate(s'.feeds, k, l) <==> Candidate(s.feeds, k, l) && l != o.feedLabel;
  }

  lemma FirstHitKeepsAgreement(s: State, o: Observation, s': State, change: Option<Change>, kind: Kind)
    requires Step(s, o, s', change) && o.FirstHit?
    requires Agrees(s, kind)
    ensures Agrees(s', kind)
  {
    if !Ignored(s, o) && ObservedKind(s.feeds, o) != kind {
      assert forall l :: Candidate(s'.feeds, kind, l) <==> Candidate(s.feeds, kind, l);
    }
  }

  // ---------------------------------------------------------------- every run

  ghost predicate Run(states: seq<State>, obs: seq<Observation>, changes: seq<Option<Change>>) {
    && |states| == |obs| + 1 && |changes| == |obs|
    && states[0] == Initial(states[0].staleAfterMs)
    && forall i :: 0 <= i < |obs| ==> Step(states[i], obs[i], states[i + 1], changes[i])
  }

  /** The preference a reader of the change log arrives at. */
  function Replay(log: seq<Option<Change>>, kind: Kind): Option<Label> {
    if log == [] then None
    else
      var last := log[|log| - 1];
      if last.Some? && last.value.kind == kind then last.value.preferred
      else Replay(log[..|log| - 1], kind)
  }

  lemma StepReports(s: State, o: Observation, s': State, change: Option<Change>, kind: Kind)
    requires Step(s, o, s', change)
    ensures s'.Preferred(kind) == if change.Some? && change.value.kind == kind then change.value.preferred
        else s.Preferred(kind)
  {
  }

  /** The log replays to the current preference of each kind at every moment. */
  lemma {:induction false} ReplayIsPreferred(states: seq<State>, obs: seq<Observation>, changes: seq<Option<Change>>,
      n: nat, kind: Kind)
    requires Run(states, obs, changes) && n <= |obs|
    ensures Replay(changes[..n], kind) == states[n].Preferred(kind)
  {
    if n > 0 {
      ReplayIsPreferred(states, obs, changes, n - 1, kind);
      assert changes[..n][..n - 1] == changes[..n - 1];
      StepReports(states[n - 1], obs[n - 1], states[n], changes[n - 1], kind);
    }
  }

  /** Each reported change starts where the log before it ended, and moves somewhere else. */
  lemma ChangesFormAChain(states: seq<State>, obs: seq<Observation>, changes: seq<Option<Change>>, n: nat)
    requires Run(states, obs, changes) && n < |obs| && changes[n].Some?
    ensures var c := changes[n].value;
            && c.previous == Replay(changes[..n], c.kind)
            && c.preferred == Replay(changes[..n + 1], c.kind)
            && c.previous != c.preferred
  {
    assert Step(states[n], obs[n], states[n + 1], changes[n]);
    ReplayIsPreferred(states, obs, changes, n, changes[n].value.kind);
    ReplayIsPreferred(states, obs, changes, n + 1, changes[n].value.kind);
  }

  /** Observation `i` elects for the kind. */
  ghost predicate ElectsAt(states: seq<State>, obs: seq<Observation>, kind: Kind, i: nat)
    requires |states| == |obs| + 1 && i < |obs|
  {
    !Ignored(states[i], obs[i]) && ObservedKind(states[i].feeds, obs[i]) == kind
  }

  /** A health event after `i` and before `n` reports this feed. */
  ghost predicate ReportedBetween(obs: seq<Observation>, feedLabel: Label, i: nat, n: nat)
    requires n <= |obs|
  {
    exists j :: i < j < n && obs[j].Health? && obs[j].feedLabel == feedLabel
  }

  /** A step that does not elect for a kind takes at most the reported feed out of it, and changes none that stays. */
  lemma OtherKindStep(s: State, o: Observation, s': State, change: Option<Change>, kind: Kind, l: Label)
    requires Step(s, o, s', change) && (!Ignored(s, o) ==> ObservedKind(s.feeds, o) != kind)
    ensures s'.Preferred(kind) == s.Preferred(kind)
    ensures Candidate(s'.feeds, kind, l) <==> Candidate(s.feeds, kind, l) && !(o.Health? && o.feedLabel == l)
    ensures Candidate(s'.feeds, kind, l) ==> s'.feeds[l] == s.feeds[l]
  {
  }

  lemma {:induction false} KindOnlyLoses(states: seq<State>, obs: seq<Observation>, changes: seq<Option<Change>>,
                                         kind: Kind, i: nat, n: nat, l: Label)
    requires Run(states, obs, changes) && i < n <= |obs|
    requires forall j :: i < j < n ==> !ElectsAt(states, obs, kind, j)
    ensures states[n].Preferred(kind) == states[i + 1].Preferred(kind)
    ensures Candidate(states[n].feeds, kind, l) <==>
              Candidate(states[i + 1].feeds, kind, l) && !ReportedBetween(obs, l, i, n)
    ensures Candidate(states[n].feeds, kind, l) ==> states[n].feeds[l] == states[i + 1].feeds[l]
  {
    if n > i + 1 {
      KindOnlyLoses(states, obs, changes, kind, i, n - 1, l);
      assert Step(states[n - 1], obs[n - 1], states[n], changes[n - 1]);
      assert !ElectsAt(states, obs, kind, n - 1);
      OtherKindStep(states[n - 1], obs[n - 1], states[n], changes[n - 1], kind, l);
      assert ReportedBetween(obs, l, i, n) <==>
               ReportedBetween(obs, l, i, n - 1) || (obs[n - 1].Health? && obs[n - 1].feedLabel == l);
    }
  }

  /**
   * From the latest observation that elects for a kind on, its preference is the top feed of that kind as of
   * that observation's time, and this lasts exactly until a health event reports the preferred feed, which
   * can then only be under the other kind.
   */
  lemma LatestElectionStands(states: seq<State>, obs: seq<Observation>, changes: seq<Option<Change>>, kind: Kind,
      i: nat, n: nat)
    requires Run(states, obs, changes) && i < n <= |obs| && ElectsAt(states, obs, kind, i)
    requires forall j :: i < j < n ==> !ElectsAt(states, obs, kind, j)
    ensures states[n].Preferred(kind) == states[i + 1].Preferred(kind)
    ensures var now := states[n];
            Picks(now.feeds, now.feeds.Keys, kind, obs[i].tsMs, states[i].staleAfterMs, now.Preferred(kind)) <==>
              match now.Preferred(kind) case None => true case Some(top) => !ReportedBetween(obs, top, i, n)
  {
    var was, now, pick := states[i + 1], states[n], states[i + 1].Preferred(kind);
    assert Step(states[i], obs[i], was, changes[i]);
    assert Picks(was.feeds, was.feeds.Keys, kind, obs[i].tsMs, states[i].staleAfterMs, pick);
    forall l
      ensures now.Preferred(kind) == pick
      ensures Candidate(now.feeds, kind, l) <==> Candidate(was.feeds, kind, l) && !ReportedBetween(obs, l, i, n)
      ensures Candidate(now.feeds, kind, l) ==> now.feeds[l] == was.feeds[l]
    {
      KindOnlyLoses(states, obs, changes, kind, i, n, l);
    }
    KindOnlyLoses(states, obs, changes, kind, i, n, "");
  }

  // ---------------------------------------------------------------- feeds, from the observations

  /** The latest health event for this label. */
  function LastReport(obs: seq<Observation>, l: Label): (r: Option<Observation>)
    ensures r.Some? ==> r.value in obs && r.value.Health? && r.value.feedLabel == l
  {
    if obs == [] then None
    else
      var last := obs[|obs| - 1];
      if last.Health? && last.feedLabel == l then Some(last) else LastReport(obs[..|obs| - 1], l)
  }

  /** The first hits of this label since it was first reported. */
  function HitsOf(obs: seq<Observation>, l: Label): nat {
    if obs == [] then 0
    else
      var before, last := obs[..|obs| - 1], obs[|obs| - 1];
      HitsOf(before, l) + if last.FirstHit? && last.feedLabel == l && LastReport(before, l).Some? then 1 else 0
  }

  /** The time of the latest of these hits, or 0. */
  function LastHitMs(obs: seq<Observation>, l: Label): nat {
    if obs == [] then 0
    else
      var before, last := obs[..|obs| - 1], obs[|obs| - 1];
      if last.FirstHit? && last.feedLabel == l && LastReport(before, l).Some? then last.tsMs else LastHitMs(before, l)
  }

  /** One observation changes the feed it names: a report replaces all but the hits, a hit only these. */
  lemma FeedStep(s: State, o: Observation, s': State, change: Option<Change>, l: Label)
    requires Step(s, o, s', change)
    ensures o.feedLabel != l || Ignored(s, o) ==> (l in s'.feeds <==> l in s.feeds)
    ensures (o.feedLabel != l || Ignored(s, o)) && l in s.feeds ==> s'.feeds[l] == s.feeds[l]
    ensures o.feedLabel == l && o.Health? ==>
              && l in s'.feeds && s'.feeds[l].kind == o.kind && s'.feeds[l].lastStatusMs == o.tsMs
              && s'.feeds[l].status == FromStatus(o.status)
              && s'.feeds[l].firstHitCount == (if l in s.feeds then s.feeds[l].firstHitCount else 0)
              && s'.feeds[l].lastFirstHitMs == (if l in s.feeds then s.feeds[l].lastFirstHitMs else 0)
    ensures o.feedLabel == l && o.FirstHit? && l in s.feeds ==>
              && l in s'.feeds
              && s'.feeds[l] == s.feeds[l].(firstHitCount := Min(s.feeds[l].firstHitCount + 1, U64_MAX),
                                            lastFirstHitMs := o.tsMs)
  {
  }

  /** What is known of a feed is its latest report, the latest of its hits, and their number as far as 64 bits count. */
  lemma {:induction false} FeedIsItsHistory(states: seq<State>, obs: seq<Observation>, changes: seq<Option<Change>>,
      n: nat, l: Label)
    requires Run(states, obs, changes) && n <= |obs|
    ensures l in states[n].feeds <==> LastReport(obs[..n], l).Some?
    ensures l in states[n].feeds ==>
              var f, r := states[n].feeds[l], LastReport(obs[..n], l).value;
              && r.Health? && f.kind == r.kind && f.lastStatusMs == r.tsMs && f.status == FromStatus(r.status)
              && f.firstHitCount == Min(HitsOf(obs[..n], l), U64_MAX) && f.lastFirstHitMs == LastHitMs(obs[..n], l)
    ensures l !in states[n].feeds ==> HitsOf(obs[..n], l) == 0 && LastHitMs(obs[..n], l) == 0
  {
    if n > 0 {
      FeedIsItsHistory(states, obs, changes, n - 1, l);
      assert obs[..n][..n - 1] == obs[..n - 1] && obs[..n][n - 1] == obs[n - 1];
      FeedStep(states[n - 1], obs[n - 1], states[n], changes[n - 1], l);
    }
  }

  /** When the feed was last heard of. */
  function LastHeard(obs: seq<Observation>, l: Label): nat {
    var r := LastReport(obs, l);
    Max(if r.Some? then r.value.tsMs else 0, LastHitMs(obs, l))
  }

  /**
   * Whenever a kind is elected, a feed that last reported to be disconnected or closed is not preferred while a
   * feed of the kind last reported to be ready, has had at least as many first hits, and was heard of as recently.
   */
  lemma DeadFeedsYield(states: seq<State>, obs: seq<Observation>, changes: seq<Option<Change>>, kind: Kind, n: nat,
      top: Label, l: Label)
    requires Run(states, obs, changes) && n < |obs| && ElectsAt(states, obs, kind, n)
    requires states[n + 1].Preferred(kind) == Some(top)
    requires var r := LastReport(obs[..n + 1], l); r.Some? && r.value.kind == kind && r.value.status == "ready"
    requires HitsOf(obs[..n + 1], l) >= HitsOf(obs[..n + 1], top)
    requires LastHeard(obs[..n + 1], l) >= LastHeard(obs[..n + 1], top)
    ensures var r := LastReport(obs[..n + 1], top);
            r.Some? && r.value.kind == kind && r.value.status != "disconnected" && r.value.status != "closed"
  {
    FeedIsItsHistory(states, obs, changes, n + 1, l);
    FeedIsItsHistory(states, obs, changes, n + 1, top);
    assert Step(states[n], obs[n], states[n + 1], changes[n]);
    var feeds := states[n + 1].feeds;
    assert Tops(feeds, feeds.Keys, kind, obs[n].tsMs, states[n].staleAfterMs, top);
    StatusTexts();
    if l != top {
      assert Candidate(feeds, kind, l);
      RanksByWorth(l, feeds[l], top, feeds[top], obs[n].tsMs, states[n].staleAfterMs);
    }
  }

  lemma StatusTexts()
    ensures FromStatus("ready") == Ready && FromStatus("disconnected") == Disconnected && FromStatus("closed") == Closed
    ensures "ready" != "disconnected" && "ready" != "closed"
  {
    assert |"ready"| == 5 && |"disconnected"| == 12 && |"closed"| == 6 && |"connecting"| == 10;
  }

  /** A run in which no label is ever reported under two kinds. */
  ghost predicate KindsFixed(obs: seq<Observation>, kindOf: Label -> Kind) {
    forall i :: 0 <= i < |obs| && obs[i].Health? ==> obs[i].kind == kindOf(obs[i].feedLabel)
  }

  lemma {:induction false} FixedKindsAgree(states: seq<State>, obs: seq<Observation>, changes: seq<Option<Change>>,
                                           kindOf: Label -> Kind, n: nat)
    requires Run(states, obs, changes) && KindsFixed(obs, kindOf) && n <= |obs|
    ensures Agrees(states[n], Processed) && Agrees(states[n], Deshred)
    ensures forall l :: l in states[n].feeds ==> states[n].feeds[l].kind == kindOf(l)
  {
    if n > 0 {
      FixedKindsAgree(states, obs, changes, kindOf, n - 1);
      var s, o, s', c := states[n - 1], obs[n - 1], states[n], changes[n - 1];
      assert Step(s, o, s', c);
      if o.Health? {
        OtherPreferenceBreaksIff(s, o, s', c);
      } else {
        FirstHitKeepsAgreement(s, o, s', c, Processed);
        FirstHitKeepsAgreement(s, o, s', c, Deshred);
      }
    }
  }

  /** Two health events that report one label under both kinds leave it preferred for both. */
  lemma SwitchedKindWitness(feedLabel: Label, staleAfterMs: nat, s1: State, c1: Option<Change>, s2: State,
      c2: Option<Change>)
    requires Step(Initial(staleAfterMs), Health(Processed, feedLabel, "", "ready", "", 0), s1, c1)
    requires Step(s1, Health(Deshred, feedLabel, "", "ready", "", 1), s2, c2)
    ensures s2.Preferred(Processed) == Some(feedLabel) == s2.Preferred(Deshred)
    ensures !Agrees(s2, Processed)
  {
    assert Candidate(s1.feeds, Processed, feedLabel) && Candidate(s2.feeds, Deshred, feedLabel);
    assert s1.feeds.Keys == {feedLabel} && s2.feeds.Keys == {feedLabel};
  }
}
