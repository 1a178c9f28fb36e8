/** How recent execution receipts steer the priority fee, the tip and the route of the next trade. */
module Execution {
  import opened Wrappers
  import opened Arithmetic

  datatype Primary = Disabled | Rpc | Jito | ZeroSlot

  datatype Plan = Plan(primary: Primary, sendRpc: bool, sendJito: bool, sendZeroSlot: bool)

  datatype Tier = Conservative | Balanced | Aggressive

  datatype Feedback = Feedback(
    sampleCount: nat,
    successRateBps: nat,
    failureStreak: nat,
    preferFanout: bool,
    preferZeroSlot: bool,
    feeBoostBps: nat,
    tipBoostBps: nat)

  datatype Profile = Profile(
    tier: Tier,
    routeLabel: string,
    useAllChannels: bool,
    allowZeroSlot: bool,
    priorityFeeBps: nat,
    tipBps: nat)

  // ---------------------------------------------------------------- receipts

  /** Receipts are known by their status alone. */
  type Status = string

  predicate IsSample(s: Status) {
    s != "dry_run" && s != "submitted"
  }

  predicate IsSuccess(s: Status) {
    s == "confirmed" || s == "landed" || s == "bundle_accepted" || s == "success"
  }

  const FAILED_SUFFIX := "_failed"

  predicate EndsWith(s: string, suffix: string) {
    |s| >= |suffix| && s[|s| - |suffix|..] == suffix
  }

  predicate IsFailure(s: Status) {
    || EndsWith(s, FAILED_SUFFIX)
    || s == "dropped" || s == "expired" || s == "rejected" || s == "replaced" || s == "not_landed"
        || s == "bundle_rejected"
  }

  lemma FailureIsASample(s: Status)
    requires IsFailure(s)
    ensures IsSample(s) && !IsSuccess(s)
  {
    if EndsWith(s, FAILED_SUFFIX) {
      assert s[|s| - 1] == s[|s| - |FAILED_SUFFIX|..][|FAILED_SUFFIX| - 1] == 'd';
      assert s[|s| - 2] == s[|s| - |FAILED_SUFFIX|..][|FAILED_SUFFIX| - 2] == 'e';
      assert s[|s| - 3] == s[|s| - |FAILED_SUFFIX|..][|FAILED_SUFFIX| - 3] == 'l';
    }
  }

  function Samples(receipts: seq<Status>): seq<Status> {
    if receipts == [] then []
    else
      var last := receipts[|receipts| - 1];
      Samples(receipts[..|receipts| - 1]) + if IsSample(last) then [last] else []
  }

  function Successes(samples: seq<Status>): nat {
    if samples == [] then 0
    else Successes(samples[..|samples| - 1]) + if IsSuccess(samples[|samples| - 1]) then 1 else 0
  }

  function Streak(samples: seq<Status>): (k: nat)
    ensures k <= |samples|
  {
    if samples == [] || !IsFailure(samples[|samples| - 1]) then 0 else Streak(samples[..|samples| - 1]) + 1
  }

  /** The streak is the longest run of failures that ends the samples. */
  lemma {:induction false} StreakIsLongest(samples: seq<Status>)
    ensures var k := Streak(samples);
            && (forall i :: |samples| - k <= i < |samples| ==> IsFailure(samples[i]))
            && (k < |samples| ==> !IsFailure(samples[|samples| - k - 1]))
  {
    if samples != [] && IsFailure(samples[|samples| - 1]) {
      StreakIsLongest(samples[..|samples| - 1]);
    }
  }

  lemma {:induction false} SuccessesAndStreakAreApart(samples: seq<Status>)
    ensures Successes(samples) + Streak(samples) <= |samples|
  {
    if samples != [] {
      SuccessesAndStreakAreApart(samples[..|samples| - 1]);
      if IsFailure(samples[|samples| - 1]) {
        FailureIsASample(samples[|samples| - 1]);
      }
    }
  }

  function RateBps(successes: nat, samples: nat): nat {
    if samples == 0 then 10_000 else successes * 10_000 / samples
  }

  function FeeBoost(samples: nat, rate: nat, streak: nat): nat {
    if samples < 4 then 10_000 else if rate < 5_000 then 13_500 else if rate < 7_500 then 12_000
    else if streak >= 2 then 11_500 else 10_000
  }

  function TipBoost(samples: nat, rate: nat, streak: nat): nat {
    if samples < 4 then 10_000 else if rate < 5_000 then 14_000 else if rate < 7_500 then 12_500
    else if streak >= 2 then 11_500 else 10_000
  }

  function FeedbackOf(plan: Plan, receipts: seq<Status>): Feedback {
    var samples := Samples(receipts);
    var n, streak := |samples|, Streak(samples);
    var rate := RateBps(Successes(samples), n);
    Feedback(n, rate, streak,
             plan.sendJito && n >= 4 && rate < 8_000,
             plan.sendZeroSlot && n >= 4 && (rate < 7_000 || streak >= 2),
             FeeBoost(n, rate, streak), TipBoost(n, rate, streak))
  }

  /** The last `k` samples are failures. */
  ghost predicate FailTail(samples: seq<Status>, k: nat) {
    k <= |samples| && forall i :: |samples| - k <= i < |samples| ==> IsFailure(samples[i])
  }

  lemma FailTailGrows(samples: seq<Status>, k: nat)
    requires k < |samples| && FailTail(samples, k) && IsFailure(samples[|samples| - k - 1])
    ensures FailTail(samples, k + 1)
  {
  }

  lemma StreakOfTail(samples: seq<Status>, k: nat)
    requires FailTail(samples, k)
    requires k < |samples| ==> !IsFailure(samples[|samples| - k - 1])
    ensures Streak(samples) == k
  {
    StreakIsLongest(samples);
  }

  /** The two passes over the receipts: forward for the counts, backward for the streak. */
  method ExecutionFeedbackFromReceipts(plan: Plan, receipts: seq<Status>) returns (f: Feedback)
    ensures f == FeedbackOf(plan, receipts)
  {
    var sampleCount, successCount := 0, 0;
    for i := 0 to |receipts|
      invariant sampleCount == |Samples(receipts[..i])| && successCount == Successes(Samples(receipts[..i]))
    {
      assert receipts[..i + 1][..i] == receipts[..i];
      ghost var was, now := Samples(receipts[..i]), Samples(receipts[..i + 1]);
      assert now == if IsSample(receipts[i]) then was + [receipts[i]] else was;
      if IsSample(receipts[i]) {
        assert now[..|now| - 1] == was;
        sampleCount := sampleCount + 1;
        if IsSuccess(receipts[i]) {
          successCount := successCount + 1;
        }
      }
    }
    assert receipts[..|receipts|] == receipts;
    var rate := if sampleCount == 0 then 10_000 else successCount * 10_000 / sampleCount;
    var streak := CountStreak(receipts);
    var preferFanout := plan.sendJito && sampleCount >= 4 && rate < 8_000;
    var preferZeroSlot := plan.sendZeroSlot && sampleCount >= 4 && (rate < 7_000 || streak >= 2);
    var feeBoost, tipBoost := 10_000, 10_000;
    if sampleCount >= 4 {
      if rate < 5_000 {
        feeBoost, tipBoost := 13_500, 14_000;
      } else if rate < 7_500 {
        feeBoost, tipBoost := 12_000, 12_500;
      } else if streak >= 2 {
        feeBoost, tipBoost := 11_500, 11_500;
      }
    }
    f := Feedback(sampleCount, rate, streak, preferFanout, preferZeroSlot, feeBoost, tipBoost);
  }

  lemma SamplesSnoc(receipts: seq<Status>, i: nat)
    requires i < |receipts|
    ensures Samples(receipts[..i + 1]) == Samples(receipts[..i]) + if IsSample(receipts[i]) then [receipts[i]] else []
  {
    assert receipts[..i + 1][..i] == receipts[..i];
  }

  method CountStreak(receipts: seq<Status>) returns (streak: nat)
    ensures streak == Streak(Samples(receipts))
  {
    streak := 0;
    ghost var samples := Samples(receipts);
    var i := |receipts|;
    assert receipts[..i] == receipts && samples[..|samples|] == samples;
    while i > 0
      invariant 0 <= i <= |receipts| && FailTail(samples, streak)
      invariant samples[..|samples| - streak] == Samples(receipts[..i])
    {
      i := i - 1;
      SamplesSnoc(receipts, i);
      if IsSample(receipts[i]) {
        assert samples[|samples| - streak - 1] == receipts[i];
        if !IsFailure(receipts[i]) {
          StreakOfTail(samples, streak);
          return;
        }
        FailTailGrows(samples, streak);
        streak := streak + 1;
      }
    }
    assert receipts[..0] == [];
    StreakOfTail(samples, streak);
  }

  // ---------------------------------------------------------------- what one more receipt does

  /** The share of successes is a proportion, and a full one only if there is nothing else. */
  lemma RateAtMost(s: nat, n: nat)
    requires s <= n
    ensures RateBps(s, n) <= 10_000
    ensures s < n ==> RateBps(s, n) < 10_000
  {
    if n > 0 {
      LeDiv(10_001, s * 10_000, n);
      LeDiv(10_000, s * 10_000, n);
    }
  }

  lemma RateFallsWithMore(s: nat, n: nat)
    requires s <= n
    ensures RateBps(s, n + 1) <= RateBps(s, n)
  {
    if n == 0 {
      assert s == 0;
    } else {
      MulLe(n, n + 1, s * 10_000);
      CrossDiv(s * 10_000, n + 1, s * 10_000, n);
    }
  }

  lemma RateRisesWithSuccess(s: nat, n: nat)
    requires s <= n && n > 0
    ensures RateBps(s, n) <= RateBps(s + 1, n + 1)
  {
    var a, b := s * 10_000, (s + 1) * 10_000;
    assert a * (n + 1) == a * n + a;
    assert b * n == a * n + 10_000 * n;
    assert a <= 10_000 * n;
    CrossDiv(a, n, b, n + 1);
  }

  /** For every receipt list: successes and the failure streak are different samples, and the rate is a proportion. */
  lemma FeedbackBounds(plan: Plan, receipts: seq<Status>)
    ensures var f := FeedbackOf(plan, receipts);
            && Successes(Samples(receipts)) + f.failureStreak <= f.sampleCount <= |receipts|
            && f.successRateBps <= 10_000
            && (f.successRateBps == 10_000 ==> f.failureStreak == 0)
  {
    var samples := Samples(receipts);
    SuccessesAndStreakAreApart(samples);
    RateAtMost(Successes(samples), |samples|);
    SamplesAtMost(receipts);
  }

  lemma {:induction false} SamplesAtMost(receipts: seq<Status>)
    ensures |Samples(receipts)| <= |receipts|
  {
    if receipts != [] {
      SamplesAtMost(receipts[..|receipts| - 1]);
    }
  }

  lemma AppendSample(receipts: seq<Status>, s: Status)
    requires IsSample(s)
    ensures var was, now := Samples(receipts), Samples(receipts + [s]);
            && now == was + [s]
            && Successes(now) == Successes(was) + (if IsSuccess(s) then 1 else 0)
            && Streak(now) == if IsFailure(s) then Streak(was) + 1 else 0
  {
    assert (receipts + [s])[..|receipts|] == receipts;
    var was, now := Samples(receipts), Samples(receipts + [s]);
    assert now == was + [s] && now[..|was|] == was;
  }

  /** Dry runs and submissions that are still open leave the feedback as it was. */
  lemma OpenReceiptsAreNeutral(plan: Plan, receipts: seq<Status>, s: Status)
    requires !IsSample(s)
    ensures FeedbackOf(plan, receipts + [s]) == FeedbackOf(plan, receipts)
  {
    assert (receipts + [s])[..|receipts|] == receipts;
    assert Samples(receipts + [s]) == Samples(receipts);
  }

  /** What one more receipt adds, by its text: a success, a failure, or nothing. */
  lemma ReceiptKinds(receipts: seq<Status>, s: Status, prefix: string)
    ensures var (was, now) := (Samples(receipts), Samples(receipts + [s]));
            && (s in {"confirmed", "landed", "bundle_accepted", "success"} ==>
                  |now| == |was| + 1 && Successes(now) == Successes(was) + 1 && Streak(now) == 0)
            && (s in {"dropped", "expired", "rejected", "replaced", "not_landed", "bundle_rejected"}
                || s == prefix + "_failed" ==>
                  |now| == |was| + 1 && Successes(now) == Successes(was) && Streak(now) == Streak(was) + 1)
            && (s in {"dry_run", "submitted"} ==> now == was)
  {
    if s == prefix + "_failed" {
      assert s[|s| - 7..] == "_failed";
    }
    if IsFailure(s) {
      FailureIsASample(s);
    }
    if IsSample(s) {
      AppendSample(receipts, s);
    } else {
      assert (receipts + [s])[..|receipts|] == receipts;
    }
    if IsSuccess(s) {
      SuccessIsNoFailure(s);
    }
  }

  /** Any other text is a sample that is neither. */
  lemma OtherReceipts(receipts: seq<Status>, s: Status)
    requires s !in {"confirmed", "landed", "bundle_accepted", "success", "dry_run", "submitted"}
    requires s !in {"dropped", "expired", "rejected", "replaced", "not_landed", "bundle_rejected"}
    requires |s| < 7 || s[|s| - 7..] != "_failed"
    ensures var (was, now) := (Samples(receipts), Samples(receipts + [s]));
            |now| == |was| + 1 && Successes(now) == Successes(was) && Streak(now) == 0
  {
    AppendSample(receipts, s);
  }

  lemma FailureLowersRate(plan: Plan, receipts: seq<Status>, s: Status)
    requires IsFailure(s)
    ensures var was, now := FeedbackOf(plan, receipts), FeedbackOf(plan, receipts + [s]);
            && now.successRateBps <= was.successRateBps
            && now.failureStreak == was.failureStreak + 1 && now.sampleCount == was.sampleCount + 1
  {
    FailureIsASample(s);
    AppendSample(receipts, s);
    SuccessesAndStreakAreApart(Samples(receipts));
    RateFallsWithMore(Successes(Samples(receipts)), |Samples(receipts)|);
  }

  lemma SuccessBoost(k: nat, n: nat, streak: nat, k': nat, n': nat)
    requires k + streak <= n && k' == k + 1 && n' == n + 1
    ensures FeeBoost(n', RateBps(k', n'), 0) > FeeBoost(n, RateBps(k, n), streak) <==> n == 3 && k <= 1
  {
    if n >= 4 {
      RateRisesWithSuccess(k, n);
    } else if n == 3 {
      assert RateBps(1, 4) == 2_500 && RateBps(2, 4) == 5_000 && RateBps(3, 4) == 7_500 && RateBps(4, 4) == 10_000;
      assert k == 0 || k == 1 || k == 2 || k == 3;
    }
  }

  lemma SampleAfterSuccess(receipts: seq<Status>, s: Status)
    requires IsSuccess(s)
    ensures var was, now := Samples(receipts), Samples(receipts + [s]);
            |now| == |was| + 1 && Successes(now) == Successes(was) + 1 && Streak(now) == 0
  {
    SuccessIsNoFailure(s);
    AppendSample(receipts, s);
  }

  /**
   * One more success raises the fee boost exactly when it is the fourth sample and at most one of the first three
   * succeeded.
   */
  lemma SuccessRaisesFeeIff(plan: Plan, receipts: seq<Status>, s: Status)
    requires IsSuccess(s)
    ensures var more := FeedbackOf(plan, receipts + [s]).feeBoostBps > FeedbackOf(plan, receipts).feeBoostBps;
            more <==> |Samples(receipts)| == 3 && Successes(Samples(receipts)) <= 1
  {
    var was, now := Samples(receipts), Samples(receipts + [s]);
    SampleAfterSuccess(receipts, s);
    SuccessesAndStreakAreApart(was);
    SuccessBoost(Successes(was), |was|, Streak(was), Successes(now), |now|);
    FeeBoostOf(plan, receipts);
    FeeBoostOf(plan, receipts + [s]);
  }

  lemma FeeBoostOf(plan: Plan, receipts: seq<Status>)
    ensures var samples := Samples(receipts);
            FeedbackOf(plan, receipts).feeBoostBps == FeeBoost(|samples|, RateBps(Successes(samples), |samples|),
                Streak(samples))
  {
  }

  lemma FailuresAreSamples(receipts: seq<Status>, f: Status)
    requires IsFailure(f)
    ensures |Samples(receipts + [f])| == |Samples(receipts)| + 1
    ensures Successes(Samples(receipts + [f])) == Successes(Samples(receipts))
  {
    FailureIsASample(f);
    AppendSample(receipts, f);
  }

  lemma ThreeFailures(f: Status)
    requires IsFailure(f)
    ensures |Samples([f, f, f])| == 3 && Successes(Samples([f, f, f])) == 0
  {
    FailuresAreSamples([], f);
    FailuresAreSamples([f], f);
    FailuresAreSamples([f, f], f);
    assert [] + [f] == [f] && [f] + [f] == [f, f] && [f, f] + [f] == [f, f, f];
  }

  lemma SendFailedIsFailure()
    ensures IsFailure("send_failed")
  {
    assert "send_failed"[4..] == FAILED_SUFFIX;
  }

  /** Three failures leave the fee as it is; the success that follows raises it by 35 percent. */
  lemma SuccessRaisesFeeWitness(plan: Plan)
    ensures var failures := ["send_failed", "send_failed", "send_failed"];
            && FeedbackOf(plan, failures).feeBoostBps == 10_000
            && FeedbackOf(plan, failures + ["confirmed"]).feeBoostBps == 13_500
  {
    var failures := ["send_failed", "send_failed", "send_failed"];
    SendFailedIsFailure();
    ThreeFailures("send_failed");
    SampleAfterSuccess(failures, "confirmed");
    FeeBoostOf(plan, failures);
    FeeBoostOf(plan, failures + ["confirmed"]);
  }

  lemma SuccessIsNoFailure(s: Status)
    requires IsSuccess(s)
    ensures IsSample(s) && !IsFailure(s)
  {
    if IsFailure(s) {
      FailureIsASample(s);
    }
  }

  // ---------------------------------------------------------------- the profile of the next trade

  function Rank(t: Tier): nat {
    match t
    case Conservative => 0
    case Balanced => 1
    case Aggressive => 2
  }

  function BaseTier(fast: bool, urgency: nat, confidence: nat): Tier {
    if confidence >= 80 || (fast && urgency >= 18) then Aggressive
    else if confidence >= 60 || fast then Balanced
    else Conservative
  }

  function TierFor(fast: bool, urgency: nat, confidence: nat, streak: nat): Tier {
    var tier := BaseTier(fast, urgency, confidence);
    if streak >= 2 && tier != Aggressive then (if tier == Conservative then Balanced else Aggressive) else tier
  }

  function CombineBps(baseBps: nat, boostBps: nat): nat {
    baseBps * Max(boostBps, 10_000) / 10_000
  }

  function BaseFeeBps(t: Tier): nat {
    match t
    case Aggressive => 15_000
    case Balanced => 12_500
    case Conservative => 10_000
  }

  function BaseTipBps(t: Tier): nat {
    match t
    case Aggressive => 16_000
    case Balanced => 12_500
    case Conservative => 10_000
  }

  function PrimaryLabel(p: Primary): string {
    match p
    case Disabled => "disabled"
    case Rpc => "rpc"
    case Jito => "jito"
    case ZeroSlot => "zero_slot"
  }

  function ProfileForSignal(plan: Plan, path: string, urgency: nat, confidence: nat, f: Feedback): Profile {
    var tier := TierFor(path == "fast", urgency, confidence, f.failureStreak);
    var useAllChannels := !plan.sendZeroSlot && plan.sendJito && (tier != Conservative || f.preferFanout);
    var allowZeroSlot := plan.sendZeroSlot && (plan.primary == ZeroSlot || f.preferZeroSlot || f.failureStreak >= 3);
    var route := if allowZeroSlot then (if useAllChannels then "zero_slot+jito" else "zero_slot")
                 else if useAllChannels then "rpc+jito" else PrimaryLabel(plan.primary);
    Profile(tier, route, useAllChannels, allowZeroSlot,
            CombineBps(BaseFeeBps(tier), f.feeBoostBps), CombineBps(BaseTipBps(tier), f.tipBoostBps))
  }

  /** `b` pays at least as much and uses at least the channels that `a` does. */
  predicate AtLeast(b: Profile, a: Profile) {
    && Rank(b.tier) >= Rank(a.tier)
    && b.priorityFeeBps >= a.priorityFeeBps && b.tipBps >= a.tipBps
    && (a.useAllChannels ==> b.useAllChannels) && (a.allowZeroSlot ==> b.allowZeroSlot)
  }

  lemma AtLeastTransitive(c: Profile, b: Profile, a: Profile)
    requires AtLeast(c, b) && AtLeast(b, a)
    ensures AtLeast(c, a)
  {
  }

  /** A failed receipt never makes the next trade of the same signal cheaper, calmer or narrower. */
  lemma FailureNeverCalms(plan: Plan, path: string, urgency: nat, confidence: nat, receipts: seq<Status>, s: Status)
    requires IsFailure(s)
    ensures AtLeast(ProfileForSignal(plan, path, urgency, confidence, FeedbackOf(plan, receipts + [s])),
                    ProfileForSignal(plan, path, urgency, confidence, FeedbackOf(plan, receipts)))
  {
    FailureLowersRate(plan, receipts, s);
    var was, now := FeedbackOf(plan, receipts), FeedbackOf(plan, receipts + [s]);
    assert now.feeBoostBps >= was.feeBoostBps >= 10_000 && now.tipBoostBps >= was.tipBoostBps >= 10_000;
    var t := TierFor(path == "fast", urgency, confidence, was.failureStreak);
    var u := TierFor(path == "fast", urgency, confidence, now.failureStreak);
    assert Rank(u) >= Rank(t);
    CombineMono(BaseFeeBps(t), was.feeBoostBps, BaseFeeBps(u), now.feeBoostBps);
    CombineMono(BaseTipBps(t), was.tipBoostBps, BaseTipBps(u), now.tipBoostBps);
  }

  lemma CombineMono(a: nat, x: nat, b: nat, y: nat)
    requires a <= b && x <= y
    ensures CombineBps(a, x) <= CombineBps(b, y)
  {
    var mx, my := Max(x, 10_000), Max(y, 10_000);
    MulLe(a, b, mx);
    MulLe(mx, my, b);
    assert a * mx <= b * my;
  }

  /** Any number of failures in a row only escalates. */
  lemma {:induction false} FailuresOnlyEscalate(plan: Plan, path: string, urgency: nat, confidence: nat,
                                                receipts: seq<Status>, failures: seq<Status>)
    requires forall i :: 0 <= i < |failures| ==> IsFailure(failures[i])
    ensures AtLeast(ProfileForSignal(plan, path, urgency, confidence, FeedbackOf(plan, receipts + failures)),
                    ProfileForSignal(plan, path, urgency, confidence, FeedbackOf(plan, receipts)))
    decreases |failures|
  {
    if failures == [] {
      assert receipts + failures == receipts;
    } else {
      var init, last := failures[..|failures| - 1], failures[|failures| - 1];
      assert (receipts + init) + [last] == receipts + failures;
      FailuresOnlyEscalate(plan, path, urgency, confidence, receipts, init);
      FailureNeverCalms(plan, path, urgency, confidence, receipts + init, last);
      AtLeastTransitive(ProfileForSignal(plan, path, urgency, confidence, FeedbackOf(plan, receipts + failures)),
                        ProfileForSignal(plan, path, urgency, confidence, FeedbackOf(plan, receipts + init)),
                        ProfileForSignal(plan, path, urgency, confidence, FeedbackOf(plan, receipts)));
    }
  }

  // ---------------------------------------------------------------- the profile, from the receipts

  lemma RateBelow(s: nat, n: nat, k: nat)
    requires s <= n && 0 < k <= 10_000
    ensures RateBps(s, n) < k <==> s * 10_000 < k * n
  {
    if n > 0 {
      LeDiv(k, s * 10_000, n);
    }
  }

  /**
   * The boosts, in shares of successes among four samples or more: under a half, under three quarters, or at
   * least that with the last two failed.
   */
  lemma BoostsIff(plan: Plan, receipts: seq<Status>)
    ensures var (f, n, k) := (FeedbackOf(plan, receipts), |Samples(receipts)|, Successes(Samples(receipts)));
            && (f.feeBoostBps == 13_500 <==> n >= 4 && 2 * k < n)
            && (f.feeBoostBps == 12_000 <==> n >= 4 && 2 * k >= n && 4 * k < 3 * n)
            && (f.feeBoostBps == 11_500 <==> n >= 4 && 4 * k >= 3 * n && f.failureStreak >= 2)
            && (f.feeBoostBps == 10_000 <==> n < 4 || (4 * k >= 3 * n && f.failureStreak < 2))
            && (f.tipBoostBps == 14_000 <==> f.feeBoostBps == 13_500)
            && (f.tipBoostBps == 12_500 <==> f.feeBoostBps == 12_000)
            && (f.tipBoostBps == 11_500 <==> f.feeBoostBps == 11_500)
            && (f.tipBoostBps == 10_000 <==> f.feeBoostBps == 10_000)
  {
    var samples := Samples(receipts);
    SuccessesAndStreakAreApart(samples);
    RateBelow(Successes(samples), |samples|, 5_000);
    RateBelow(Successes(samples), |samples|, 7_500);
  }

  /** Two failures at the end raise the tier by one; otherwise confidence and the fast path decide it. */
  lemma TierIff(plan: Plan, path: string, urgency: nat, confidence: nat, receipts: seq<Status>)
    ensures var (p, streak) := (ProfileForSignal(plan, path, urgency, confidence, FeedbackOf(plan, receipts)),
                                Streak(Samples(receipts)));
            && (p.tier == Aggressive <==>
                  || confidence >= 80 || (path == "fast" && urgency >= 18)
                  || (streak >= 2 && (confidence >= 60 || path == "fast")))
            && (p.tier == Conservative <==> confidence < 60 && path != "fast" && streak < 2)
  {
  }

  /** More confidence or urgency never makes the next trade cheaper, calmer or narrower. */
  lemma ConfidenceNeverCalms(plan: Plan, path: string, urgency: nat, confidence: nat, urgency': nat, confidence': nat,
      receipts: seq<Status>)
    requires urgency <= urgency' && confidence <= confidence'
    ensures AtLeast(ProfileForSignal(plan, path, urgency', confidence', FeedbackOf(plan, receipts)),
                    ProfileForSignal(plan, path, urgency, confidence, FeedbackOf(plan, receipts)))
  {
    var f := FeedbackOf(plan, receipts);
    var t := TierFor(path == "fast", urgency, confidence, f.failureStreak);
    var u := TierFor(path == "fast", urgency', confidence', f.failureStreak);
    assert Rank(u) >= Rank(t);
    CombineMono(BaseFeeBps(t), f.feeBoostBps, BaseFeeBps(u), f.feeBoostBps);
    CombineMono(BaseTipBps(t), f.tipBoostBps, BaseTipBps(u), f.tipBoostBps);
  }

  /** What is paid with no boost and with the largest. */
  lemma FeeRange(plan: Plan, path: string, urgency: nat, confidence: nat, receipts: seq<Status>)
    ensures var f := FeedbackOf(plan, receipts);
            var p := ProfileForSignal(plan, path, urgency, confidence, f);
            && (f.feeBoostBps == 10_000 ==>
                  match p.tier
                  case Conservative => p.priorityFeeBps == 10_000 && p.tipBps == 10_000
                  case Balanced => p.priorityFeeBps == 12_500 && p.tipBps == 12_500
                  case Aggressive => p.priorityFeeBps == 15_000 && p.tipBps == 16_000)
            && (f.feeBoostBps == 13_500 ==>
                  match p.tier
                  case Conservative => p.priorityFeeBps == 13_500 && p.tipBps == 14_000
                  case Balanced => p.priorityFeeBps == 16_875 && p.tipBps == 17_500
                  case Aggressive => p.priorityFeeBps == 20_250 && p.tipBps == 22_400)
  {
    BoostsIff(plan, receipts);
  }

  /** Which channels are used, from the configured ones and the receipts. */
  lemma ChannelsIff(plan: Plan, path: string, urgency: nat, confidence: nat, receipts: seq<Status>)
    ensures var p := ProfileForSignal(plan, path, urgency, confidence, FeedbackOf(plan, receipts));
            var (n, k, streak) := (|Samples(receipts)|, Successes(Samples(receipts)), Streak(Samples(receipts)));
            && (p.useAllChannels <==>
                  plan.sendJito && !plan.sendZeroSlot && (p.tier != Conservative || (n >= 4 && 5 * k < 4 * n)))
            && (p.allowZeroSlot <==>
                  && plan.sendZeroSlot
                  && (plan.primary == ZeroSlot || streak >= 3 || (n >= 4 && (10 * k < 7 * n || streak >= 2))))
            && p.routeLabel == (if p.allowZeroSlot then "zero_slot" else if p.useAllChannels then "rpc+jito"
                                else match plan.primary
                                     case Disabled => "disabled"
                                     case Rpc => "rpc"
                                     case Jito => "jito"
                                     case ZeroSlot => "zero_slot")
  {
    var samples := Samples(receipts);
    SuccessesAndStreakAreApart(samples);
    RateBelow(Successes(samples), |samples|, 8_000);
    RateBelow(Successes(samples), |samples|, 7_000);
  }

  // ---------------------------------------------------------------- routes

  /** No plan, configured or not, ever yields the combined zero-slot and Jito route. */
  lemma RoutesNeverMix(plan: Plan, path: string, urgency: nat, confidence: nat, f: Feedback)
    ensures var p := ProfileForSignal(plan, path, urgency, confidence, f);
            !(p.useAllChannels && p.allowZeroSlot) && p.routeLabel != "zero_slot+jito"
  {
    assert "rpc+jito"[0] == 'r';
    assert |"zero_slot+jito"| == 14;
  }

  // ---------------------------------------------------------------- scaling a fee

  /** The cast to 64 bits keeps the low bits only. */
  function ScaleByBps(base: nat, bps: nat): nat {
    base * bps / 10_000 % (U64_MAX + 1)
  }

  lemma ProfileBpsBounds(plan: Plan, path: string, urgency: nat, confidence: nat, receipts: seq<Status>)
    ensures var p := ProfileForSignal(plan, path, urgency, confidence, FeedbackOf(plan, receipts));
            10_000 <= p.priorityFeeBps <= 20_250 && 10_000 <= p.tipBps <= 22_400
  {
  }

  /** Largest base that no boost can push past 64 bits. */
  const SAFE_BASE: nat := 8_235_153_604_334_621_257

  /**
   * A boosted fee is never below its base as long as the exact product fits 64 bits, which is also exactly
   * when nothing is cut off; any base up to SAFE_BASE is within that for every profile.
   */
  lemma ScaledFeeExactIff(base: nat, bps: nat)
    requires 10_000 <= bps <= 22_400
    ensures ScaleByBps(base, bps) == base * bps / 10_000 <==> base * bps / 10_000 <= U64_MAX
    ensures base * bps / 10_000 <= U64_MAX ==> ScaleByBps(base, bps) >= base
    ensures base <= SAFE_BASE ==> base * bps / 10_000 <= U64_MAX
    ensures base > SAFE_BASE ==> base * 22_400 / 10_000 > U64_MAX
  {
    MulLe(10_000, bps, base);
    assert base * 10_000 <= base * bps;
    DivMono(base * 10_000, base * bps, 10_000);
    if base <= SAFE_BASE {
      MulLe(base, SAFE_BASE, bps);
      MulLe(bps, 22_400, SAFE_BASE);
      assert base * bps <= SAFE_BASE * 22_400;
      DivMono(base * bps, SAFE_BASE * 22_400, 10_000);
    }
  }

  /** So the fee of the next trade never falls when a receipt fails, as long as it is not cut off. */
  lemma FailureNeverLowersFee(plan: Plan, path: string, urgency: nat, confidence: nat, receipts: seq<Status>, s: Status,
      base: nat)
    requires IsFailure(s) && base <= SAFE_BASE
    ensures var was := ProfileForSignal(plan, path, urgency, confidence, FeedbackOf(plan, receipts));
            var now := ProfileForSignal(plan, path, urgency, confidence, FeedbackOf(plan, receipts + [s]));
            && base <= ScaleByBps(base, was.priorityFeeBps) <= ScaleByBps(base, now.priorityFeeBps)
            && base <= ScaleByBps(base, was.tipBps) <= ScaleByBps(base, now.tipBps)
  {
    var was := ProfileForSignal(plan, path, urgency, confidence, FeedbackOf(plan, receipts));
    var now := ProfileForSignal(plan, path, urgency, confidence, FeedbackOf(plan, receipts + [s]));
    FailureNeverCalms(plan, path, urgency, confidence, receipts, s);
    ProfileBpsBounds(plan, path, urgency, confidence, receipts);
    ProfileBpsBounds(plan, path, urgency, confidence, receipts + [s]);
    ScaledMono(base, was.priorityFeeBps, now.priorityFeeBps);
    ScaledMono(base, was.tipBps, now.tipBps);
  }

  lemma ScaledMono(base: nat, bps: nat, bps': nat)
    requires base <= SAFE_BASE && 10_000 <= bps <= bps' <= 22_400
    ensures base <= ScaleByBps(base, bps) <= ScaleByBps(base, bps')
  {
    ScaledFeeExactIff(base, bps);
    ScaledFeeExactIff(base, bps');
    MulLe(bps, bps', base);
    assert base * bps <= base * bps';
    DivMono(base * bps, base * bps', 10_000);
  }
}
