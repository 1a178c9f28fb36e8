/**
 * Consensus over target wallets: per (group, token) a sliding window of signals that triggers once
 * when enough distinct wallets are in it. Instants and durations are counted in nanoseconds.
 */
module Consensus {
  import opened Wrappers

  const NANOS_PER_SEC: nat := 1000000000

  datatype Key = Key(group: string, mint: string)

  datatype Signal = Signal(
    group: string, groupName: string, mint: string, wallet: string,
    detectedAt: nat, signature: string, minWallets: nat, timeoutSecs: nat)

  datatype Trigger = Trigger(key: Key, groupName: string, wallets: seq<string>, firstSignature: string)

  datatype Entry = Entry(signals: seq<Signal>, triggered: bool, minWallets: nat, timeout: nat)

  datatype Act =
    | Submit(signal: Signal)
    | Revoke(key: Key, wallet: string)
    | Clean(key: Key)

  /**
   * One section under an entry's lock. Its clock reading was taken before the lock, so it may be older
   * than `doneAt`, the time at which the section runs: a cleanup takes one reading for all entries.
   */
  datatype Op = Op(at: nat, doneAt: nat, act: Act)

  function KeyOf(s: Signal): Key {
    Key(s.group, s.mint)
  }

  /** Elapsed time saturates at zero, so a signal detected "in the future" is fresh. */
  predicate Fresh(s: Signal, now: nat, timeout: nat) {
    SatSub(now, s.detectedAt) < timeout
  }

  function KeepFresh(signals: seq<Signal>, now: nat, timeout: nat): (kept: seq<Signal>)
    ensures forall s :: s in kept <==> s in signals && Fresh(s, now, timeout)
  {
    if signals == [] then []
    else
      var rest := KeepFresh(signals[1..], now, timeout);
      if Fresh(signals[0], now, timeout) then [signals[0]] + rest else rest
  }

  function DropWallet(signals: seq<Signal>, wallet: string): (kept: seq<Signal>)
    ensures forall s :: s in kept <==> s in signals && s.wallet != wallet
  {
    if signals == [] then []
    else
      var rest := DropWallet(signals[1..], wallet);
      if signals[0].wallet != wallet then [signals[0]] + rest else rest
  }

  function Wallets(signals: seq<Signal>): seq<string> {
    seq(|signals|, i requires 0 <= i < |signals| => signals[i].wallet)
  }

  // ---------------------------------------------------------------- transitions

  function NewEntry(s: Signal): Entry {
    Entry([], false, s.minWallets, Max(s.timeoutSecs, 1) * NANOS_PER_SEC)
  }

  /** The entry after a signal; it triggers if this makes the window large enough. */
  function SubmitTo(e: Entry, s: Signal, now: nat): Entry {
    if e.triggered then e
    else
      var kept := KeepFresh(e.signals, now, e.timeout);
      if s.wallet in Wallets(kept) then e.(signals := kept)
      else e.(signals := kept + [s], triggered := |kept| + 1 >= e.minWallets)
  }

  function EntryOr(m: map<Key, Entry>, s: Signal): Entry {
    if KeyOf(s) in m then m[KeyOf(s)] else NewEntry(s)
  }

  function RevokeFrom(e: Entry, wallet: string): Entry {
    if e.triggered then e else e.(signals := DropWallet(e.signals, wallet))
  }

  /** The cleanup task's verdict on an entry whose window has just been cleaned. */
  predicate Keeps(cleaned: Entry, now: nat) {
    && cleaned.signals != []
    && (cleaned.triggered ==> !forall s :: s in cleaned.signals ==> SatSub(now, s.detectedAt) > cleaned.timeout * 2)
  }

  function Cleaned(e: Entry, now: nat): Entry {
    e.(signals := KeepFresh(e.signals, now, e.timeout))
  }

  function CleanOne(m: map<Key, Entry>, k: Key, now: nat): map<Key, Entry> {
    if k !in m then m
    else if Keeps(Cleaned(m[k], now), now) then m[k := Cleaned(m[k], now)]
    else m - {k}
  }

  function Step(m: map<Key, Entry>, op: Op): map<Key, Entry> {
    match op.act
    case Submit(s) => m[KeyOf(s) := SubmitTo(EntryOr(m, s), s, op.at)]
    case Revoke(k, w) => if k in m then m[k := RevokeFrom(m[k], w)] else m
    case Clean(k) => CleanOne(m, k, op.at)
  }

  /** The trigger that an operation sends. */
  function Emitted(m: map<Key, Entry>, op: Op): Option<Trigger> {
    match op.act
    case Submit(s) =>
      var before := EntryOr(m, s);
      var after := SubmitTo(before, s, op.at);
      if !before.triggered && after.triggered && after.signals != [] then
        Some(Trigger(KeyOf(s), s.groupName, Wallets(after.signals), after.signals[0].signature))
      else None
    case Revoke(_, _) => None
    case Clean(_) => None
  }

  // ---------------------------------------------------------------- the engine

  class Engine {
    var signals: map<Key, Entry>
    var sent: seq<Trigger>

    constructor ()
      ensures signals == map[] && sent == []
    {
      signals, sent := map[], [];
    }

    method SubmitSignal(s: Signal, now: nat, ghost doneAt: nat)
      modifies this
      ensures signals == Step(old(signals), Op(now, doneAt, Submit(s)))
      ensures sent == old(sent) + match Emitted(old(signals), Op(now, doneAt, Submit(s)))
                                  case Some(t) => [t]
                                  case None => []
    {
      var key := KeyOf(s);
      if key !in signals {
        signals := signals[key := NewEntry(s)];
      }
      var entry := signals[key];
      if entry.triggered {
        assert signals == Step(old(signals), Op(now, doneAt, Submit(s)));
        return;
      }
      entry := entry.(signals := KeepFresh(entry.signals, now, entry.timeout));
      var duplicate := s.wallet in Wallets(entry.signals);
      if !duplicate {
        entry := entry.(signals := entry.signals + [s]);
        var wallets := Wallets(entry.signals);
        if |wallets| >= entry.minWallets {
          entry := entry.(triggered := true);
          sent := sent + [Trigger(key, s.groupName, wallets, entry.signals[0].signature)];
        }
      }
      signals := signals[key := entry];
    }

    method RevokeSignal(key: Key, wallet: string, ghost now: nat, ghost doneAt: nat) returns (revoked: bool)
      modifies this`signals
      ensures signals == Step(old(signals), Op(now, doneAt, Revoke(key, wallet)))
      ensures revoked <==> key in old(signals) && |signals[key].signals| < |old(signals)[key].signals|
    {
      revoked := false;
      if key in signals {
        var entry := signals[key];
        if entry.triggered {
          assert signals == signals[key := entry];
          return;
        }
        var before := |entry.signals|;
        entry := entry.(signals := DropWallet(entry.signals, wallet));
        DropShortens(signals[key].signals, wallet);
        signals := signals[key := entry];
        revoked := before != |entry.signals|;
      }
    }

    /** The cleanup task's section for one entry, under that entry's lock. */
    method CleanEntry(k: Key, now: nat, ghost doneAt: nat)
      modifies this`signals
      ensures signals == Step(old(signals), Op(now, doneAt, Clean(k)))
    {
      if k in signals {
        var entry := Cleaned(signals[k], now);
        if Keeps(entry, now) {
          signals := signals[k := entry];
        } else {
          signals := signals - {k};
        }
      }
    }

    /** One round of the cleanup task that nothing interrupts: one section per entry, all with one reading. */
    method CleanupRound(now: nat, ghost doneAt: nat)
      modifies this`signals
      ensures forall k :: k in signals <==> k in old(signals) && Keeps(Cleaned(old(signals)[k], now), now)
      ensures forall k :: k in signals ==> signals[k] == Cleaned(old(signals)[k], now)
    {
      var left := signals.Keys;
      while left != {}
        invariant left <= old(signals).Keys && left <= signals.Keys && signals.Keys <= old(signals).Keys
        invariant forall k :: k in left ==> signals[k] == old(signals)[k]
        invariant forall k :: k in old(signals) && k !in left ==>
                    (k in signals <==> Keeps(Cleaned(old(signals)[k], now), now))
        invariant forall k :: k in signals && k !in left ==> signals[k] == Cleaned(old(signals)[k], now)
        decreases |left|
      {
        var k :| k in left;
        left := left - {k};
        CleanEntry(k, now, doneAt);
      }
    }
  }

  lemma {:induction false} DropShortens(signals: seq<Signal>, wallet: string)
    ensures |DropWallet(signals, wallet)| <= |signals|
  {
    if signals != [] {
      DropShortens(signals[1..], wallet);
    }
  }

  // ---------------------------------------------------------------- entries

  ghost predicate DistinctWallets(signals: seq<Signal>) {
    forall i, j :: 0 <= i < j < |signals| ==> signals[i].wallet != signals[j].wallet
  }

  ghost predicate EntryOk(k: Key, e: Entry) {
    && DistinctWallets(e.signals)
    && (forall s :: s in e.signals ==> KeyOf(s) == k)
    && (!e.triggered ==> |e.signals| < e.minWallets)
    && (e.triggered ==> e.signals != [])
    && e.timeout >= NANOS_PER_SEC
  }

  ghost predicate AllOk(m: map<Key, Entry>) {
    forall k :: k in m ==> EntryOk(k, m[k])
  }

  /**
   * Cleanup drops an entry exactly when every signal in it is at least one timeout old. The further test
   * for twice the timeout never decides: what is that old has already left the window.
   */
  lemma CleanupDropsIff(m: map<Key, Entry>, now: nat, k: Key)
    requires k in m && EntryOk(k, m[k])
    ensures k !in CleanOne(m, k, now) <==> forall s :: s in m[k].signals ==> now >= s.detectedAt + m[k].timeout
  {
    var cleaned := Cleaned(m[k], now);
    if cleaned.signals != [] {
      assert cleaned.signals[0] in cleaned.signals;
    }
  }

  lemma {:induction false} KeepFreshDistinct(signals: seq<Signal>, now: nat, timeout: nat)
    requires DistinctWallets(signals)
    ensures DistinctWallets(KeepFresh(signals, now, timeout))
    ensures |KeepFresh(signals, now, timeout)| <= |signals|
  {
    if signals != [] {
      KeepFreshDistinct(signals[1..], now, timeout);
      var rest := KeepFresh(signals[1..], now, timeout);
      forall j | 0 <= j < |rest| ensures rest[j].wallet != signals[0].wallet {
        assert rest[j] in signals[1..];
      }
    }
  }

  lemma {:induction false} DropWalletDistinct(signals: seq<Signal>, wallet: string)
    requires DistinctWallets(signals)
    ensures DistinctWallets(DropWallet(signals, wallet))
    ensures |DropWallet(signals, wallet)| <= |signals|
  {
    if signals != [] {
      DropWalletDistinct(signals[1..], wallet);
      var rest := DropWallet(signals[1..], wallet);
      forall j | 0 <= j < |rest| ensures rest[j].wallet != signals[0].wallet {
        assert rest[j] in signals[1..];
      }
    }
  }

  /** Before a window is large enough it is untriggered; the first submission of a wallet that completes it triggers. */
  lemma SubmitOk(k: Key, e: Entry, s: Signal, now: nat)
    requires EntryOk(k, e) || (e == NewEntry(s))
    requires KeyOf(s) == k
    ensures EntryOk(k, SubmitTo(e, s, now))
    ensures var after := SubmitTo(e, s, now);
            !e.triggered && after.triggered ==>
              && |after.signals| >= e.minWallets
              && after.signals[|after.signals| - 1] == s
              && forall i :: 0 <= i < |after.signals| - 1 ==>
                  after.signals[i] in e.signals && Fresh(after.signals[i], now, e.timeout)
  {
    if !e.triggered {
      KeepFreshDistinct(e.signals, now, e.timeout);
      var kept := KeepFresh(e.signals, now, e.timeout);
      var wallets := Wallets(kept);
      if s.wallet in wallets {
        assert kept != [];
        assert kept[0] in e.signals;
      } else {
        forall i | 0 <= i < |kept| ensures kept[i].wallet != s.wallet {
          assert wallets[i] == kept[i].wallet;
        }
      }
      forall i | 0 <= i < |kept| ensures kept[i] in e.signals && Fresh(kept[i], now, e.timeout) {
        assert kept[i] in kept;
      }
    }
  }

  lemma StepOk(m: map<Key, Entry>, op: Op)
    requires AllOk(m)
    ensures AllOk(Step(m, op))
  {
    match op.act
    case Submit(s) => SubmitOk(KeyOf(s), EntryOr(m, s), s, op.at);
    case Revoke(k, w) =>
      if k in m {
        DropWalletDistinct(m[k].signals, w);
      }
    case Clean(k) =>
      if k in m {
        KeepFreshDistinct(m[k].signals, op.at, m[k].timeout);
      }
  }

  // ---------------------------------------------------------------- whole runs

  /**
   * The entry maps a run passes through: sections in the order in which they run, each with a reading taken by then.
   */
  ghost predicate Run(states: seq<map<Key, Entry>>, ops: seq<Op>) {
    && |states| == |ops| + 1
    && states[0] == map[]
    && (forall i :: 0 <= i < |ops| ==> states[i + 1] == Step(states[i], ops[i]))
    && (forall i :: 0 <= i < |ops| ==> ops[i].at <= ops[i].doneAt)
    && (forall i, j :: 0 <= i < j < |ops| ==> ops[i].doneAt <= ops[j].doneAt)
  }

  lemma {:induction false} RunOk(states: seq<map<Key, Entry>>, ops: seq<Op>, n: nat)
    requires Run(states, ops) && n <= |ops|
    ensures AllOk(states[n])
  {
    if n > 0 {
      RunOk(states, ops, n - 1);
      StepOk(states[n - 1], ops[n - 1]);
    }
  }

  predicate SubmittedAt(ops: seq<Op>, s: Signal, p: nat)
    requires p < |ops|
  {
    ops[p].act == Submit(s)
  }

  predicate RevokedAt(ops: seq<Op>, k: Key, wallet: string, p: nat)
    requires p < |ops|
  {
    ops[p].act == Revoke(k, wallet)
  }

  /** The signal was submitted at `p` and its wallet has not been revoked for this key between then and `n`. */
  ghost predicate Standing(ops: seq<Op>, k: Key, s: Signal, p: nat, n: nat)
    requires n <= |ops|
  {
    && p < n && SubmittedAt(ops, s, p)
    && forall q: nat :: p < q < n ==> !RevokedAt(ops, k, s.wallet, q)
  }

  ghost predicate Stands(ops: seq<Op>, k: Key, s: Signal, n: nat)
    requires n <= |ops|
  {
    exists p: nat :: Standing(ops, k, s, p, n)
  }

  /** Every signal of an untriggered entry stands. */
  lemma {:induction false} WindowStands(states: seq<map<Key, Entry>>, ops: seq<Op>, n: nat, k: Key, s: Signal)
    returns (p: nat)
    requires Run(states, ops) && n <= |ops|
    requires k in states[n] && !states[n][k].triggered && s in states[n][k].signals
    ensures Standing(ops, k, s, p, n)
  {
    RunOk(states, ops, n);
    var m, op := states[n - 1], ops[n - 1];
    if op.act.Submit? && KeyOf(op.act.signal) == k && (k !in m || s !in m[k].signals) {
      assert s == op.act.signal;
      p := n - 1;
    } else {
      p := WindowStands(states, ops, n - 1, k, s);
      assert !RevokedAt(ops, k, s.wallet, n - 1);
    }
  }

  /** The submission at `p` made the entry that the key has at `n`: there was none before it, and one ever since. */
  ghost predicate MadeAt(states: seq<map<Key, Entry>>, ops: seq<Op>, k: Key, p: nat, n: nat)
    requires n < |states| && n <= |ops|
  {
    && p < n && ops[p].act.Submit? && KeyOf(ops[p].act.signal) == k
    && k !in states[p] && forall q :: p < q <= n ==> k in states[q]
  }

  /** The window a signal asks for, in nanoseconds: whole seconds, at least one. */
  function AskedTimeout(s: Signal): nat {
    if s.timeoutSecs == 0 then 1_000_000_000 else s.timeoutSecs * 1_000_000_000
  }

  lemma StepKeepsTerms(m: map<Key, Entry>, op: Op, k: Key)
    requires k in m && k in Step(m, op)
    ensures Step(m, op)[k].minWallets == m[k].minWallets && Step(m, op)[k].timeout == m[k].timeout
  {
  }

  /** An entry keeps the minimum and the timeout of the signal whose submission made it, whatever later signals ask. */
  lemma {:induction false} EntryTerms(states: seq<map<Key, Entry>>, ops: seq<Op>, n: nat, k: Key) returns (p: nat)
    requires Run(states, ops) && n <= |ops| && k in states[n]
    ensures MadeAt(states, ops, k, p, n)
    ensures states[n][k].minWallets == ops[p].act.signal.minWallets
    ensures states[n][k].timeout == AskedTimeout(ops[p].act.signal)
  {
    var m, op := states[n - 1], ops[n - 1];
    if k in m {
      p := EntryTerms(states, ops, n - 1, k);
      StepKeepsTerms(m, op, k);
    } else {
      p := n - 1;
    }
  }

  /**
   * Let `p` be the submission that made the entry. A trigger carries exactly as many wallets as that signal asked
   * for, and at least one; they are pairwise distinct; each was submitted for this key and not revoked since; and
   * all but the one just submitted were detected less than that signal's timeout before the clock reading.
   */
  lemma TriggerIsQuorum(states: seq<map<Key, Entry>>, ops: seq<Op>, n: nat) returns (p: nat)
    requires Run(states, ops) && n < |ops| && Emitted(states[n], ops[n]).Some?
    ensures var t := Emitted(states[n], ops[n]).value;
            && MadeAt(states, ops, t.key, p, n + 1)
            && var (e, first) := (states[n + 1][t.key], ops[p].act.signal);
               && e.triggered && t.wallets == Wallets(e.signals)
               && |t.wallets| == (if first.minWallets == 0 then 1 else first.minWallets)
               && (forall i, j :: 0 <= i < j < |t.wallets| ==> t.wallets[i] != t.wallets[j])
               && (forall i :: 0 <= i < |e.signals| ==> Stands(ops, t.key, e.signals[i], n + 1))
               && (forall i :: 0 <= i < |e.signals| - 1 ==>
                     ops[n].at < e.signals[i].detectedAt + AskedTimeout(first))
  {
    RunOk(states, ops, n);
    var s := ops[n].act.signal;
    var k := KeyOf(s);
    var before := EntryOr(states[n], s);
    SubmitOk(k, before, s, ops[n].at);
    KeepFreshDistinct(before.signals, ops[n].at, before.timeout);
    var e := states[n + 1][k];
    assert Emitted(states[n], ops[n]).value.key == k;
    p := EntryTerms(states, ops, n + 1, k);
    QuorumStands(states, ops, n, n + 1);
  }

  lemma QuorumStands(states: seq<map<Key, Entry>>, ops: seq<Op>, n: nat, next: nat)
    requires Run(states, ops) && next == n + 1 <= |ops| && Emitted(states[n], ops[n]).Some?
    ensures var k := Emitted(states[n], ops[n]).value.key;
            k in states[next] && forall s :: s in states[next][k].signals ==> Stands(ops, k, s, next)
  {
    RunOk(states, ops, n);
    var s := ops[n].act.signal;
    var k := KeyOf(s);
    SubmitOk(k, EntryOr(states[n], s), s, ops[n].at);
    var e := states[n + 1][k];
    forall i | 0 <= i < |e.signals| ensures Stands(ops, k, e.signals[i], n + 1) {
      if i == |e.signals| - 1 {
        assert Standing(ops, k, s, n, n + 1);
      } else {
        assert k in states[n];
        var p := WindowStands(states, ops, n, k, e.signals[i]);
        assert !RevokedAt(ops, k, e.signals[i].wallet, n);
        assert Standing(ops, k, e.signals[i], p, n + 1);
      }
    }
  }

  /** The signals of the window that are not yet a timeout old, by their wallets. */
  function FreshWallets(e: Entry, at: nat): set<string> {
    set s | s in e.signals && at < s.detectedAt + e.timeout :: s.wallet
  }

  lemma {:induction false} DistinctCount(signals: seq<Signal>)
    requires DistinctWallets(signals)
    ensures |set s | s in signals :: s.wallet| == |signals|
  {
    if signals != [] {
      var n := |signals| - 1;
      DistinctCount(signals[..n]);
      assert signals == signals[..n] + [signals[n]];
      assert (set s | s in signals :: s.wallet) == (set s | s in signals[..n] :: s.wallet) + {signals[n].wallet};
    }
  }

  /**
   * A submission triggers if and only if the key has not triggered, the wallet is not among those of its fresh
   * signals, and with it these are as many as were asked for. A key without an entry is asked by this signal itself.
   */
  lemma SubmissionTriggersIff(states: seq<map<Key, Entry>>, ops: seq<Op>, n: nat)
    requires Run(states, ops) && n < |ops| && ops[n].act.Submit?
    ensures var (m, s, at) := (states[n], ops[n].act.signal, ops[n].at);
            var k := KeyOf(s);
            Emitted(m, ops[n]).Some? <==>
              if k !in m then s.minWallets <= 1
              else && !m[k].triggered && s.wallet !in FreshWallets(m[k], at)
                   && |FreshWallets(m[k], at)| + 1 >= m[k].minWallets
  {
    RunOk(states, ops, n);
    var (m, s, at) := (states[n], ops[n].act.signal, ops[n].at);
    if KeyOf(s) in m {
      var e := m[KeyOf(s)];
      var kept := KeepFresh(e.signals, at, e.timeout);
      KeepFreshDistinct(e.signals, at, e.timeout);
      DistinctCount(kept);
      assert FreshWallets(e, at) == set x | x in kept :: x.wallet;
      assert s.wallet in Wallets(kept) <==> s.wallet in FreshWallets(e, at) by {
        var wallets := Wallets(kept);
        if s.wallet in wallets {
          var i :| 0 <= i < |kept| && wallets[i] == s.wallet;
          assert kept[i] in kept;
        }
        if x :| x in kept && x.wallet == s.wallet {
          var i :| 0 <= i < |kept| && kept[i] == x;
          assert wallets[i] == s.wallet;
        }
      }
    }
  }

  /** At `d` the cleanup task drops the entry for `k`. */
  ghost predicate DroppedAt(states: seq<map<Key, Entry>>, ops: seq<Op>, k: Key, d: nat)
    requires |states| == |ops| + 1 && d < |ops|
  {
    ops[d].act == Clean(k) && k in states[d] && k !in states[d + 1]
  }

  /** Every listed signal is at least a timeout old at this time. */
  ghost predicate AllAged(signals: seq<Signal>, timeout: nat, at: nat) {
    forall s :: s in signals ==> at >= s.detectedAt + timeout
  }

  /** The entry is triggered, and what has left its window since `e` is at least a timeout old. */
  ghost predicate StillTriggered(m: map<Key, Entry>, k: Key, e: Entry, at: nat) {
    && k in m && m[k].triggered && m[k].timeout == e.timeout
    && forall s :: s in e.signals ==> s in m[k].signals || at >= s.detectedAt + e.timeout
  }

  lemma TriggeredStep(m: map<Key, Entry>, op: Op, k: Key, e: Entry, before: nat)
    requires StillTriggered(m, k, e, before) && before <= op.doneAt && op.at <= op.doneAt && AllOk(m)
    ensures StillTriggered(Step(m, op), k, e, op.doneAt)
            || (op.act == Clean(k) && k !in Step(m, op) && AllAged(e.signals, e.timeout, op.doneAt))
    ensures Emitted(m, op).Some? ==> Emitted(m, op).value.key != k
  {
    if op.act == Clean(k) {
      CleanupDropsIff(m, op.at, k);
      var kept := Cleaned(m[k], op.at).signals;
      forall s | s in m[k].signals && s !in kept ensures op.at >= s.detectedAt + e.timeout {
      }
    }
  }

  /** From a trigger on, the entry stays triggered until a cleanup finds all its signals aged. */
  lemma {:induction false} TriggeredUntilDropped(states: seq<map<Key, Entry>>, ops: seq<Op>, k: Key, e: Entry, i: nat,
      n: nat)
    returns (dropped: bool, d: nat)
    requires Run(states, ops) && i < n <= |ops|
    requires k in states[i + 1] && states[i + 1][k] == e && e.triggered
    ensures !dropped ==> StillTriggered(states[n], k, e, ops[n - 1].doneAt)
    ensures dropped ==> i < d < n && DroppedAt(states, ops, k, d) && AllAged(e.signals, e.timeout, ops[d].doneAt)
  {
    if n == i + 1 {
      dropped, d := false, 0;
    } else {
      dropped, d := TriggeredUntilDropped(states, ops, k, e, i, n - 1);
      if !dropped {
        RunOk(states, ops, n - 1);
        TriggeredStep(states[n - 1], ops[n - 1], k, e, ops[n - 2].doneAt);
        if k !in states[n] {
          dropped, d := true, n - 1;
        }
      }
    }
  }

  /** Once an entry is gone, whatever is in the window later was submitted later. */
  lemma {:induction false} SubmittedAfterDrop(states: seq<map<Key, Entry>>, ops: seq<Op>, k: Key, d: nat, n: nat,
      s: Signal)
    returns (p: nat)
    requires Run(states, ops) && d < n <= |ops| && k !in states[d + 1]
    requires k in states[n] && s in states[n][k].signals
    ensures d < p < n && SubmittedAt(ops, s, p)
  {
    var m, op := states[n - 1], ops[n - 1];
    if k in m && s in m[k].signals {
      p := SubmittedAfterDrop(states, ops, k, d, n - 1, s);
    } else {
      p := n - 1;
    }
  }

  ghost predicate SubmittedBetween(ops: seq<Op>, s: Signal, d: nat, n: nat)
    requires n <= |ops|
  {
    exists p: nat :: d < p < n && SubmittedAt(ops, s, p)
  }

  ghost predicate AllSubmittedBetween(ops: seq<Op>, signals: seq<Signal>, d: nat, n: nat)
    requires n <= |ops|
  {
    forall s :: s in signals ==> SubmittedBetween(ops, s, d, n)
  }

  /**
   * For one (group, token), a second trigger is separated from the first by a cleanup that dropped the entry.
   * Every signal of the first trigger was then at least as old as the timeout of the signal that had made the
   * entry, submitted at `p`, and every signal of the second was submitted after it.
   */
  lemma SecondTriggerNeedsNewWindow(states: seq<map<Key, Entry>>, ops: seq<Op>, i: nat, j: nat, k: Key)
    returns (p: nat)
    requires Run(states, ops) && i < j < |ops|
    requires Emitted(states[i], ops[i]).Some? && Emitted(states[i], ops[i]).value.key == k
    requires Emitted(states[j], ops[j]).Some? && Emitted(states[j], ops[j]).value.key == k
    ensures k in states[i + 1] && k in states[j + 1] && MadeAt(states, ops, k, p, i + 1)
    ensures AllAged(states[i + 1][k].signals, AskedTimeout(ops[p].act.signal), ops[j].doneAt)
    ensures exists d: nat :: i < d < j && DroppedAt(states, ops, k, d)
              && AllAged(states[i + 1][k].signals, AskedTimeout(ops[p].act.signal), ops[d].doneAt)
              && AllSubmittedBetween(ops, states[j + 1][k].signals, d, j + 1)
  {
    EmittedTriggers(states[i], ops[i]);
    EmittedTriggers(states[j], ops[j]);
    var e := states[i + 1][k];
    p := EntryTerms(states, ops, i + 1, k);
    var dropped, d := TriggeredUntilDropped(states, ops, k, e, i, j);
    TriggeredIsSilent(states[j], ops[j], k);
    assert dropped;
    var later, n := states[j + 1][k].signals, j + 1;
    forall s | s in later ensures SubmittedBetween(ops, s, d, n) {
      var _ := SubmittedAfterDrop(states, ops, k, d, n, s);
    }
  }

  /** A triggered entry triggers no more. */
  lemma TriggeredIsSilent(m: map<Key, Entry>, op: Op, k: Key)
    ensures k in m && m[k].triggered && Emitted(m, op).Some? ==> Emitted(m, op).value.key != k
  {
  }

  lemma EmittedTriggers(m: map<Key, Entry>, op: Op)
    requires Emitted(m, op).Some?
    ensures var k := Emitted(m, op).value.key; k in Step(m, op) && Step(m, op)[k].triggered
  {
  }
}
