/**
 * The copy groups: which wallets are followed with which settings, which group is selected, which mints are
 * blocked, and the file that every change is saved to and that the next start loads.
 */
module Groups {
  import opened Wrappers
  import opened Labels

  datatype Pubkey = Pubkey(id: nat)

  /** Text in the file: what a key prints as, or something no key prints as and none is parsed from. */
  datatype KeyText = Printed(key: Pubkey) | Garbage(text: string)

  function ShowKey(k: Pubkey): KeyText {
    Printed(k)
  }

  function ParseKey(t: KeyText): Option<Pubkey> {
    if t.Printed? then Some(t.key) else None
  }

  datatype Group = Group(
    id: string,
    name: string,
    enabled: bool,
    wallets: seq<Pubkey>,
    consensusMinWallets: nat,
    consensusTimeoutSecs: nat,
    buySolAmount: real,
    minTargetBuySol: real,
    takeProfitPercent: real,
    stopLossPercent: real,
    trailingStopPercent: real,
    slippageBps: nat,
    sellSlippageBps: nat,
    maxHoldSeconds: nat,
    tipBuyLamports: nat,
    tipSellLamports: nat,
    sellMode: nat)

  datatype PersistedGroup = PersistedGroup(
    id: string,
    name: string,
    enabled: bool,
    wallets: seq<KeyText>,
    consensusMinWallets: nat,
    consensusTimeoutSecs: nat,
    buySolAmount: real,
    minTargetBuySol: real,
    takeProfitPercent: real,
    stopLossPercent: real,
    trailingStopPercent: real,
    slippageBps: nat,
    sellSlippageBps: nat,
    maxHoldSeconds: nat,
    tipBuyLamports: nat,
    tipSellLamports: nat,
    sellMode: nat)

  datatype File = Missing | Unreadable | Saved(groups: seq<PersistedGroup>, selected: Option<string>,
      blocklist: seq<KeyText>)

  /** The settings of the application that a new group starts from. */
  datatype AppConfig = AppConfig(
    targetWallets: seq<Pubkey>,
    consensusMinWallets: nat,
    consensusTimeoutSecs: nat,
    buySolAmount: real,
    minTargetBuySol: real,
    takeProfitPercent: real,
    stopLossPercent: real,
    trailingStopPercent: real,
    slippageBps: nat,
    sellSlippageBps: nat,
    maxHoldSeconds: nat,
    jitoBuyTipLamports: nat,
    jitoSellTipLamports: nat)

  const SELL_MODE_TP_SL: nat := 0

  function FromAppConfig(c: AppConfig): Group {
    Group("g1", "group-1", true, c.targetWallets, c.consensusMinWallets, c.consensusTimeoutSecs, c.buySolAmount,
          c.minTargetBuySol, c.takeProfitPercent, c.stopLossPercent, c.trailingStopPercent, c.slippageBps,
          c.sellSlippageBps, c.maxHoldSeconds, c.jitoBuyTipLamports, c.jitoSellTipLamports, SELL_MODE_TP_SL)
  }

  function ToAppConfig(g: Group, base: AppConfig): AppConfig {
    base.(targetWallets := g.wallets, consensusMinWallets := g.consensusMinWallets,
          consensusTimeoutSecs := g.consensusTimeoutSecs, buySolAmount := g.buySolAmount,
          minTargetBuySol := g.minTargetBuySol, takeProfitPercent := g.takeProfitPercent,
          stopLossPercent := g.stopLossPercent, trailingStopPercent := g.trailingStopPercent,
          slippageBps := g.slippageBps, sellSlippageBps := g.sellSlippageBps, maxHoldSeconds := g.maxHoldSeconds,
          jitoBuyTipLamports := g.tipBuyLamports, jitoSellTipLamports := g.tipSellLamports)
  }

  /** A group made from settings gives those settings back over any base. */
  lemma ConfigRoundTrip(c: AppConfig, base: AppConfig)
    ensures ToAppConfig(FromAppConfig(c), base) == c
  {
  }

  function ShowWallets(ws: seq<Pubkey>): (ts: seq<KeyText>)
    ensures |ts| == |ws|
  {
    if ws == [] then [] else ShowWallets(ws[..|ws| - 1]) + [ShowKey(ws[|ws| - 1])]
  }

  function ParseWallets(ts: seq<KeyText>): Option<seq<Pubkey>> {
    if ts == [] then Some([])
    else
      var before, last := ParseWallets(ts[..|ts| - 1]), ParseKey(ts[|ts| - 1]);
      if before.None? || last.None? then None else Some(before.value + [last.value])
  }

  function FromGroup(g: Group): PersistedGroup {
    PersistedGroup(g.id, g.name, g.enabled, ShowWallets(g.wallets), g.consensusMinWallets, g.consensusTimeoutSecs,
                   g.buySolAmount, g.minTargetBuySol, g.takeProfitPercent, g.stopLossPercent, g.trailingStopPercent,
                   g.slippageBps, g.sellSlippageBps, g.maxHoldSeconds, g.tipBuyLamports, g.tipSellLamports, g.sellMode)
  }

  /** One wallet that does not parse makes the whole group unreadable. */
  function IntoGroup(p: PersistedGroup): Option<Group> {
    var wallets := ParseWallets(p.wallets);
    if wallets.None? then None
    else Some(Group(p.id, p.name, p.enabled, wallets.value, p.consensusMinWallets, p.consensusTimeoutSecs,
                    p.buySolAmount, p.minTargetBuySol, p.takeProfitPercent, p.stopLossPercent, p.trailingStopPercent,
                    p.slippageBps, p.sellSlippageBps, p.maxHoldSeconds, p.tipBuyLamports, p.tipSellLamports,
                        p.sellMode))
  }

  lemma {:induction false} WalletsRoundTrip(ws: seq<Pubkey>)
    ensures ParseWallets(ShowWallets(ws)) == Some(ws)
  {
    if ws != [] {
      WalletsRoundTrip(ws[..|ws| - 1]);
      assert ShowWallets(ws)[..|ws| - 1] == ShowWallets(ws[..|ws| - 1]);
      assert ws[..|ws| - 1] + [ws[|ws| - 1]] == ws;
    }
  }

  lemma GroupRoundTrip(g: Group)
    ensures IntoGroup(FromGroup(g)) == Some(g)
  {
    WalletsRoundTrip(g.wallets);
  }

  // ---------------------------------------------------------------- group numbers

  function Digit(d: nat): char
    requires d < 10
  {
    ('0' as int + d) as char
  }

  function ShowNat(n: nat): (s: string)
    ensures s != [] && '0' <= s[0] <= '9'
  {
    if n < 10 then [Digit(n)] else ShowNat(n / 10) + [Digit(n % 10)]
  }

  predicate AllDigits(s: string) {
    forall i :: 0 <= i < |s| ==> '0' <= s[i] <= '9'
  }

  function DigitsValue(s: string): nat
    requires AllDigits(s)
  {
    if s == [] then 0 else 10 * DigitsValue(s[..|s| - 1]) + (s[|s| - 1] as int - '0' as int)
  }

  /** Unsigned 64-bit parsing: an optional plus sign, then at least one digit, and no overflow. */
  function ParseU64(s: string): Option<nat> {
    var digits := if |s| > 0 && s[0] == '+' then s[1..] else s;
    if digits == [] || !AllDigits(digits) || DigitsValue(digits) > U64_MAX then None else Some(DigitsValue(digits))
  }

  lemma {:induction false} ShowNatDigits(n: nat)
    ensures AllDigits(ShowNat(n)) && DigitsValue(ShowNat(n)) == n
  {
    if n >= 10 {
      ShowNatDigits(n / 10);
      assert ShowNat(n)[..|ShowNat(n)| - 1] == ShowNat(n / 10);
    }
  }

  function GroupNumber(id: string): Option<nat> {
    if id == [] || id[0] != 'g' then None else ParseU64(id[1..])
  }

  function GroupId(n: nat): string {
    "g" + ShowNat(n)
  }

  lemma GroupIdNumber(n: nat)
    requires n <= U64_MAX
    ensures GroupNumber(GroupId(n)) == Some(n)
  {
    ShowNatDigits(n);
    assert GroupId(n)[1..] == ShowNat(n);
  }

  /** `m` is the largest group number among `ids`, or 0 when no id carries one. */
  ghost predicate IsMaxNumber(ids: set<string>, m: nat) {
    && m <= U64_MAX
    && (forall id :: id in ids && GroupNumber(id).Some? ==> GroupNumber(id).value <= m)
    && (m > 0 ==> exists id :: id in ids && GroupNumber(id) == Some(m))
  }

  /** Addition of one at 64 bits wraps around. */
  function Successor(m: nat): nat {
    if m == U64_MAX then 0 else m + 1
  }

  /** The number after the largest one. */
  method NextGroupId(ids: set<string>) returns (next: string)
    ensures exists m: nat :: IsMaxNumber(ids, m) && next == GroupId(Successor(m))
  {
    var best: nat := 0;
    var rest := ids;
    while rest != {}
      invariant rest <= ids && IsMaxNumber(ids - rest, best)
      decreases |rest|
    {
      var id :| id in rest;
      ghost var seen := ids - rest;
      rest := rest - {id};
      assert ids - rest == seen + {id};
      var number := GroupNumber(id);
      if number.Some? && number.value > best {
        best := number.value;
      }
    }
    assert ids - rest == ids;
    next := GroupId(Successor(best));
  }

  lemma MaxNumberUnique(ids: set<string>, m: nat, n: nat)
    requires IsMaxNumber(ids, m) && IsMaxNumber(ids, n)
    ensures m == n
  {
  }

  /** A new group id is taken already exactly when the numbers have run out and `g0` exists. */
  lemma NextIdTakenIff(ids: set<string>, m: nat)
    requires IsMaxNumber(ids, m)
    ensures GroupId(Successor(m)) in ids <==> m == U64_MAX && GroupId(0) in ids
  {
    if m < U64_MAX {
      GroupIdNumber(m + 1);
    }
  }

  // ---------------------------------------------------------------- the manager's state

  datatype State = State(groups: map<string, Group>, selected: Option<string>, blocklist: set<Pubkey>)

  /** Groups stay nonempty, one of them is selected, and each is stored under its own id. */
  ghost predicate Inv(s: State) {
    && s.groups != map[]
    && s.selected.Some? && s.selected.value in s.groups
    && forall id :: id in s.groups ==> s.groups[id].id == id
  }

  ghost predicate IsLeast(ids: set<string>, id: string) {
    id in ids && forall k :: k in ids && k != id ==> Less(id, k)
  }

  lemma LeastUnique(ids: set<string>, a: string, b: string)
    requires IsLeast(ids, a) && IsLeast(ids, b)
    ensures a == b
  {
    if a != b {
      LessTransitive(a, b, a);
      LessIrreflexive(a);
    }
  }

  /** All groups, ascending by id. */
  ghost predicate Lists(groups: map<string, Group>, list: seq<Group>) {
    && (forall i :: 0 <= i < |list| ==> list[i].id in groups && groups[list[i].id] == list[i])
    && (forall id :: id in groups ==> exists i :: 0 <= i < |list| && list[i].id == id)
    && (forall i, j :: 0 <= i < j < |list| ==> Less(list[i].id, list[j].id))
  }

  /** The file holds exactly the state: every group in order, the selection, and the blocked mints in some order. */
  ghost predicate SavedAs(s: State, f: File) {
    && f.Saved?
    && (exists list :: Lists(s.groups, list) && f.groups == Persist(list))
    && f.selected == s.selected
    && (exists mints: seq<Pubkey> :: f.blocklist == ShowWallets(mints) && (set k | k in mints) == s.blocklist)
  }

  function Persist(list: seq<Group>): (ps: seq<PersistedGroup>)
    ensures |ps| == |list|
  {
    if list == [] then [] else Persist(list[..|list| - 1]) + [FromGroup(list[|list| - 1])]
  }

  // ---------------------------------------------------------------- loading

  function Readable(ps: seq<PersistedGroup>): seq<Group> {
    if ps == [] then []
    else
      var last := IntoGroup(ps[|ps| - 1]);
      Readable(ps[..|ps| - 1]) + if last.Some? then [last.value] else []
  }

  function ById(list: seq<Group>): map<string, Group> {
    if list == [] then map[] else ById(list[..|list| - 1])[list[|list| - 1].id := list[|list| - 1]]
  }

  function ReadableKeys(ts: seq<KeyText>): set<Pubkey> {
    set t | t in ts && t.Printed? :: t.key
  }

  /** What the manager starts with: whatever can be read, or one default group, and a selection that exists. */
  ghost predicate LoadsTo(config: AppConfig, f: File, s: State) {
    var read := if f.Saved? then Readable(f.groups) else [];
    var saved := if f.Saved? then f.selected else None;
    && s.groups == ById(if read == [] then [FromAppConfig(config)] else read)
    && s.blocklist == (if f.Saved? then ReadableKeys(f.blocklist) else {})
    && (if saved.Some? && saved.value in s.groups then s.selected == saved
        else s.selected.Some? && IsLeast(s.groups.Keys, s.selected.value))
  }

  lemma {:induction false} ByIdKeys(list: seq<Group>)
    ensures forall id :: id in ById(list) ==> ById(list)[id].id == id
    ensures forall id :: id in ById(list) <==> exists i :: 0 <= i < |list| && list[i].id == id
    ensures list != [] ==> ById(list) != map[]
  {
    if list != [] {
      var init, last := list[..|list| - 1], list[|list| - 1];
      ByIdKeys(init);
      forall id | id in ById(list) ensures exists i :: 0 <= i < |list| && list[i].id == id {
        if id == last.id {
          assert list[|list| - 1].id == id;
        } else {
          assert id in ById(init);
          var i :| 0 <= i < |init| && init[i].id == id;
          assert list[i].id == id;
        }
      }
      forall i | 0 <= i < |list| ensures list[i].id in ById(list) {
        if i < |init| {
          assert init[i].id in ById(init);
        }
      }
      assert last.id in ById(list);
    }
  }

  /** Any file at all, or none, starts a manager that meets the invariant. */
  lemma LoadMeetsInv(config: AppConfig, f: File, s: State)
    requires LoadsTo(config, f, s)
    ensures Inv(s)
  {
    var read := if f.Saved? then Readable(f.groups) else [];
    ByIdKeys(if read == [] then [FromAppConfig(config)] else read);
  }

  /**
   * Without a readable group there is one, with the configured settings: "g1", named "group-1", enabled and
   * selling by its own levels. It is selected, and blocked mints are kept.
   */
  lemma FirstStart(config: AppConfig, f: File, s: State, base: AppConfig)
    requires LoadsTo(config, f, s) && (f.Saved? ==> Readable(f.groups) == [])
    ensures s.groups.Keys == {"g1"} && s.selected == Some("g1")
    ensures var g := s.groups["g1"];
            g.id == "g1" && g.name == "group-1" && g.enabled && g.sellMode == 0 && ToAppConfig(g, base) == config
    ensures s.blocklist == if f.Saved? then ReadableKeys(f.blocklist) else {}
  {
    var g := FromAppConfig(config);
    assert [g][..0] == [] && ById([g]) == map[][g.id := g];
    assert s.groups == map["g1" := g];
    assert "g1" in s.groups.Keys;
  }

  lemma ReadableSnoc(ps: seq<PersistedGroup>, p: PersistedGroup)
    ensures Readable(ps + [p]) == Readable(ps) + if IntoGroup(p).Some? then [IntoGroup(p).value] else []
  {
    assert (ps + [p])[..|ps|] == ps;
  }

  lemma {:induction false} PersistReads(list: seq<Group>)
    ensures Readable(Persist(list)) == list
  {
    if list != [] {
      var init, last := list[..|list| - 1], list[|list| - 1];
      PersistReads(init);
      GroupRoundTrip(last);
      ReadableSnoc(Persist(init), FromGroup(last));
      assert init + [last] == list;
    }
  }

  /** Distinct ids make the list and the map the same thing. */
  lemma {:induction false} ListedById(list: seq<Group>, i: nat)
    requires forall i, j :: 0 <= i < j < |list| ==> Less(list[i].id, list[j].id)
    requires i < |list|
    ensures list[i].id in ById(list) && ById(list)[list[i].id] == list[i]
  {
    var init := list[..|list| - 1];
    if i < |init| {
      ListedById(init, i);
      assert Less(list[i].id, list[|list| - 1].id);
      LessIrreflexive(list[i].id);
    }
  }

  lemma ListHoldsMap(groups: map<string, Group>, list: seq<Group>)
    requires Lists(groups, list)
    ensures forall id :: id in groups ==> id in ById(list) && ById(list)[id] == groups[id]
  {
    forall id | id in groups ensures id in ById(list) && ById(list)[id] == groups[id] {
      var i :| 0 <= i < |list| && list[i].id == id;
      ListedById(list, i);
    }
  }

  lemma ListRebuildsMap(groups: map<string, Group>, list: seq<Group>)
    requires Lists(groups, list)
    ensures ById(list) == groups
  {
    ListHoldsMap(groups, list);
    ByIdKeys(list);
    forall id | id in ById(list) ensures id in groups {
      var i :| 0 <= i < |list| && list[i].id == id;
      assert list[i].id in groups;
    }
  }

  lemma {:induction false} ShownKeysRead(ks: seq<Pubkey>)
    ensures ReadableKeys(ShowWallets(ks)) == set k | k in ks
  {
    if ks != [] {
      var init, last := ks[..|ks| - 1], ks[|ks| - 1];
      ShownKeysRead(init);
      assert ks == init + [last];
      assert ShowWallets(ks) == ShowWallets(init) + [Printed(last)];
      assert (set k | k in ks) == (set k | k in init) + {last};
      assert ReadableKeys(ShowWallets(ks)) == ReadableKeys(ShowWallets(init)) + {last} by {
        assert forall t :: t in ShowWallets(ks) <==> t in ShowWallets(init) || t == Printed(last);
        assert Printed(last) in ShowWallets(ks);
      }
    }
  }

  /** Loading what was saved gives back the same groups, the same selection and the same blocked mints. */
  lemma SaveLoadRoundTrip(config: AppConfig, s: State, f: File, s': State)
    requires Inv(s) && SavedAs(s, f) && LoadsTo(config, f, s')
    ensures s' == s
  {
    var list :| Lists(s.groups, list) && f.groups == Persist(list);
    PersistReads(list);
    ListRebuildsMap(s.groups, list);
    assert list != [] by {
      assert s.selected.value in s.groups;
    }
    var mints: seq<Pubkey> :| f.blocklist == ShowWallets(mints) && (set k | k in mints) == s.blocklist;
    ShownKeysRead(mints);
  }

  lemma {:induction false} WalletsParseIff(ts: seq<KeyText>)
    ensures ParseWallets(ts).Some? <==> forall i :: 0 <= i < |ts| ==> ts[i].Printed?
  {
    if ts != [] {
      var init := ts[..|ts| - 1];
      WalletsParseIff(init);
      if ParseWallets(init).None? {
        var i :| 0 <= i < |init| && !init[i].Printed?;
        assert !ts[i].Printed?;
      } else {
        assert forall i :: 0 <= i < |init| ==> ts[i] == init[i];
      }
    }
  }

  /** A record of the file is kept exactly when every one of its wallets is a printed key. */
  lemma RecordKeptIff(p: PersistedGroup)
    ensures IntoGroup(p).Some? <==> forall i :: 0 <= i < |p.wallets| ==> p.wallets[i].Printed?
  {
    WalletsParseIff(p.wallets);
  }

  /** What is read is what some record of the file holds, and nothing else. */
  lemma {:induction false} ReadableMembers(ps: seq<PersistedGroup>, g: Group)
    ensures g in Readable(ps) <==> exists i :: 0 <= i < |ps| && IntoGroup(ps[i]) == Some(g)
  {
    if ps != [] {
      var init := ps[..|ps| - 1];
      ReadableMembers(init, g);
      if g in Readable(init) {
        var i :| 0 <= i < |init| && IntoGroup(init[i]) == Some(g);
        assert IntoGroup(ps[i]) == Some(g);
      } else if exists i :: 0 <= i < |ps| && IntoGroup(ps[i]) == Some(g) {
        var i :| 0 <= i < |ps| && IntoGroup(ps[i]) == Some(g);
        assert i < |init| ==> IntoGroup(init[i]) == Some(g);
      }
    }
  }

  // ---------------------------------------------------------------- the mutators

  datatype Op =
    | SetSelected(id: string)
    | Replace(group: Group)
    | Add(name: string, base: AppConfig)
    | Delete(id: string)
    | SetEnabled(id: string, enabled: bool)
    | AddWallet(id: string, wallet: Pubkey)
    | RemoveWallet(id: string, wallet: Pubkey)
    | Block(mint: Pubkey)
    | Unblock(mint: Pubkey)

  function WithWallet(ws: seq<Pubkey>, w: Pubkey): seq<Pubkey> {
    if w in ws then ws else ws + [w]
  }

  function IndexOf(ws: seq<Pubkey>, w: Pubkey): (i: nat)
    requires w in ws
    ensures i < |ws| && ws[i] == w && w !in ws[..i]
  {
    if ws[0] == w then 0 else IndexOf(ws[1..], w) + 1
  }

  lemma {:induction false} IndexOfFirst(ws: seq<Pubkey>, w: Pubkey, i: nat)
    requires i < |ws| && ws[i] == w && forall j :: 0 <= j < i ==> ws[j] != w
    ensures w in ws && IndexOf(ws, w) == i
  {
    if i > 0 {
      IndexOfFirst(ws[1..], w, i - 1);
    }
  }

  function WithoutWallet(ws: seq<Pubkey>, w: Pubkey): seq<Pubkey> {
    if w in ws then ws[..IndexOf(ws, w)] + ws[IndexOf(ws, w) + 1..] else ws
  }

  predicate Succeeds(s: State, op: Op) {
    match op
    case SetSelected(id) => id in s.groups
    case Delete(id) => |s.groups| > 1 && id in s.groups
    case SetEnabled(id, _) => id in s.groups
    case AddWallet(id, _) => id in s.groups
    case RemoveWallet(id, w) => id in s.groups && w in s.groups[id].wallets
    case _ => true
  }

  function NewGroup(id: string, name: string, base: AppConfig): Group {
    FromAppConfig(base).(id := id, name := name, wallets := [], consensusMinWallets := 1)
  }

  function WithWallets(s: State, id: string, wallets: seq<Pubkey>): State
    requires id in s.groups
  {
    s.(groups := s.groups[id := s.groups[id].(wallets := wallets)])
  }

  /** The effect of an operation; an operation that fails changes nothing. */
  ghost predicate Step(s: State, op: Op, s': State) {
    if !Succeeds(s, op) then s' == s else
    match op
    case SetSelected(id) => s' == s.(selected := Some(id))
    case Replace(g) => s' == s.(groups := s.groups[g.id := g])
    case Add(name, base) =>
      exists m: nat ::
        && IsMaxNumber(s.groups.Keys, m)
        && var id := GroupId(Successor(m));
           s' == s.(groups := s.groups[id := NewGroup(id, name, base)], selected := Some(id))
    case Delete(id) =>
      && s'.groups == s.groups - {id} && s'.blocklist == s.blocklist
      && (if s.selected == Some(id) then s'.selected.Some? && IsLeast(s'.groups.Keys, s'.selected.value)
          else s'.selected == s.selected)
    case SetEnabled(id, enabled) => s' == s.(groups := s.groups[id := s.groups[id].(enabled := enabled)])
    case AddWallet(id, w) => s' == WithWallets(s, id, WithWallet(s.groups[id].wallets, w))
    case RemoveWallet(id, w) => s' == WithWallets(s, id, WithoutWallet(s.groups[id].wallets, w))
    case Block(mint) => s' == s.(blocklist := s.blocklist + {mint})
    case Unblock(mint) => s' == s.(blocklist := s.blocklist - {mint})
  }

  lemma StepKeepsInv(s: State, op: Op, s': State)
    requires Inv(s) && Step(s, op, s')
    ensures Inv(s')
  {
    if op.Delete? && Succeeds(s, op) {
      SomeOtherKey(s.groups, op.id);
    }
  }

  lemma SomeOtherKey(m: map<string, Group>, id: string)
    requires |m| > 1 && id in m
    ensures m - {id} != map[]
  {
    assert |m| == |m.Keys| && |m.Keys - {id}| == |m.Keys| - 1;
    var k :| k in m.Keys - {id};
    assert k in m - {id};
  }

  /** Adding a group leaves every existing group as it was, unless the numbers have run out and `g0` exists. */
  lemma AddOverwritesIff(s: State, op: Op, s': State, m: nat)
    requires op.Add? && Step(s, op, s') && IsMaxNumber(s.groups.Keys, m)
    ensures s'.selected.Some? && s'.selected.value in s'.groups
    ensures s'.selected.value in s.groups <==> m == U64_MAX && GroupId(0) in s.groups
    ensures forall id :: id in s.groups && id != s'.selected.value ==> id in s'.groups && s'.groups[id] == s.groups[id]
  {
    var n: nat :| && IsMaxNumber(s.groups.Keys, n)
             && var id := GroupId(Successor(n));
                s' == s.(groups := s.groups[id := NewGroup(id, op.name, op.base)], selected := Some(id));
    MaxNumberUnique(s.groups.Keys, m, n);
    NextIdTakenIff(s.groups.Keys, m);
  }

  lemma ShowNatSnoc(n: nat, d: nat)
    requires 0 < n && d < 10
    ensures ShowNat(10 * n + d) == ShowNat(n) + [Digit(d)]
  {
  }

  lemma LargestId()
    ensures GroupId(U64_MAX) == "g18446744073709551615"
  {
    ShowNatSnoc(1, 8);
    ShowNatSnoc(18, 4);
    ShowNatSnoc(184, 4);
    ShowNatSnoc(1844, 6);
    ShowNatSnoc(18446, 7);
    ShowNatSnoc(184467, 4);
    ShowNatSnoc(1844674, 4);
    assert ShowNat(18446744) == "18446744";
    ShowNatSnoc(18446744, 0);
    ShowNatSnoc(184467440, 7);
    ShowNatSnoc(1844674407, 3);
    ShowNatSnoc(18446744073, 7);
    ShowNatSnoc(184467440737, 0);
    ShowNatSnoc(1844674407370, 9);
    assert ShowNat(18446744073709) == "18446744073709";
    ShowNatSnoc(18446744073709, 5);
    ShowNatSnoc(184467440737095, 5);
    ShowNatSnoc(1844674407370955, 1);
    ShowNatSnoc(18446744073709551, 6);
    ShowNatSnoc(184467440737095516, 1);
    ShowNatSnoc(1844674407370955161, 5);
  }

  lemma TwoRecordsLoad(config: AppConfig, a: Group, b: Group, s: State)
    requires LoadsTo(config, Saved([FromGroup(a), FromGroup(b)], None, []), s)
    ensures s.groups == map[a.id := a][b.id := b]
  {
    var list := [a, b];
    assert list[..1] == [a] && [a][..0] == [];
    assert Persist(list) == [FromGroup(a), FromGroup(b)];
    PersistReads(list);
    assert ById([a]) == map[][a.id := a];
    assert ById(list) == ById([a])[b.id := b];
  }

  lemma NumbersRunOut(ids: set<string>)
    requires ids == {GroupId(0), GroupId(U64_MAX)}
    ensures IsMaxNumber(ids, U64_MAX)
  {
    GroupIdNumber(U64_MAX);
    GroupIdNumber(0);
  }

  lemma AddReplacesFirst(s: State, name: string, base: AppConfig, s': State)
    requires s.groups.Keys == {GroupId(0), GroupId(U64_MAX)}
    requires Step(s, Add(name, base), s')
    ensures s'.groups == s.groups[GroupId(0) := NewGroup(GroupId(0), name, base)]
  {
    NumbersRunOut(s.groups.Keys);
    var n: nat :| && IsMaxNumber(s.groups.Keys, n)
                  && var id := GroupId(Successor(n));
                     s' == s.(groups := s.groups[id := NewGroup(id, name, base)], selected := Some(id));
    MaxNumberUnique(s.groups.Keys, U64_MAX, n);
  }

  lemma FullNumbersOverwrite(config: AppConfig, a: Group, b: Group, name: string, base: AppConfig, s: State, s': State)
    requires a.id == GroupId(0) && b.id == GroupId(U64_MAX) && a.id != b.id && a.wallets != []
    requires LoadsTo(config, Saved([FromGroup(a), FromGroup(b)], None, []), s)
    requires Step(s, Add(name, base), s')
    ensures a.id in s.groups && s.groups[a.id] == a
    ensures a.id in s'.groups && s'.groups[a.id] != a && s'.groups[a.id].wallets == []
    ensures s'.groups.Keys == s.groups.Keys
  {
    TwoRecordsLoad(config, a, b, s);
    assert s.groups.Keys == {GroupId(0), GroupId(U64_MAX)};
    AddReplacesFirst(s, name, base, s');
  }

  /** Started from a file that holds `g0` and `g18446744073709551615`, the next new group replaces `g0`. */
  lemma AddOverwritesWitness(config: AppConfig, a: Group, b: Group, name: string, base: AppConfig, s: State, s': State)
    requires a.id == "g0" && b.id == "g18446744073709551615" && a.wallets != []
    requires LoadsTo(config, Saved([FromGroup(a), FromGroup(b)], None, []), s)
    requires Step(s, Add(name, base), s')
    ensures "g0" in s.groups && s.groups["g0"] == a
    ensures "g0" in s'.groups && s'.groups["g0"] != a && s'.groups["g0"].wallets == []
    ensures s'.groups.Keys == s.groups.Keys
  {
    LargestId();
    assert GroupId(0) == "g0" && a.id[1] != b.id[1];
    FullNumbersOverwrite(config, a, b, name, base, s, s');
  }

  /** Removing a wallet undoes adding it exactly when the group did not have it before. */
  lemma RemoveUndoesAddIff(ws: seq<Pubkey>, w: Pubkey)
    ensures WithoutWallet(WithWallet(ws, w), w) == ws <==> w !in ws
  {
    if w !in ws {
      var added := ws + [w];
      IndexOfFirst(added, w, |ws|);
      assert added[..|ws|] == ws && added[|ws| + 1..] == [];
    } else {
      assert |WithoutWallet(ws, w)| == |ws| - 1;
    }
  }

  // ---------------------------------------------------------------- every run

  /** A run: a start from some file, then any operations, each saved if it succeeds, interrupted by restarts. */
  datatype Event = Do(op: Op) | Restart

  datatype World = World(state: State, file: File)

  ghost predicate WorldStep(w: World, e: Event, w': World, config: AppConfig) {
    match e
    case Do(op) =>
      && Step(w.state, op, w'.state)
      && (if Succeeds(w.state, op) then SavedAs(w'.state, w'.file) else w'.file == w.file)
    case Restart => LoadsTo(config, w.file, w'.state) && w'.file == w.file
  }

  ghost predicate Run(worlds: seq<World>, events: seq<Event>, config: AppConfig) {
    && |worlds| == |events| + 1
    && LoadsTo(config, worlds[0].file, worlds[0].state)
    && forall i :: 0 <= i < |events| ==> WorldStep(worlds[i], events[i], worlds[i + 1], config)
  }

  /** In every run the invariant holds, and the file is either the saved state or still the one first loaded. */
  lemma {:induction false} RunSound(worlds: seq<World>, events: seq<Event>, config: AppConfig, n: nat)
    requires Run(worlds, events, config) && n <= |events|
    ensures Inv(worlds[n].state)
    ensures SavedAs(worlds[n].state, worlds[n].file) || LoadsTo(config, worlds[n].file, worlds[n].state)
  {
    if n == 0 {
      LoadMeetsInv(config, worlds[0].file, worlds[0].state);
    } else {
      RunSound(worlds, events, config, n - 1);
      var w, e, w' := worlds[n - 1], events[n - 1], worlds[n];
      assert WorldStep(w, e, w', config);
      match e
      case Do(op) => StepKeepsInv(w.state, op, w'.state);
      case Restart => LoadMeetsInv(config, w.file, w'.state);
    }
  }

  lemma LoadUnique(config: AppConfig, f: File, s: State, t: State)
    requires LoadsTo(config, f, s) && LoadsTo(config, f, t)
    ensures s == t
  {
    var saved := if f.Saved? then f.selected else None;
    if !(saved.Some? && saved.value in s.groups) {
      LeastUnique(s.groups.Keys, s.selected.value, t.selected.value);
    }
  }

  /** Nothing is lost by a restart, at any moment of any run. */
  lemma RestartChangesNothing(worlds: seq<World>, events: seq<Event>, config: AppConfig, n: nat)
    requires Run(worlds, events, config) && n < |events| && events[n].Restart?
    ensures worlds[n + 1] == worlds[n]
  {
    var w, w' := worlds[n], worlds[n + 1];
    assert WorldStep(w, Restart, w', config);
    RunSound(worlds, events, config, n);
    if SavedAs(w.state, w.file) {
      SaveLoadRoundTrip(config, w.state, w.file, w'.state);
    } else {
      LoadUnique(config, w.file, w.state, w'.state);
    }
  }

  // ---------------------------------------------------------------- the manager

  class GroupManager {
    var groups: map<string, Group>
    var selected: Option<string>
    var blocklist: set<Pubkey>
    var file: File

    function View(): State
      reads this
    {
      State(groups, selected, blocklist)
    }

    constructor LoadOrDefault(config: AppConfig, file: File)
      ensures this.file == file && LoadsTo(config, file, View())
    {
      var read: seq<Group> := [];
      var saved: Option<string> := None;
      var blocked: set<Pubkey> := {};
      if file.Saved? {
        saved := file.selected;
        for i := 0 to |file.groups|
          invariant read == Readable(file.groups[..i])
        {
          assert file.groups[..i + 1][..i] == file.groups[..i];
          var g := IntoGroup(file.groups[i]);
          if g.Some? {
            read := read + [g.value];
          }
        }
        assert file.groups[..|file.groups|] == file.groups;
        for i := 0 to |file.blocklist|
          invariant blocked == ReadableKeys(file.blocklist[..i])
        {
          ghost var before := file.blocklist[..i];
          assert file.blocklist[..i + 1] == before + [file.blocklist[i]];
          var k := ParseKey(file.blocklist[i]);
          if k.Some? {
            blocked := blocked + {k.value};
          }
        }
        assert file.blocklist[..|file.blocklist|] == file.blocklist;
      }
      if read == [] {
        read := [FromAppConfig(config)];
      }
      var loaded: map<string, Group> := map[];
      for i := 0 to |read|
        invariant loaded == ById(read[..i])
      {
        assert read[..i + 1][..i] == read[..i];
        loaded := loaded[read[i].id := read[i]];
      }
      assert read[..|read|] == read;
      ByIdKeys(read);
      if saved.None? || saved.value !in loaded {
        var first := LeastId(loaded.Keys);
        saved := Some(first);
      }
      groups, selected, blocklist := loaded, saved, blocked;
      this.file := file;
    }

    /** All groups, ascending by id. */
    method AllGroups() returns (list: seq<Group>)
      requires forall id :: id in groups ==> groups[id].id == id
      ensures Lists(groups, list)
    {
      list := [];
      var rest := groups.Keys;
      while rest != {}
        invariant rest <= groups.Keys
        invariant forall i :: 0 <= i < |list| ==>
                    list[i].id in groups && list[i].id !in rest && groups[list[i].id] == list[i]
        invariant forall id :: id in groups.Keys - rest ==> exists i :: 0 <= i < |list| && list[i].id == id
        invariant forall i, j :: 0 <= i < j < |list| ==> Less(list[i].id, list[j].id)
        invariant forall i, k :: 0 <= i < |list| && k in rest ==> Less(list[i].id, k)
        decreases |rest|
      {
        var id := LeastId(rest);
        ghost var was, restWas := list, rest;
        list := list + [groups[id]];
        rest := rest - {id};
        forall k | k in groups.Keys - rest ensures exists i :: 0 <= i < |list| && list[i].id == k {
          if k == id {
            assert list[|was|].id == k;
          } else {
            assert k in groups.Keys - restWas;
            var i :| 0 <= i < |was| && was[i].id == k;
            assert list[i].id == k;
          }
        }
      }
      assert groups.Keys - rest == groups.Keys;
      assert forall id :: id in groups ==> id in groups.Keys - rest;
    }

    method Save()
      requires Inv(View())
      modifies this`file
      ensures SavedAs(View(), file)
    {
      var list := AllGroups();
      var mints := KeysInSomeOrder(blocklist);
      file := Saved(Persist(list), selected, ShowWallets(mints));
      assert Lists(View().groups, list);
    }

    method SetSelectedGroup(id: string) returns (ok: bool)
      requires Inv(View())
      modifies this
      ensures Step(old(View()), SetSelected(id), View()) && Inv(View())
      ensures ok == Succeeds(old(View()), SetSelected(id))
      ensures if ok then SavedAs(View(), file) else file == old(file)
    {
      if id !in groups {
        return false;
      }
      selected := Some(id);
      Save();
      ok := true;
    }

    method ReplaceGroup(group: Group)
      requires Inv(View())
      modifies this
      ensures Step(old(View()), Replace(group), View()) && Inv(View()) && SavedAs(View(), file)
    {
      groups := groups[group.id := group];
      Save();
    }

    method AddGroup(name: string, base: AppConfig) returns (group: Group)
      requires Inv(View())
      modifies this
      ensures Step(old(View()), Add(name, base), View()) && Inv(View()) && SavedAs(View(), file)
      ensures selected == Some(group.id) && group.id in groups && groups[group.id] == group
    {
      var next := NextGroupId(groups.Keys);
      group := FromAppConfig(base);
      group := group.(id := next, name := name, wallets := [], consensusMinWallets := 1);
      groups := groups[next := group];
      selected := Some(next);
      assert Step(old(View()), Add(name, base), View());
      Save();
    }

    method DeleteGroup(id: string) returns (ok: bool)
      requires Inv(View())
      modifies this
      ensures Step(old(View()), Delete(id), View()) && Inv(View())
      ensures ok == Succeeds(old(View()), Delete(id))
      ensures if ok then SavedAs(View(), file) else file == old(file)
    {
      if |groups| <= 1 || id !in groups {
        return false;
      }
      SomeOtherKey(groups, id);
      groups := groups - {id};
      if selected == Some(id) {
        var next := LeastId(groups.Keys);
        selected := Some(next);
      }
      Save();
      ok := true;
    }

    method RemoveWallet(id: string, wallet: Pubkey) returns (ok: bool)
      requires Inv(View())
      modifies this
      ensures Step(old(View()), Op.RemoveWallet(id, wallet), View()) && Inv(View())
      ensures ok == Succeeds(old(View()), Op.RemoveWallet(id, wallet))
      ensures if ok then SavedAs(View(), file) else file == old(file)
    {
      if id !in groups {
        return false;
      }
      var ws := groups[id].wallets;
      var i := 0;
      while i < |ws| && ws[i] != wallet
        invariant 0 <= i <= |ws| && forall j :: 0 <= j < i ==> ws[j] != wallet
      {
        i := i + 1;
      }
      if i == |ws| {
        return false;
      }
      IndexOfFirst(ws, wallet, i);
      assert WithoutWallet(ws, wallet) == ws[..i] + ws[i + 1..];
      groups := groups[id := groups[id].(wallets := ws[..i] + ws[i + 1..])];
      assert View() == WithWallets(old(View()), id, WithoutWallet(ws, wallet));
      StepKeepsInv(old(View()), Op.RemoveWallet(id, wallet), View());
      Save();
      ok := true;
    }

    method AddWallet(id: string, wallet: Pubkey) returns (ok: bool)
      requires Inv(View())
      modifies this
      ensures Step(old(View()), Op.AddWallet(id, wallet), View()) && Inv(View())
      ensures ok == Succeeds(old(View()), Op.AddWallet(id, wallet))
      ensures if ok then SavedAs(View(), file) else file == old(file)
    {
      if id !in groups {
        return false;
      }
      if wallet !in groups[id].wallets {
        groups := groups[id := groups[id].(wallets := groups[id].wallets + [wallet])];
      }
      assert groups == old(groups)[id := old(groups)[id].(wallets := WithWallet(old(groups)[id].wallets, wallet))];
      Save();
      ok := true;
    }

    method SetGroupEnabled(id: string, enabled: bool) returns (ok: bool)
      requires Inv(View())
      modifies this
      ensures Step(old(View()), SetEnabled(id, enabled), View()) && Inv(View())
      ensures ok == Succeeds(old(View()), SetEnabled(id, enabled))
      ensures if ok then SavedAs(View(), file) else file == old(file)
    {
      if id !in groups {
        return false;
      }
      groups := groups[id := groups[id].(enabled := enabled)];
      Save();
      ok := true;
    }

    method BlockToken(mint: Pubkey)
      requires Inv(View())
      modifies this
      ensures Step(old(View()), Block(mint), View()) && Inv(View()) && SavedAs(View(), file)
    {
      blocklist := blocklist + {mint};
      Save();
    }

    method UnblockToken(mint: Pubkey)
      requires Inv(View())
      modifies this
      ensures Step(old(View()), Unblock(mint), View()) && Inv(View()) && SavedAs(View(), file)
    {
      blocklist := blocklist - {mint};
      Save();
    }
  }

  method LeastId(ids: set<string>) returns (least: string)
    requires ids != {}
    ensures IsLeast(ids, least)
  {
    least :| least in ids;
    var rest := ids - {least};
    while rest != {}
      invariant rest <= ids && IsLeast(ids - rest, least)
      decreases |rest|
    {
      var id :| id in rest;
      ghost var seen := ids - rest;
      rest := rest - {id};
      assert ids - rest == seen + {id};
      LessTotal(id, least);
      if Less(id, least) {
        forall k | k in seen && k != id ensures Less(id, k) {
          if k != least { LessTransitive(id, least, k); }
        }
        least := id;
      }
    }
    assert ids - rest == ids;
  }

  method KeysInSomeOrder(keys: set<Pubkey>) returns (list: seq<Pubkey>)
    ensures (set k | k in list) == keys
  {
    list := [];
    var rest := keys;
    while rest != {}
      invariant rest <= keys
      invariant forall k :: k in list <==> k in keys && k !in rest
      decreases |rest|
    {
      var k :| k in rest;
      ghost var before := list;
      rest := rest - {k};
      list := list + [k];
      assert forall x :: x in list <==> x in before || x == k;
    }
  }
}
