/**
 * The wire formats the scanner and the trader share: little-endian numbers, length-prefixed strings of the
 * Borsh specification, buy instruction data and create instruction payloads.
 */
module Codec {
  import opened Wrappers

  type Byte = x: int | 0 <= x < 256

  type Pubkey = seq<Byte>

  function Pow256(w: nat): (p: nat)
    ensures p > 0
  {
    if w == 0 then 1 else 256 * Pow256(w - 1)
  }

  function ToLe(n: nat, w: nat): (b: seq<Byte>)
    ensures |b| == w
  {
    if w == 0 then [] else [n % 256] + ToLe(n / 256, w - 1)
  }

  function FromLe(b: seq<Byte>): nat {
    if b == [] then 0 else b[0] + 256 * FromLe(b[1..])
  }

  lemma {:induction false} LeRoundTrip(n: nat, w: nat)
    requires n < Pow256(w)
    ensures FromLe(ToLe(n, w)) == n
  {
    if w > 0 {
      LeRoundTrip(n / 256, w - 1);
      assert ToLe(n, w)[1..] == ToLe(n / 256, w - 1);
    }
  }

  lemma {:induction false} LeCanonical(b: seq<Byte>)
    ensures FromLe(b) < Pow256(|b|) && ToLe(FromLe(b), |b|) == b
  {
    if b != [] {
      LeCanonical(b[1..]);
      assert FromLe(b) % 256 == b[0] && FromLe(b) / 256 == FromLe(b[1..]);
      assert b == [b[0]] + b[1..];
    }
  }

  /** The number of times 256^i goes into it. */
  function Shifted(n: nat, i: nat): nat {
    if i == 0 then n else Shifted(n / 256, i - 1)
  }

  /** The least significant byte comes first. */
  lemma {:induction false} LeByte(n: nat, w: nat, i: nat)
    requires i < w
    ensures ToLe(n, w)[i] == Shifted(n, i) % 256
  {
    if i > 0 {
      LeByte(n / 256, w - 1, i - 1);
    }
  }

  lemma Widths()
    ensures Pow256(4) == U32_MAX + 1 && Pow256(8) == U64_MAX + 1
  {
    assert Pow256(2) == 65536;
    assert Pow256(4) == 65536 * 65536;
    assert Pow256(6) == 65536 * Pow256(4);
  }

  lemma Le64RoundTrip(n: nat)
    requires n <= U64_MAX
    ensures FromLe(ToLe(n, 8)) == n
  {
    Widths();
    LeRoundTrip(n, 8);
  }

  // ---------------------------------------------------------------- account tables

  function WellFormedKeys(raw: seq<seq<Byte>>): (keys: seq<Pubkey>)
    ensures |keys| <= |raw|
  {
    if raw == [] then []
    else
      var last := raw[|raw| - 1];
      WellFormedKeys(raw[..|raw| - 1]) + if |last| == 32 then [last] else []
  }

  /** Keys of the wrong length are dropped, which moves every later key up one place. */
  method BuildAccountKeys(staticKeys: seq<seq<Byte>>, writable: seq<seq<Byte>>, readonly: seq<seq<Byte>>)
    returns (keys: seq<Pubkey>)
    ensures keys == WellFormedKeys(staticKeys) + WellFormedKeys(writable) + WellFormedKeys(readonly)
  {
    keys := [];
    for i := 0 to |staticKeys|
      invariant keys == WellFormedKeys(staticKeys[..i])
    {
      assert staticKeys[..i + 1][..i] == staticKeys[..i];
      if |staticKeys[i]| == 32 {
        keys := keys + [staticKeys[i]];
      }
    }
    assert staticKeys[..|staticKeys|] == staticKeys;
    var loaded := writable + readonly;
    ghost var fixed := keys;
    for i := 0 to |loaded|
      invariant keys == fixed + WellFormedKeys(loaded[..i])
    {
      assert loaded[..i + 1][..i] == loaded[..i];
      if |loaded[i]| == 32 {
        keys := keys + [loaded[i]];
      }
    }
    assert loaded[..|loaded|] == loaded;
    WellFormedAppend(writable, readonly);
  }

  lemma {:induction false} WellFormedAppend(a: seq<seq<Byte>>, b: seq<seq<Byte>>)
    ensures WellFormedKeys(a + b) == WellFormedKeys(a) + WellFormedKeys(b)
    decreases |b|
  {
    if b == [] {
      assert a + b == a;
    } else {
      WellFormedAppend(a, b[..|b| - 1]);
      assert (a + b)[..|a + b| - 1] == a + b[..|b| - 1];
    }
  }

  /** The table keeps every raw key in its place exactly when every raw key is 32 bytes long. */
  lemma {:induction false} KeysKeepTheirPlacesIff(raw: seq<seq<Byte>>)
    ensures WellFormedKeys(raw) == raw <==> forall i :: 0 <= i < |raw| ==> |raw[i]| == 32
  {
    if raw != [] {
      var init, last := raw[..|raw| - 1], raw[|raw| - 1];
      KeysKeepTheirPlacesIff(init);
      if WellFormedKeys(raw) == raw {
        assert |last| == 32;
        assert WellFormedKeys(raw)[..|init|] == WellFormedKeys(init);
        forall i | 0 <= i < |raw| ensures |raw[i]| == 32 {
          if i < |init| { assert |init[i]| == 32; }
        }
      } else if |last| == 32 {
        assert WellFormedKeys(init) != init;
        var i :| 0 <= i < |init| && |init[i]| != 32;
        assert |raw[i]| != 32;
      }
    }
  }

  function IndexedAccount(indices: seq<Byte>, keys: seq<Pubkey>, i: nat): Option<Pubkey> {
    if i < |indices| && indices[i] < |keys| then Some(keys[indices[i]]) else None
  }

  function InstructionAccounts(indices: seq<Byte>, keys: seq<Pubkey>): (accounts: seq<Pubkey>)
    ensures |accounts| <= |indices|
  {
    if indices == [] then []
    else
      var last := indices[|indices| - 1];
      InstructionAccounts(indices[..|indices| - 1], keys) + if last < |keys| then [keys[last]] else []
  }

  predicate AllResolve(indices: seq<Byte>, keys: seq<Pubkey>) {
    forall i :: 0 <= i < |indices| ==> indices[i] < |keys|
  }

  /** The account list lines up with the instruction's indices exactly when every index is in the table. */
  lemma {:induction false} AccountsAlignIff(indices: seq<Byte>, keys: seq<Pubkey>)
    ensures |InstructionAccounts(indices, keys)| == |indices| <==> AllResolve(indices, keys)
    ensures AllResolve(indices, keys) ==>
              forall i :: 0 <= i < |indices| ==>
                Some(InstructionAccounts(indices, keys)[i]) == IndexedAccount(indices, keys, i)
  {
    if indices != [] {
      var init := indices[..|indices| - 1];
      AccountsAlignIff(init, keys);
      assert AllResolve(indices, keys) <==> AllResolve(init, keys) && indices[|indices| - 1] < |keys| by {
        assert indices == init + [indices[|indices| - 1]];
      }
      if AllResolve(indices, keys) {
        forall i | 0 <= i < |indices|
          ensures Some(InstructionAccounts(indices, keys)[i]) == IndexedAccount(indices, keys, i)
        {
          if i < |init| {
            assert Some(InstructionAccounts(init, keys)[i]) == IndexedAccount(init, keys, i);
          }
        }
      }
    }
  }

  // ---------------------------------------------------------------- buy instructions

  const DISC_BUY: seq<Byte> := [102, 6, 61, 18, 1, 218, 235, 234]
  const DISC_CREATE: seq<Byte> := [24, 30, 200, 40, 5, 28, 7, 119]
  const DISC_CREATE_V2: seq<Byte> := [214, 144, 76, 236, 95, 139, 49, 180]

  const MAX_FALLBACK_BUY_LAMPORTS: nat := 50_000_000_000

  /** The buffer a copied buy is sent with: what any reader of target buys makes of it. */
  method BuildBuyData(tokenAmount: nat, maxSolCost: nat) returns (data: seq<Byte>)
    ensures |data| == 24 && data[..8] == DISC_BUY
    ensures tokenAmount <= U64_MAX && maxSolCost <= U64_MAX ==>
              ReadTargetBuy(data) == if tokenAmount != 0 && maxSolCost != 0 then Target(tokenAmount, maxSolCost)
                                     else Invalid(tokenAmount, maxSolCost)
    ensures data == BuyData(tokenAmount, maxSolCost)
  {
    data := [];
    data := data + DISC_BUY;
    data := data + ToLe(tokenAmount, 8);
    data := data + ToLe(maxSolCost, 8);
    if tokenAmount <= U64_MAX && maxSolCost <= U64_MAX {
      BuyRoundTrip(tokenAmount, maxSolCost, []);
      assert BuyData(tokenAmount, maxSolCost) + [] == data;
    }
  }

  function BuyData(tokenAmount: nat, maxSolCost: nat): seq<Byte> {
    DISC_BUY + ToLe(tokenAmount, 8) + ToLe(maxSolCost, 8)
  }

  datatype TargetBuy = Target(tokenAmount: nat, maxSol: nat) | TooShort | Invalid(tokenAmount: nat, maxSol: nat)

  /** What the trader reads from a watched wallet's buy before it copies it. */
  function ReadTargetBuy(data: seq<Byte>): TargetBuy {
    if |data| < 24 then TooShort
    else
      var tokens, sol := FromLe(data[8..16]), FromLe(data[16..24]);
      if tokens == 0 || sol == 0 then Invalid(tokens, sol) else Target(tokens, sol)
  }

  lemma BuyDataFields(tokenAmount: nat, maxSolCost: nat, rest: seq<Byte>)
    requires tokenAmount <= U64_MAX && maxSolCost <= U64_MAX
    ensures var data := BuyData(tokenAmount, maxSolCost) + rest;
            |data| == 24 + |rest| && data[..8] == DISC_BUY && FromLe(data[8..16]) == tokenAmount
                && FromLe(data[16..24]) == maxSolCost
  {
    var data := BuyData(tokenAmount, maxSolCost) + rest;
    assert data[8..16] == ToLe(tokenAmount, 8) && data[16..24] == ToLe(maxSolCost, 8);
    Le64RoundTrip(tokenAmount);
    Le64RoundTrip(maxSolCost);
  }

  /** Both amounts come back, whatever follows them; the reader then refuses exactly the buys of or for nothing. */
  lemma BuyRoundTrip(tokenAmount: nat, maxSolCost: nat, rest: seq<Byte>)
    requires tokenAmount <= U64_MAX && maxSolCost <= U64_MAX
    ensures ReadTargetBuy(BuyData(tokenAmount, maxSolCost) + rest) ==
              if tokenAmount != 0 && maxSolCost != 0 then Target(tokenAmount, maxSolCost)
                  else Invalid(tokenAmount, maxSolCost)
  {
    BuyDataFields(tokenAmount, maxSolCost, rest);
  }

  /** Two buys with the same data are the same buy. */
  lemma BuyDataInjective(t1: nat, s1: nat, t2: nat, s2: nat)
    requires t1 <= U64_MAX && s1 <= U64_MAX && t2 <= U64_MAX && s2 <= U64_MAX
    requires BuyData(t1, s1) == BuyData(t2, s2)
    ensures t1 == t2 && s1 == s2
  {
    BuyDataFields(t1, s1, []);
    BuyDataFields(t2, s2, []);
    assert BuyData(t1, s1) + [] == BuyData(t2, s2) + [];
  }

  /** Every buy the reader accepts is the encoding of what it read, up to discriminator and trailing bytes. */
  lemma ReadBuyIsCanonical(data: seq<Byte>)
    requires ReadTargetBuy(data).Target?
    ensures var t := ReadTargetBuy(data); data == data[..8] + BuyData(t.tokenAmount, t.maxSol)[8..] + data[24..]
  {
    var t := ReadTargetBuy(data);
    assert ToLe(t.tokenAmount, 8) == data[8..16] by { LeCanonical(data[8..16]); }
    assert ToLe(t.maxSol, 8) == data[16..24] by { LeCanonical(data[16..24]); }
    assert BuyData(t.tokenAmount, t.maxSol)[8..] == data[8..16] + data[16..24];
    assert data == data[..8] + (data[8..16] + data[16..24]) + data[24..];
  }

  datatype Meta = Meta(preBalances: seq<nat>, postBalances: seq<nat>, fee: nat)

  function SanitizeFallback(lamports: nat): nat {
    if lamports > MAX_FALLBACK_BUY_LAMPORTS then 0 else lamports
  }

  function EstimateBuyLamports(meta: Option<Meta>, buyerIdx: nat, fallback: nat): nat {
    if meta.Some? && buyerIdx < |meta.value.preBalances| && buyerIdx < |meta.value.postBalances|
       && meta.value.preBalances[buyerIdx] > meta.value.postBalances[buyerIdx]
    then
      var spent := meta.value.preBalances[buyerIdx] - meta.value.postBalances[buyerIdx];
      if buyerIdx == 0 then SatSub(spent, meta.value.fee) else spent
    else SanitizeFallback(fallback)
  }

  datatype BuyEvent = BuyEvent(
    mint: Pubkey,
    buyer: Pubkey,
    tokenProgram: Pubkey,
    solAmountLamports: nat,
    instructionData: seq<Byte>,
    instructionAccounts: seq<Pubkey>)

  function DecodeBuy(meta: Option<Meta>, data: seq<Byte>, indices: seq<Byte>, keys: seq<Pubkey>): Option<BuyEvent> {
    if |data| < 24 then None
    else
      var mint, buyer, program := IndexedAccount(indices, keys, 2), IndexedAccount(indices, keys, 6),
          IndexedAccount(indices, keys, 8);
      var accounts := InstructionAccounts(indices, keys);
      if mint.None? || buyer.None? || program.None? || |accounts| < 9 then None
      else Some(BuyEvent(mint.value, buyer.value, program.value,
                         EstimateBuyLamports(meta, indices[6], FromLe(data[16..24])), data, accounts))
  }

  /** Without balance metadata the scanner reports the cost the trader wrote, or nothing when it is over the cap. */
  lemma DecodedBuyCost(tokenAmount: nat, maxSolCost: nat, indices: seq<Byte>, keys: seq<Pubkey>)
    requires tokenAmount <= U64_MAX && maxSolCost <= U64_MAX
    ensures var e := DecodeBuy(None, BuyData(tokenAmount, maxSolCost), indices, keys);
            && (e.Some? ==>
                  e.value.solAmountLamports == if maxSolCost <= MAX_FALLBACK_BUY_LAMPORTS then maxSolCost else 0)
            && (e.Some? ==> ReadTargetBuy(e.value.instructionData) == ReadTargetBuy(BuyData(tokenAmount, maxSolCost)))
  {
    BuyDataFields(tokenAmount, maxSolCost, []);
    assert BuyData(tokenAmount, maxSolCost) + [] == BuyData(tokenAmount, maxSolCost);
  }

  /** With a complete account table a buy of full length decodes exactly when it names at least nine accounts. */
  lemma CompleteBuyDecodesIff(meta: Option<Meta>, data: seq<Byte>, indices: seq<Byte>, keys: seq<Pubkey>)
    requires AllResolve(indices, keys)
    ensures DecodeBuy(meta, data, indices, keys).Some? <==> |data| >= 24 && |indices| >= 9
    ensures var e := DecodeBuy(meta, data, indices, keys);
            e.Some? ==> && e.value.mint == e.value.instructionAccounts[2]
                        && e.value.buyer == e.value.instructionAccounts[6]
                        && e.value.tokenProgram == e.value.instructionAccounts[8]
  {
    AccountsAlignIff(indices, keys);
  }

  // ---------------------------------------------------------------- strings of the Borsh specification

  /** A string is its bytes; the prefix is its length in four bytes. */
  function EncodeString(s: seq<Byte>): seq<Byte> {
    ToLe(|s|, 4) + s
  }

  /** Outcome of a read at `offset`, and where the cursor stands after it, also after a failure. */
  function ReadString(data: seq<Byte>, offset: nat): (Option<seq<Byte>>, nat) {
    if offset + 4 > |data| then (None, offset)
    else
      var len := FromLe(data[offset..offset + 4]);
      if offset + 4 + len > |data| then (None, offset + 4)
      else (Some(data[offset + 4..offset + 4 + len]), offset + 4 + len)
  }

  function ReadPubkey(data: seq<Byte>, offset: nat): (Option<Pubkey>, nat) {
    if offset + 32 > |data| then (None, offset) else (Some(data[offset..offset + 32]), offset + 32)
  }

  class Cursor {
    const data: seq<Byte>
    var offset: nat

    ghost predicate Valid()
      reads this
    {
      offset <= |data|
    }

    constructor (data: seq<Byte>)
      ensures Valid() && this.data == data && offset == 0
    {
      this.data, offset := data, 0;
    }

    /** The offset never passes the end, and a failed read moves it by the length prefix at most. */
    method TakeString() returns (s: Option<seq<Byte>>)
      requires Valid()
      modifies this
      ensures Valid() && (s, offset) == ReadString(data, old(offset))
      ensures s.None? ==> offset == old(offset) || offset == old(offset) + 4
    {
      if offset + 4 > |data| {
        return None;
      }
      var len := FromLe(data[offset..offset + 4]);
      offset := offset + 4;
      if offset + len > |data| {
        return None;
      }
      s := Some(data[offset..offset + len]);
      offset := offset + len;
    }

    method TakePubkey() returns (key: Option<Pubkey>)
      requires Valid()
      modifies this
      ensures Valid() && (key, offset) == ReadPubkey(data, old(offset))
    {
      if offset + 32 > |data| {
        return None;
      }
      key := Some(data[offset..offset + 32]);
      offset := offset + 32;
    }
  }

  /** A string written anywhere is read back whole, and the cursor stops right behind it. */
  lemma StringRoundTrip(data: seq<Byte>, offset: nat, s: seq<Byte>)
    requires |s| <= U32_MAX && offset + 4 + |s| <= |data|
    requires data[offset..offset + 4 + |s|] == EncodeString(s)
    ensures ReadString(data, offset) == (Some(s), offset + 4 + |s|)
  {
    var image := data[offset..offset + 4 + |s|];
    assert data[offset..offset + 4] == image[..4] == ToLe(|s|, 4);
    Widths();
    LeRoundTrip(|s|, 4);
    assert data[offset + 4..offset + 4 + |s|] == image[4..] == s;
  }

  /** A successful read consumed exactly the encoding of what it returned. */
  lemma ReadStringIsCanonical(data: seq<Byte>, offset: nat)
    requires ReadString(data, offset).0.Some?
    ensures var (s, end) := ReadString(data, offset);
            offset <= end <= |data| && data[offset..end] == EncodeString(s.value) && |s.value| <= U32_MAX
  {
    var (s, end) := ReadString(data, offset);
    LeCanonical(data[offset..offset + 4]);
    Widths();
    assert data[offset..end] == data[offset..offset + 4] + data[offset + 4..end];
  }

  // ---------------------------------------------------------------- create payloads

  datatype NewToken = NewToken(mint: Pubkey, bondingCurve: Pubkey, creator: Pubkey, name: seq<Byte>, symbol: seq<Byte>,
      uri: seq<Byte>)

  function CreatePayload(name: seq<Byte>, symbol: seq<Byte>, uri: seq<Byte>, creator: Pubkey): seq<Byte> {
    EncodeString(name) + EncodeString(symbol) + EncodeString(uri) + creator
  }

  /** The fields of a create payload, or nothing at the first field that does not fit. */
  function ReadCreate(payload: seq<Byte>): Option<(seq<Byte>, seq<Byte>, seq<Byte>, Pubkey)> {
    var (name, a) := ReadString(payload, 0);
    if name.None? then None else
    var (symbol, b) := ReadString(payload, a);
    if symbol.None? then None else
    var (uri, c) := ReadString(payload, b);
    if uri.None? then None else
    var (creator, _) := ReadPubkey(payload, c);
    if creator.None? then None else Some((name.value, symbol.value, uri.value, creator.value))
  }

  method DecodeNewToken(data: seq<Byte>, indices: seq<Byte>, keys: seq<Pubkey>) returns (token: Option<NewToken>)
    requires |data| >= 8
    ensures token == NewTokenOf(data, indices, keys)
  {
    var cursor := new Cursor(data[8..]);
    var name := cursor.TakeString();
    if name.None? { return None; }
    var symbol := cursor.TakeString();
    if symbol.None? { return None; }
    var uri := cursor.TakeString();
    if uri.None? { return None; }
    var mint := IndexedAccount(indices, keys, 0);
    if mint.None? { return None; }
    var bondingCurve := IndexedAccount(indices, keys, 2);
    if bondingCurve.None? { return None; }
    var creator := cursor.TakePubkey();
    if creator.None? { return None; }
    token := Some(NewToken(mint.value, bondingCurve.value, creator.value, name.value, symbol.value, uri.value));
  }

  function NewTokenOf(data: seq<Byte>, indices: seq<Byte>, keys: seq<Pubkey>): Option<NewToken>
    requires |data| >= 8
  {
    var fields := ReadCreate(data[8..]);
    var mint, bondingCurve := IndexedAccount(indices, keys, 0), IndexedAccount(indices, keys, 2);
    if fields.None? || mint.None? || bondingCurve.None? then None
    else Some(NewToken(mint.value, bondingCurve.value, fields.value.3, fields.value.0, fields.value.1, fields.value.2))
  }

  /** Where the parts of a concatenation stand. */
  lemma Parts(n: seq<Byte>, s: seq<Byte>, u: seq<Byte>, c: seq<Byte>, rest: seq<Byte>)
    ensures var all := n + s + u + c + rest;
            && all[..|n|] == n && all[|n|..|n| + |s|] == s
            && all[|n| + |s|..|n| + |s| + |u|] == u
            && all[|n| + |s| + |u|..|n| + |s| + |u| + |c|] == c
  {
  }

  lemma CreateRoundTrip(name: seq<Byte>, symbol: seq<Byte>, uri: seq<Byte>, creator: Pubkey, rest: seq<Byte>)
    requires |name| <= U32_MAX && |symbol| <= U32_MAX && |uri| <= U32_MAX && |creator| == 32
    ensures ReadCreate(CreatePayload(name, symbol, uri, creator) + rest) == Some((name, symbol, uri, creator))
  {
    var payload := CreatePayload(name, symbol, uri, creator) + rest;
    var a := 4 + |name|;
    var b := a + 4 + |symbol|;
    Parts(EncodeString(name), EncodeString(symbol), EncodeString(uri), creator, rest);
    StringRoundTrip(payload, 0, name);
    StringRoundTrip(payload, a, symbol);
    StringRoundTrip(payload, b, uri);
  }

  lemma FourParts(s: seq<Byte>, a: nat, b: nat, c: nat, d: nat)
    requires a <= b <= c <= d <= |s|
    ensures s[..d] == s[0..a] + s[a..b] + s[b..c] + s[c..d]
  {
    assert s[..b] == s[0..a] + s[a..b];
    assert s[..c] == s[..b] + s[b..c];
    assert s[..d] == s[..c] + s[c..d];
  }

  lemma ReadCreateIsCanonical(payload: seq<Byte>)
    requires ReadCreate(payload).Some?
    ensures var f := ReadCreate(payload).value;
            var image := CreatePayload(f.0, f.1, f.2, f.3);
            && |f.0| <= U32_MAX && |f.1| <= U32_MAX && |f.2| <= U32_MAX && |f.3| == 32
            && |image| <= |payload| && payload[..|image|] == image
  {
    var (name, a) := ReadString(payload, 0);
    var (symbol, b) := ReadString(payload, a);
    var (uri, c) := ReadString(payload, b);
    ReadStringIsCanonical(payload, 0);
    ReadStringIsCanonical(payload, a);
    ReadStringIsCanonical(payload, b);
    FourParts(payload, a, b, c, c + 32);
  }

  /** What makes a payload the encoding of these fields, possibly with more behind it. */
  predicate EncodesCreate(payload: seq<Byte>, name: seq<Byte>, symbol: seq<Byte>, uri: seq<Byte>, creator: Pubkey) {
    && |name| <= U32_MAX && |symbol| <= U32_MAX && |uri| <= U32_MAX && |creator| == 32
    && CreatePayload(name, symbol, uri, creator) <= payload
  }

  lemma EncodedCreateDecodes(payload: seq<Byte>, name: seq<Byte>, symbol: seq<Byte>, uri: seq<Byte>, creator: Pubkey)
    requires EncodesCreate(payload, name, symbol, uri, creator)
    ensures ReadCreate(payload) == Some((name, symbol, uri, creator))
  {
    var image := CreatePayload(name, symbol, uri, creator);
    CreateRoundTrip(name, symbol, uri, creator, payload[|image|..]);
    assert image + payload[|image|..] == payload;
  }

  /**
   * A create payload decodes to given fields exactly when it begins with their encoding: reading undoes
   * writing, nothing else reads the same, and what follows the creator is ignored.
   */
  lemma CreateDecodesIff(payload: seq<Byte>, name: seq<Byte>, symbol: seq<Byte>, uri: seq<Byte>, creator: Pubkey)
    ensures ReadCreate(payload) == Some((name, symbol, uri, creator)) <==>
        EncodesCreate(payload, name, symbol, uri, creator)
  {
    if EncodesCreate(payload, name, symbol, uri, creator) {
      EncodedCreateDecodes(payload, name, symbol, uri, creator);
    }
    if ReadCreate(payload) == Some((name, symbol, uri, creator)) {
      ReadCreateIsCanonical(payload);
    }
  }

  // ---------------------------------------------------------------- dispatch

  datatype Event = Created(token: NewToken, isV2: bool) | Bought(buy: BuyEvent) | Unrecognised | Nothing

  /** Which decoder an instruction of the program is given to. */
  function DecodeInstruction(meta: Option<Meta>, data: seq<Byte>, indices: seq<Byte>, keys: seq<Pubkey>): Event {
    if |data| < 8 then Nothing
    else if data[..8] == DISC_CREATE || data[..8] == DISC_CREATE_V2 then
      var token := NewTokenOf(data, indices, keys);
      if token.Some? then Created(token.value, data[..8] == DISC_CREATE_V2) else Nothing
    else if data[..8] == DISC_BUY then
      var buy := DecodeBuy(meta, data, indices, keys);
      if buy.Some? then Bought(buy.value) else Nothing
    else Unrecognised
  }

  /** A create instruction with a payload of these fields, in either version. */
  function CreateData(v2: bool, name: seq<Byte>, symbol: seq<Byte>, uri: seq<Byte>, creator: Pubkey): seq<Byte> {
    (if v2 then DISC_CREATE_V2 else DISC_CREATE) + CreatePayload(name, symbol, uri, creator)
  }

  /**
   * The scanner recognises every create instruction and its version: the mint is its first account, the bonding
   * curve its third, and the other fields are those of the payload. It reports nothing exactly when one of the two
   * accounts is not in the table.
   */
  lemma BuiltCreateIsRecognised(v2: bool, name: seq<Byte>, symbol: seq<Byte>, uri: seq<Byte>, creator: Pubkey,
      rest: seq<Byte>, meta: Option<Meta>, indices: seq<Byte>, keys: seq<Pubkey>)
    requires |name| <= U32_MAX && |symbol| <= U32_MAX && |uri| <= U32_MAX && |creator| == 32
    ensures var e := DecodeInstruction(meta, CreateData(v2, name, symbol, uri, creator) + rest, indices, keys);
            e == if |indices| >= 3 && indices[0] < |keys| && indices[2] < |keys|
                 then Created(NewToken(keys[indices[0]], keys[indices[2]], creator, name, symbol, uri), v2) else Nothing
  {
    var data := CreateData(v2, name, symbol, uri, creator) + rest;
    CreateRoundTrip(name, symbol, uri, creator, rest);
    assert data[8..] == CreatePayload(name, symbol, uri, creator) + rest;
    assert data[..8] == if v2 then DISC_CREATE_V2 else DISC_CREATE;
    assert DISC_CREATE[0] != DISC_CREATE_V2[0];
  }

  /**
   * With balances, the cost reported is what the buyer's balance fell by, without the fee for the account that
   * pays it; only if the balance did not fall the written cost counts, up to 50 SOL.
   */
  lemma PaidCost(meta: Meta, data: seq<Byte>, indices: seq<Byte>, keys: seq<Pubkey>)
    requires |data| >= 24 && |indices| >= 9 && AllResolve(indices, keys)
    requires indices[6] < |meta.preBalances| && indices[6] < |meta.postBalances|
    ensures var (e, before, after) := (DecodeBuy(Some(meta), data, indices, keys), meta.preBalances[indices[6]],
                                       meta.postBalances[indices[6]]);
            && e.Some?
            && (after < before && indices[6] != 0 ==> after + e.value.solAmountLamports == before)
            && (after < before && indices[6] == 0 && after + meta.fee <= before ==>
                  after + e.value.solAmountLamports + meta.fee == before)
            && (after < before && indices[6] == 0 && after + meta.fee > before ==> e.value.solAmountLamports == 0)
            && (after >= before && FromLe(data[16..24]) <= 50_000_000_000 ==>
                  e.value.solAmountLamports == FromLe(data[16..24]))
            && (after >= before && FromLe(data[16..24]) > 50_000_000_000 ==> e.value.solAmountLamports == 0)
  {
    CompleteBuyDecodesIff(Some(meta), data, indices, keys);
  }

  /** The scanner recognises every buy the trader builds, with the accounts and the cost the trader put in. */
  lemma BuiltBuyIsRecognised(tokenAmount: nat, maxSolCost: nat, indices: seq<Byte>, keys: seq<Pubkey>)
    requires tokenAmount <= U64_MAX && maxSolCost <= MAX_FALLBACK_BUY_LAMPORTS
    requires |indices| >= 9 && AllResolve(indices, keys)
    ensures var e := DecodeInstruction(None, BuyData(tokenAmount, maxSolCost), indices, keys);
            e.Bought? && e.buy.solAmountLamports == maxSolCost && e.buy.mint == keys[indices[2]]
                && e.buy.buyer == keys[indices[6]]
  {
    var data := BuyData(tokenAmount, maxSolCost);
    assert data[..8] == DISC_BUY && DISC_BUY[0] != DISC_CREATE[0] && DISC_BUY[0] != DISC_CREATE_V2[0];
    CompleteBuyDecodesIff(None, data, indices, keys);
    DecodedBuyCost(tokenAmount, maxSolCost, indices, keys);
  }
}
