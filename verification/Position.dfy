/**
 * A trading position: its life cycle, price tracking and exit rules, and the manager that keeps one position
 * per group and mint. Prices and percentages are real numbers.
 */
module Position {
  import opened Wrappers

  datatype Stage = Pending | Submitted | Confirming | Active | Selling | Closed | Failed

  datatype Group = Group(
    id: string,
    name: string,
    followSell: bool,
    maxHoldSeconds: nat,
    stopLossPercent: real,
    takeProfitPercent: real,
    trailingStopPercent: real)

  datatype Pos = Pos(
    group: Group,
    mint: string,
    stage: Stage,
    entrySolAmount: nat,
    tokenAmount: nat,
    entryPrice: real,
    highestPrice: real,
    currentPrice: real,
    buySignature: string,
    sellSignature: Option<string>,
    sellAttempts: nat)

  /** The operations on one position, as the manager and the buy path call them. */
  datatype Op =
    | MarkSubmitted(signature: string)
    | MarkConfirming
    | MarkActive(amount: nat, curvePrice: Option<real>)
    | MarkSelling
    | MarkClosed(sellSignature: string)
    | MarkFailed
    | RevertToActive
    | RestoreAfterSellAttempt(previous: Stage)
    | PartialSell(sold: nat)
    | UpdatePrice(price: real)
    | UpdateEntryPrice(realPrice: real)
    | EstimateTokens(estimate: nat)

  function NewPos(group: Group, mint: string, entrySolAmount: nat, entryPrice: real): Pos {
    Pos(group, mint, Pending, entrySolAmount, 0, entryPrice, entryPrice, entryPrice, "", None, 0)
  }

  /** Whether the operation takes effect; a refused operation changes nothing. */
  predicate Accepts(p: Pos, op: Op) {
    match op
    case MarkSubmitted(_) => p.stage == Pending
    case MarkConfirming => p.stage == Submitted
    case MarkActive(_, _) => p.stage == Confirming || p.stage == Submitted
    case MarkSelling => p.stage == Active || p.stage == Confirming || p.stage == Submitted
    case MarkClosed(_) => p.stage == Selling
    case RevertToActive => p.stage == Selling
    case PartialSell(sold) => 0 < sold <= p.tokenAmount
    case EstimateTokens(estimate) => p.tokenAmount == 0 && estimate > 0
    case _ => true
  }

  /** Cost per token of a confirmed buy of `amount` raw tokens (six decimals). */
  function CostPrice(p: Pos, amount: nat, curvePrice: Option<real>): real
    requires amount > 0
  {
    if curvePrice.Some? && curvePrice.value > 0.0 then curvePrice.value
    else if p.entrySolAmount > 0 then (p.entrySolAmount as real / 1000000000.0) / (amount as real / 1000000.0)
    else 0.0
  }

  function RealMax(a: real, b: real): real {
    if a >= b then a else b
  }

  function Apply(p: Pos, op: Op): Pos {
    if !Accepts(p, op) then p else
    match op
    case MarkSubmitted(signature) => p.(stage := Submitted, buySignature := signature)
    case MarkConfirming => p.(stage := Confirming)
    case MarkActive(amount, curvePrice) =>
      if amount == 0 then p.(stage := Active, tokenAmount := 0)
      else
        var cost := CostPrice(p, amount, curvePrice);
        p.(stage := Active, tokenAmount := amount, entryPrice := cost, highestPrice := cost, currentPrice := cost)
    case MarkSelling => p.(stage := Selling, sellAttempts := p.sellAttempts + 1)
    case MarkClosed(signature) => p.(stage := Closed, sellSignature := Some(signature))
    case MarkFailed => p.(stage := Failed)
    case RevertToActive => p.(stage := Active)
    case RestoreAfterSellAttempt(previous) => p.(stage := previous)
    case PartialSell(sold) => p.(stage := Active, tokenAmount := p.tokenAmount - sold)
    case UpdatePrice(price) => p.(currentPrice := price, highestPrice := RealMax(p.highestPrice, price))
    case UpdateEntryPrice(price) => p.(entryPrice := price, highestPrice := RealMax(p.highestPrice, price))
    case EstimateTokens(estimate) => p.(tokenAmount := estimate)
  }

  /** The position as the program holds it: fields that its own methods update. */
  class TrackedPosition {
    const group: Group
    const mint: string
    var stage: Stage
    var entrySolAmount: nat
    var tokenAmount: nat
    var entryPrice: real
    var highestPrice: real
    var currentPrice: real
    var buySignature: string
    var sellSignature: Option<string>
    var sellAttempts: nat

    function View(): Pos
      reads this
    {
      Pos(group, mint, stage, entrySolAmount, tokenAmount, entryPrice, highestPrice, currentPrice,
          buySignature, sellSignature, sellAttempts)
    }

    constructor (group: Group, mint: string, entrySolAmount: nat, entryPrice: real)
      ensures View() == NewPos(group, mint, entrySolAmount, entryPrice)
    {
      this.group, this.mint, stage := group, mint, Pending;
      this.entrySolAmount, tokenAmount, this.entryPrice := entrySolAmount, 0, entryPrice;
      highestPrice, currentPrice, buySignature, sellSignature, sellAttempts := entryPrice, entryPrice, "", None, 0;
    }

    method Submit(signature: string) returns (ok: bool)
      modifies this`stage, this`buySignature
      ensures View() == Apply(old(View()), MarkSubmitted(signature))
          && ok == Accepts(old(View()), MarkSubmitted(signature))
    {
      if stage != Pending {
        return false;
      }
      buySignature := signature;
      stage := Submitted;
      ok := true;
    }

    method Confirm() returns (ok: bool)
      modifies this`stage
      ensures View() == Apply(old(View()), MarkConfirming) && ok == Accepts(old(View()), MarkConfirming)
    {
      if stage != Submitted {
        return false;
      }
      stage := Confirming;
      ok := true;
    }

    method Activate(amount: nat, curvePrice: Option<real>) returns (ok: bool)
      modifies this
      ensures View() == Apply(old(View()), MarkActive(amount, curvePrice))
          && ok == Accepts(old(View()), MarkActive(amount, curvePrice))
    {
      if stage != Confirming && stage != Submitted {
        return false;
      }
      tokenAmount := amount;
      if amount > 0 {
        var displayTokens := amount as real / 1000000.0;
        if curvePrice.Some? && curvePrice.value > 0.0 {
          entryPrice := curvePrice.value;
        } else if entrySolAmount > 0 {
          entryPrice := (entrySolAmount as real / 1000000000.0) / displayTokens;
        } else {
          entryPrice := 0.0;
        }
        highestPrice := entryPrice;
        currentPrice := entryPrice;
      }
      stage := Active;
      ok := true;
    }

    method Sell() returns (ok: bool)
      modifies this`stage, this`sellAttempts
      ensures View() == Apply(old(View()), MarkSelling) && ok == Accepts(old(View()), MarkSelling)
    {
      if stage != Active && stage != Confirming && stage != Submitted {
        return false;
      }
      stage := Selling;
      sellAttempts := sellAttempts + 1;
      ok := true;
    }

    method Close(signature: string) returns (ok: bool)
      modifies this`stage, this`sellSignature
      ensures View() == Apply(old(View()), MarkClosed(signature)) && ok == Accepts(old(View()), MarkClosed(signature))
    {
      if stage != Selling {
        return false;
      }
      sellSignature := Some(signature);
      stage := Closed;
      ok := true;
    }

    method SellPart(sold: nat) returns (ok: bool)
      modifies this`stage, this`tokenAmount
      ensures View() == Apply(old(View()), PartialSell(sold)) && ok == Accepts(old(View()), PartialSell(sold))
    {
      if sold == 0 || sold > tokenAmount {
        return false;
      }
      tokenAmount := tokenAmount - sold;
      stage := Active;
      ok := true;
    }

    method Revert() returns (ok: bool)
      modifies this`stage
      ensures View() == Apply(old(View()), RevertToActive) && ok == Accepts(old(View()), RevertToActive)
    {
      if stage != Selling {
        return false;
      }
      stage := Active;
      ok := true;
    }

    method Restore(previous: Stage) returns (ok: bool)
      modifies this`stage
      ensures View() == Apply(old(View()), RestoreAfterSellAttempt(previous)) && ok
    {
      stage := previous;
      ok := true;
    }

    method Fail() returns (ok: bool)
      modifies this`stage
      ensures View() == Apply(old(View()), MarkFailed) && ok
    {
      stage := Failed;
      ok := true;
    }

    method SetTokenEstimate(estimate: nat) returns (ok: bool)
      modifies this`tokenAmount
      ensures View() == Apply(old(View()), EstimateTokens(estimate))
          && ok == Accepts(old(View()), EstimateTokens(estimate))
    {
      ok := tokenAmount == 0 && estimate > 0;
      if ok {
        tokenAmount := estimate;
      }
    }

    method SetEntryPrice(realPrice: real)
      modifies this`entryPrice, this`highestPrice
      ensures View() == Apply(old(View()), UpdateEntryPrice(realPrice))
    {
      entryPrice := realPrice;
      highestPrice := RealMax(highestPrice, realPrice);
    }

    method SetPrice(price: real) returns (newHigh: bool)
      modifies this`currentPrice, this`highestPrice
      ensures View() == Apply(old(View()), UpdatePrice(price)) && newHigh == (price > old(highestPrice))
    {
      currentPrice := price;
      if price > highestPrice {
        highestPrice := price;
        newHigh := true;
      } else {
        newHigh := false;
      }
    }
  }

  // ---------------------------------------------------------------- every sequence of operations

  function Replay(p: Pos, ops: seq<Op>): Pos {
    if ops == [] then p else Apply(Replay(p, ops[..|ops| - 1]), ops[|ops| - 1])
  }

  lemma {:induction false} HighestCoversCurrent(group: Group, mint: string, sol: nat, price: real, ops: seq<Op>)
    ensures var p := Replay(NewPos(group, mint, sol, price), ops);
            p.highestPrice >= p.currentPrice && p.group == group && p.mint == mint
  {
    if ops != [] {
      HighestCoversCurrent(group, mint, sol, price, ops[..|ops| - 1]);
    }
  }

  function AcceptedSales(p: Pos, ops: seq<Op>): nat {
    if ops == [] then 0
    else
      var last := ops[|ops| - 1];
      AcceptedSales(p, ops[..|ops| - 1])
        + if last.MarkSelling? && Accepts(Replay(p, ops[..|ops| - 1]), last) then 1 else 0
  }

  /** The attempt counter counts the sales that were let through, nothing else. */
  lemma {:induction false} AttemptsCountSales(p: Pos, ops: seq<Op>)
    ensures Replay(p, ops).sellAttempts == p.sellAttempts + AcceptedSales(p, ops)
  {
    if ops != [] {
      AttemptsCountSales(p, ops[..|ops| - 1]);
    }
  }

  predicate SaleAt(p: Pos, ops: seq<Op>, i: nat)
    requires i < |ops|
  {
    ops[i].MarkSelling? && Accepts(Replay(p, ops[..i]), ops[i])
  }

  /** Step `k` takes the position out of Selling. */
  predicate LeavesSelling(p: Pos, ops: seq<Op>, k: nat)
    requires k < |ops|
  {
    Replay(p, ops[..k]).stage == Selling && Replay(p, ops[..k + 1]).stage != Selling
  }

  lemma {:induction false} StillSelling(p: Pos, ops: seq<Op>, i: nat, j: nat)
    requires i < j <= |ops| && SaleAt(p, ops, i)
    requires forall k :: i < k < j ==> !LeavesSelling(p, ops, k)
    ensures Replay(p, ops[..j]).stage == Selling
  {
    assert ops[..j][..j - 1] == ops[..j - 1];
    if j > i + 1 {
      StillSelling(p, ops, i, j - 1);
      assert !LeavesSelling(p, ops, j - 1);
    }
  }

  /** Two sales of one position never overlap: between them the position leaves Selling. */
  lemma SalesAreSeparated(p: Pos, ops: seq<Op>, i: nat, j: nat)
    requires i < j < |ops| && SaleAt(p, ops, i) && SaleAt(p, ops, j)
    ensures exists k :: i < k < j && LeavesSelling(p, ops, k)
  {
    if forall k :: i < k < j ==> !LeavesSelling(p, ops, k) {
      StillSelling(p, ops, i, j);
    }
  }

  /** Tokens the position was last credited with, by an activation or by an estimate for an empty position. */
  function Credited(p: Pos, ops: seq<Op>): nat {
    if ops == [] then p.tokenAmount
    else
      var last := ops[|ops| - 1];
      if !Accepts(Replay(p, ops[..|ops| - 1]), last) then Credited(p, ops[..|ops| - 1])
      else if last.MarkActive? then last.amount
      else if last.EstimateTokens? then last.estimate
      else Credited(p, ops[..|ops| - 1])
  }

  /** Tokens sold in parts since then. */
  function SoldSince(p: Pos, ops: seq<Op>): nat {
    if ops == [] then 0
    else
      var last := ops[|ops| - 1];
      if !Accepts(Replay(p, ops[..|ops| - 1]), last) then SoldSince(p, ops[..|ops| - 1])
      else if last.MarkActive? || last.EstimateTokens? then 0
      else SoldSince(p, ops[..|ops| - 1]) + if last.PartialSell? then last.sold else 0
  }

  lemma {:induction false} TokensConserved(p: Pos, ops: seq<Op>)
    ensures Replay(p, ops).tokenAmount + SoldSince(p, ops) == Credited(p, ops)
  {
    if ops != [] {
      TokensConserved(p, ops[..|ops| - 1]);
    }
  }

  // ---------------------------------------------------------------- the documented life cycle

  /** The moves the life-cycle diagram and the method comments name. */
  predicate Documented(a: Stage, b: Stage) {
    || b == Failed
    || (a == Pending && b == Submitted)
    || (a == Submitted && b == Confirming)
    || (a == Confirming && b == Active)
    || ((a == Active || a == Confirming) && b == Selling)
    || (a == Selling && (b == Closed || b == Active))
  }

  /** Where a restore takes a position along no documented edge. */
  function StrayTargets(a: Stage): set<Stage> {
    match a
    case Pending => {Confirming, Active, Selling, Closed}
    case Submitted => {Pending, Active, Selling, Closed}
    case Confirming => {Pending, Submitted, Closed}
    case Active => {Pending, Submitted, Confirming, Closed}
    case Selling => {Pending, Submitted, Confirming}
    case Closed => {Pending, Submitted, Confirming, Active, Selling}
    case Failed => {Pending, Submitted, Confirming, Active, Selling, Closed}
  }

  /** The calls that move a position along no documented edge; a caller can tell from the stage and the amounts. */
  predicate Strays(p: Pos, op: Op) {
    || (p.stage == Submitted && (op.MarkActive? || op.MarkSelling?))
    || (op.RestoreAfterSellAttempt? && op.previous in StrayTargets(p.stage))
    || (op.PartialSell? && 0 < op.sold <= p.tokenAmount && p.stage in {Pending, Submitted, Closed, Failed})
  }

  lemma StraysIff(p: Pos, op: Op)
    ensures Strays(p, op) <==> Apply(p, op).stage != p.stage && !Documented(p.stage, Apply(p, op).stage)
  {
  }

  /** Step `i` leaves the stage or takes a documented edge. */
  predicate DocumentedAt(p: Pos, ops: seq<Op>, i: nat)
    requires i < |ops|
  {
    var a, b := Replay(p, ops[..i]).stage, Replay(p, ops[..i + 1]).stage;
    a == b || Documented(a, b)
  }

  predicate StraysAt(p: Pos, ops: seq<Op>, i: nat)
    requires i < |ops|
  {
    Strays(Replay(p, ops[..i]), ops[i])
  }

  /** A whole run keeps to the documented life cycle exactly when none of its calls is one of these. */
  lemma FollowsLifeCycleIff(p: Pos, ops: seq<Op>)
    ensures (forall i: nat :: i < |ops| ==> DocumentedAt(p, ops, i)) <==>
        (forall i: nat :: i < |ops| ==> !StraysAt(p, ops, i))
  {
    forall i: nat | i < |ops| ensures StraysAt(p, ops, i) <==> !DocumentedAt(p, ops, i) {
      ReplayStep(p, ops, i);
      StraysIff(Replay(p, ops[..i]), ops[i]);
    }
  }

  lemma ReplayStep(p: Pos, ops: seq<Op>, i: nat)
    requires i < |ops|
    ensures Replay(p, ops[..i + 1]) == Apply(Replay(p, ops[..i]), ops[i])
  {
    assert ops[..i + 1][..i] == ops[..i];
  }

  /** Tokens of a closed position: what it closed with, or the first estimate since if that was nothing. */
  function HeldWhenClosed(tokens: nat, ops: seq<Op>): nat {
    if ops == [] then tokens
    else
      var before, last := HeldWhenClosed(tokens, ops[..|ops| - 1]), ops[|ops| - 1];
      if last.EstimateTokens? && before == 0 then last.estimate else before
  }

  /** The calls that reopen a closed position holding this many tokens. */
  predicate Reopens(held: nat, op: Op) {
    || op.MarkFailed?
    || (op.RestoreAfterSellAttempt? && op.previous != Closed)
    || (op.PartialSell? && 0 < op.sold <= held)
  }

  predicate ReopensAt(tokens: nat, ops: seq<Op>, i: nat)
    requires i < |ops|
  {
    Reopens(HeldWhenClosed(tokens, ops[..i]), ops[i])
  }

  predicate ClosedAt(p: Pos, ops: seq<Op>, n: nat)
    requires n <= |ops|
  {
    Replay(p, ops[..n]).stage == Closed
  }

  lemma ClosedStep(p: Pos, op: Op)
    requires p.stage == Closed
    ensures Apply(p, op).stage != Closed <==> Reopens(p.tokenAmount, op)
    ensures !Reopens(p.tokenAmount, op) ==>
              Apply(p, op).tokenAmount == if op.EstimateTokens? && p.tokenAmount == 0 then op.estimate
                  else p.tokenAmount
  {
  }

  lemma {:induction false} ClosedHolds(p: Pos, ops: seq<Op>, n: nat)
    requires p.stage == Closed && n <= |ops|
    requires forall i: nat :: i < n ==> !ReopensAt(p.tokenAmount, ops, i)
    ensures ClosedAt(p, ops, n)
    ensures Replay(p, ops[..n]).tokenAmount == HeldWhenClosed(p.tokenAmount, ops[..n])
  {
    if n > 0 {
      ClosedHolds(p, ops, n - 1);
      ReplayStep(p, ops, n - 1);
      assert !ReopensAt(p.tokenAmount, ops, n - 1);
      ClosedStep(Replay(p, ops[..n - 1]), ops[n - 1]);
      assert ops[..n][..n - 1] == ops[..n - 1];
    }
  }

  /**
   * A closed position stays closed over a whole sequence of operations if and only if the sequence holds no
   * failure, no restore to another stage, and no partial sale of tokens that it still holds by then.
   */
  lemma ClosedStaysIff(p: Pos, ops: seq<Op>)
    requires p.stage == Closed
    ensures (forall n: nat :: n <= |ops| ==> ClosedAt(p, ops, n))
            <==> (forall i: nat :: i < |ops| ==> !ReopensAt(p.tokenAmount, ops, i))
  {
    if i: nat :| i < |ops| && ReopensAt(p.tokenAmount, ops, i) {
      var first := FirstReopening(p.tokenAmount, ops, |ops|);
      ClosedHolds(p, ops, first);
      ReplayStep(p, ops, first);
      ClosedStep(Replay(p, ops[..first]), ops[first]);
      assert !ClosedAt(p, ops, first + 1);
    } else {
      forall n: nat | n <= |ops| ensures ClosedAt(p, ops, n) {
        ClosedHolds(p, ops, n);
      }
    }
  }

  lemma {:induction false} FirstReopening(tokens: nat, ops: seq<Op>, n: nat) returns (i: nat)
    requires n <= |ops| && exists j: nat :: j < n && ReopensAt(tokens, ops, j)
    ensures i < n && ReopensAt(tokens, ops, i)
    ensures forall j: nat :: j < i ==> !ReopensAt(tokens, ops, j)
  {
    if j: nat :| j < n - 1 && ReopensAt(tokens, ops, j) {
      i := FirstReopening(tokens, ops, n - 1);
    } else {
      i := n - 1;
    }
  }

  lemma ClosedRevivedWitness(group: Group, mint: string)
    ensures var bought := Apply(Apply(Apply(NewPos(group, mint, 0, 0.0), MarkSubmitted("b")), MarkConfirming),
        MarkActive(10, None));
            var closed := Apply(Apply(bought, MarkSelling), MarkClosed("s"));
            var revived := Apply(closed, PartialSell(4));
            closed.stage == Closed && revived.stage == Active && revived.tokenAmount == 6
  {
  }

  // ---------------------------------------------------------------- exit rules

  datatype SellReason = TakeProfit | StopLoss | TrailingStop | MaxLifetime

  function PnlPercent(p: Pos): real {
    if p.entryPrice > 0.0 then (p.currentPrice - p.entryPrice) / p.entryPrice * 100.0 else 0.0
  }

  function DrawdownPercent(p: Pos): real {
    if p.highestPrice > 0.0 then (p.highestPrice - p.currentPrice) / p.highestPrice * 100.0 else 0.0
  }

  predicate CanSell(p: Pos) {
    p.stage == Active || p.stage == Confirming
  }

  function CheckExit(p: Pos, heldSeconds: nat): Option<SellReason> {
    if p.group.maxHoldSeconds > 0 && heldSeconds >= p.group.maxHoldSeconds && CanSell(p) then Some(MaxLifetime)
    else if p.group.followSell then None
    else if p.stage == Active && PnlPercent(p) <= -p.group.stopLossPercent then Some(StopLoss)
    else if p.stage == Active && PnlPercent(p) >= p.group.takeProfitPercent then Some(TakeProfit)
    else if && p.stage == Active && p.group.trailingStopPercent > 0.0 && p.highestPrice > 0.0
            && PnlPercent(p) > 0.0 && DrawdownPercent(p) >= p.group.trailingStopPercent then Some(TrailingStop)
    else None
  }

  lemma MulDivLe(a: real, b: real, c: real)
    requires b > 0.0
    ensures a / b * 100.0 <= c <==> a <= b * (c / 100.0)
    ensures a / b * 100.0 >= c <==> a >= b * (c / 100.0)
  {
    var q := a / b;
    assert a == q * b;
    var r := c / 100.0;
    if q <= r { MulMono(q, r, b); } else { MulMonoStrict(r, q, b); }
    if q >= r { MulMono(r, q, b); } else { MulMonoStrict(q, r, b); }
  }

  lemma MulMono(x: real, y: real, b: real)
    requires x <= y && b > 0.0
    ensures x * b <= y * b
  {
  }

  lemma MulMonoStrict(x: real, y: real, b: real)
    requires x < y && b > 0.0
    ensures x * b < y * b
  {
  }

  /** Stated in prices: where the loss, the profit and the trailing levels lie, for a position with a known cost. */
  predicate AtLossLevel(p: Pos) {
    p.currentPrice <= p.entryPrice * (1.0 - p.group.stopLossPercent / 100.0)
  }

  predicate AtProfitLevel(p: Pos) {
    p.currentPrice >= p.entryPrice * (1.0 + p.group.takeProfitPercent / 100.0)
  }

  predicate AtTrailingLevel(p: Pos) {
    && p.group.trailingStopPercent > 0.0
    && p.entryPrice < p.currentPrice <= p.highestPrice * (1.0 - p.group.trailingStopPercent / 100.0)
  }

  lemma LevelsArePercentages(p: Pos)
    requires p.entryPrice > 0.0
    ensures PnlPercent(p) <= -p.group.stopLossPercent <==> AtLossLevel(p)
    ensures PnlPercent(p) >= p.group.takeProfitPercent <==> AtProfitLevel(p)
    ensures PnlPercent(p) > 0.0 <==> p.currentPrice > p.entryPrice
  {
    MulDivLe(p.currentPrice - p.entryPrice, p.entryPrice, -p.group.stopLossPercent);
    MulDivLe(p.currentPrice - p.entryPrice, p.entryPrice, p.group.takeProfitPercent);
    MulDivLe(p.currentPrice - p.entryPrice, p.entryPrice, 0.0);
  }

  /**
   * An active position with a known cost that has not outlived its group and does not follow the target's
   * sales is sold exactly at the price levels its group sets, the loss level first.
   */
  lemma ExitAtPriceLevels(p: Pos, heldSeconds: nat)
    requires p.stage == Active && !p.group.followSell && 0.0 < p.entryPrice && p.currentPrice <= p.highestPrice
    requires p.group.maxHoldSeconds == 0 || heldSeconds < p.group.maxHoldSeconds
    ensures CheckExit(p, heldSeconds) ==
              if AtLossLevel(p) then Some(StopLoss)
              else if AtProfitLevel(p) then Some(TakeProfit)
              else if AtTrailingLevel(p) then Some(TrailingStop)
              else None
  {
    LevelsArePercentages(p);
    if p.highestPrice > 0.0 {
      MulDivLe(p.highestPrice - p.currentPrice, p.highestPrice, p.group.trailingStopPercent);
    }
  }

  /** Every exit signal is for a position that the sale will be let through for. */
  lemma ExitsAreSellable(p: Pos, heldSeconds: nat)
    requires CheckExit(p, heldSeconds).Some?
    ensures Accepts(p, MarkSelling)
    ensures CheckExit(p, heldSeconds) != Some(MaxLifetime) ==> p.stage == Active && !p.group.followSell
  {
  }

  /**
   * A trailing stop locks in a profit: the price is above cost, has come down from its peak, and is short of the
   * target.
   */
  lemma TrailingStopLocksProfit(p: Pos, heldSeconds: nat)
    requires CheckExit(p, heldSeconds) == Some(TrailingStop)
    ensures 0.0 < p.entryPrice < p.currentPrice < p.highestPrice
    ensures PnlPercent(p) < p.group.takeProfitPercent && !AtProfitLevel(p)
  {
    assert p.entryPrice > 0.0;
    LevelsArePercentages(p);
    MulDivLe(p.highestPrice - p.currentPrice, p.highestPrice, p.group.trailingStopPercent);
    MulMonoStrict(0.0, p.group.trailingStopPercent / 100.0, p.highestPrice);
  }

  /**
   * Age sells exactly the active and confirming positions that have reached a limit their group sets, whatever
   * their cost and price, and also for a group that follows the target's sales; nothing else sells those.
   */
  lemma LifetimeIff(p: Pos, heldSeconds: nat)
    ensures CheckExit(p, heldSeconds) == Some(MaxLifetime) <==>
              0 < p.group.maxHoldSeconds <= heldSeconds && p.stage in {Active, Confirming}
    ensures p.group.followSell && CheckExit(p, heldSeconds).Some? ==> CheckExit(p, heldSeconds) == Some(MaxLifetime)
  {
  }

  /** A position without a cost has no profit or loss: with positive thresholds only its age can sell it. */
  lemma FreePositionOnlyExpires(p: Pos, heldSeconds: nat)
    requires p.entryPrice <= 0.0 && p.group.stopLossPercent > 0.0 && p.group.takeProfitPercent > 0.0
    ensures CheckExit(p, heldSeconds) ==
              if CanSell(p) && 0 < p.group.maxHoldSeconds <= heldSeconds then Some(MaxLifetime) else None
  {
  }

  // ---------------------------------------------------------------- the manager

  datatype Key = Key(groupId: string, mint: string)

  function KeyOf(p: Pos): Key {
    Key(p.group.id, p.mint)
  }

  /** How a position came about: opened with these values, then these operations in this order. */
  datatype Life = Life(group: Group, mint: string, entrySolAmount: nat, entryPrice: real, ops: seq<Op>)
  {
    function Outcome(): Pos {
      Replay(NewPos(group, mint, entrySolAmount, entryPrice), ops)
    }
  }

  /** A position is prepared by the buy path and then handed over; later calls name it by its key. */
  datatype Call = Open(life: Life) | On(key: Key, op: Op)

  function Perform(positions: map<Key, Pos>, call: Call): map<Key, Pos> {
    match call
    case Open(life) => positions[KeyOf(life.Outcome()) := life.Outcome()]
    case On(key, op) => if key in positions then positions[key := Apply(positions[key], op)] else positions
  }

  /**
   * The manager holds the tracked positions themselves; each keyed call is one of the position's own
   * methods. `calls` records what it was asked to do, for the specification only.
   */
  class Manager {
    var positions: map<Key, TrackedPosition>
    ghost var calls: seq<Call>

    ghost function View(): map<Key, Pos>
      reads this, positions.Values
    {
      map k | k in positions :: positions[k].View()
    }

    ghost predicate Valid()
      reads this, positions.Values
    {
      && (forall k :: k in positions ==> Key(positions[k].group.id, positions[k].mint) == k)
      && View() == PerformAll(calls)
    }

    constructor ()
      ensures Valid() && positions == map[] && calls == []
    {
      positions := map[];
      calls := [];
      new;
      assert View() == map[];
    }

    /** Takes over a position that the buy path has prepared; one under the same key is replaced. */
    method AddPosition(p: TrackedPosition, ghost life: Life)
      requires Valid() && p.View() == life.Outcome()
      modifies this
      ensures Valid() && calls == old(calls) + [Open(life)]
      ensures View() == Perform(old(View()), Open(life))
      ensures Key(p.group.id, p.mint) in positions && positions[Key(p.group.id, p.mint)] == p
      ensures forall k :: k in old(positions) && k != Key(p.group.id, p.mint) ==>
          k in positions && positions[k] == old(positions)[k]
    {
      positions := positions[Key(p.group.id, p.mint) := p];
      calls := calls + [Open(life)];
      assert calls[..|calls| - 1] == old(calls);
      assert View() == Perform(old(View()), Open(life));
    }

    /** One keyed operation on the position in place; an unknown key is ignored and no other position is touched. */
    method Update(key: Key, op: Op) returns (ok: bool)
      requires Valid()
      modifies this`calls, if key in positions then {positions[key]} else {}
      ensures Valid() && positions == old(positions) && calls == old(calls) + [On(key, op)]
      ensures View() == Perform(old(View()), On(key, op))
      ensures forall k :: k in positions && k != key ==> positions[k].View() == old(positions[k].View())
      ensures ok == (key in old(View()) && Accepts(old(View())[key], op))
    {
      ok := false;
      if key in positions {
        ok := Dispatch(positions[key], op);
      }
      calls := calls + [On(key, op)];
      assert calls[..|calls| - 1] == old(calls);
      assert View() == Perform(old(View()), On(key, op));
    }

    /** A copy of a managed position, with what every history guarantees about it. */
    method GetPosition(key: Key) returns (p: Option<Pos>)
      requires Valid()
      ensures p.Some? <==> LifeOf(key, calls).Some?
      ensures p.Some? ==>
                && p.value == LifeOf(key, calls).value.Outcome() && KeyOf(p.value) == key
                && p.value.highestPrice >= p.value.currentPrice
                && p.value.sellAttempts == SalesOf(LifeOf(key, calls).value)
    {
      PositionsLiveApart(calls, key);
      p := None;
      if key in positions {
        assert key in View();
        ManagedPositionsSound(calls, key);
        p := Some(positions[key].View());
      } else {
        assert key !in View();
      }
    }
  }

  /** Hands an operation to the position's own method. */
  method Dispatch(p: TrackedPosition, op: Op) returns (ok: bool)
    modifies p
    ensures p.View() == Apply(old(p.View()), op) && ok == Accepts(old(p.View()), op)
  {
    match op
    case MarkSubmitted(signature) => ok := p.Submit(signature);
    case MarkConfirming => ok := p.Confirm();
    case MarkActive(amount, curvePrice) => ok := p.Activate(amount, curvePrice);
    case MarkSelling => ok := p.Sell();
    case MarkClosed(signature) => ok := p.Close(signature);
    case MarkFailed => ok := p.Fail();
    case RevertToActive => ok := p.Revert();
    case RestoreAfterSellAttempt(previous) => ok := p.Restore(previous);
    case PartialSell(sold) => ok := p.SellPart(sold);
    case UpdatePrice(price) =>
      var _ := p.SetPrice(price);
      ok := true;
    case UpdateEntryPrice(price) =>
      p.SetEntryPrice(price);
      ok := true;
    case EstimateTokens(estimate) => ok := p.SetTokenEstimate(estimate);
  }

  function PerformAll(calls: seq<Call>): map<Key, Pos> {
    if calls == [] then map[] else Perform(PerformAll(calls[..|calls| - 1]), calls[|calls| - 1])
  }

  /** What happened to `key` since it was last opened; calls for other keys do not count. */
  function LifeOf(key: Key, calls: seq<Call>): Option<Life> {
    if calls == [] then None
    else
      var last := calls[|calls| - 1];
      var before := LifeOf(key, calls[..|calls| - 1]);
      match last
      case Open(life) => if key == Key(life.group.id, life.mint) then Some(life) else before
      case On(k, op) => if k == key && before.Some? then Some(before.value.(ops := before.value.ops + [op])) else before
  }

  /** The manager keeps positions apart: each is the outcome of its own operations alone, under its own key. */
  lemma {:induction false} PositionsLiveApart(calls: seq<Call>, key: Key)
    ensures key in PerformAll(calls) <==> LifeOf(key, calls).Some?
    ensures key in PerformAll(calls) ==>
              && PerformAll(calls)[key] == LifeOf(key, calls).value.Outcome()
              && KeyOf(PerformAll(calls)[key]) == key
  {
    if calls != [] {
      PositionsLiveApart(calls[..|calls| - 1], key);
      var last := calls[|calls| - 1];
      match last
      case Open(life) =>
        HighestCoversCurrent(life.group, life.mint, life.entrySolAmount, life.entryPrice, life.ops);
      case On(k, op) =>
        if k == key && LifeOf(key, calls[..|calls| - 1]).Some? {
          var ops := LifeOf(key, calls[..|calls| - 1]).value.ops;
          assert (ops + [op])[..|ops|] == ops;
        }
    }
  }

  /** The sales let through over a life. */
  function SalesOf(life: Life): nat {
    AcceptedSales(NewPos(life.group, life.mint, life.entrySolAmount, life.entryPrice), life.ops)
  }

  /** So what holds over every life holds of every managed position. */
  lemma ManagedPositionsSound(calls: seq<Call>, key: Key)
    requires key in PerformAll(calls)
    ensures var p, life := PerformAll(calls)[key], LifeOf(key, calls);
            life.Some? && p.highestPrice >= p.currentPrice && p.sellAttempts == SalesOf(life.value)
  {
    PositionsLiveApart(calls, key);
    var life := LifeOf(key, calls).value;
    HighestCoversCurrent(life.group, life.mint, life.entrySolAmount, life.entryPrice, life.ops);
    AttemptsCountSales(NewPos(life.group, life.mint, life.entrySolAmount, life.entryPrice), life.ops);
  }
}
