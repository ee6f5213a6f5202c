/** The pure decisions of a liquidation run: retry or give up, how much to swap, how much of the
    proceeds this claim may spend, and which status a failed swap leaves behind. */
module BotMath {
  import opened Prelude
  import opened BotTypes

  const CONFIRM_ATTEMPTS: nat := 5
  const CANCEL_ATTEMPTS: nat := 3
  const CLAIM_RETRY_LIMIT: nat := 3
  const E8: nat := 100_000_000

  datatype RetryAction = Retry(newCount: nat) | GiveUp

  /** Counters are u8, so the increment saturates at 255. */
  function NextRetryAction(count: nat, max: nat): RetryAction {
    var attempted := SatAdd(count, 1, 255);
    if attempted >= max then GiveUp else Retry(attempted)
  }

  // ---- How much collateral to swap ----

  /** The exact amount of collateral worth `debt`, rounded down. */
  function Need(debt: nat, price: nat): nat
    requires price > 0
  {
    debt * E8 / price
  }

  function CalculateSwapAmount(collateral: nat, debt: nat, price: nat): nat {
    if price == 0 then collateral
    else
      var icpNeeded := Need(debt, price) % U64_SPAN;
      var withBuffer := SatMul(icpNeeded, 105, U64_MAX) / 100;
      Min(withBuffer, collateral)
  }

  /** Never more than was seized, and never worth more than 105% of the debt: neither the u64
      truncation nor the saturation can push the amount up. */
  lemma SwapAmountIsBounded(collateral: nat, debt: nat, price: nat)
    ensures CalculateSwapAmount(collateral, debt, price) <= collateral
    ensures price > 0 ==> 100 * (CalculateSwapAmount(collateral, debt, price) * price) <= 105 * (debt * E8)
  {
    if price > 0 {
      var need := Need(debt, price);
      var amount := CalculateSwapAmount(collateral, debt, price);
      assert need % U64_SPAN <= need;
      assert 100 * amount <= 105 * need;
      calc {
        100 * (amount * price);
        (100 * amount) * price;
      <= { MulMono(100 * amount, 105 * need, price); }
        (105 * need) * price;
        105 * (need * price);
      <= { DivBounds(debt * E8, price); }
        105 * (debt * E8);
      }
    }
  }

  /** The amount is the largest that stays within the seized collateral and within 105% of the need, the
      need cut to 64 bits and the product to 2^64 - 1; without a price it is all of the collateral. */
  lemma SwapAmountIsLargest(collateral: nat, debt: nat, price: nat, a: nat)
    ensures price == 0 ==> CalculateSwapAmount(collateral, debt, price) == collateral
    ensures price > 0 ==>
              (a <= CalculateSwapAmount(collateral, debt, price) <==>
               a <= collateral && 100 * a <= 0xFFFF_FFFF_FFFF_FFFF
               && 100 * a <= 105 * (debt * 100_000_000 / price % 0x1_0000_0000_0000_0000))
  {
    if price > 0 {
      var need := debt * 100_000_000 / price % 0x1_0000_0000_0000_0000;
      var product := SatMul(need, 105, U64_MAX);
      DivLargest(product, 100, a);
      assert a * 100 == 100 * a && need * 105 == 105 * need;
    }
  }

  /** When nothing truncates and the collateral suffices, the buffered amount covers the debt at
      the oracle price exactly when the need is at least 20 units or divides evenly: below 20 the
      5% buffer rounds to nothing. */
  lemma SwapCoversDebt(collateral: nat, debt: nat, price: nat)
    requires price > 0
    requires 105 * Need(debt, price) <= U64_MAX
    requires collateral >= 105 * Need(debt, price) / 100
    ensures CalculateSwapAmount(collateral, debt, price) * price >= debt * E8
       <==> Need(debt, price) >= 20 || debt * E8 % price == 0
  {
    var need := Need(debt, price);
    BufferedAmount(collateral, debt, price);
    CoversIff(debt * E8, price, need, 105 * need / 100);
    hide CalculateSwapAmount;
  }

  lemma BufferedAmount(collateral: nat, debt: nat, price: nat)
    requires price > 0
    requires 105 * Need(debt, price) <= U64_MAX && collateral >= 105 * Need(debt, price) / 100
    ensures CalculateSwapAmount(collateral, debt, price) == 105 * Need(debt, price) / 100
  {
    hide Need;
    assert Need(debt, price) % U64_SPAN == Need(debt, price);
  }

  /** Five percent more than the rounded-down need covers the worth, unless it rounds to nothing more. */
  lemma CoversIff(worth: nat, price: nat, need: nat, amount: nat)
    requires price > 0 && need == worth / price && amount == 105 * need / 100
    ensures amount * price >= worth <==> need >= 20 || worth % price == 0
  {
    DivBounds(worth, price);
    assert worth == need * price + worth % price;
    if need >= 20 {
      MulMono(need + 1, amount, price);
    } else {
      assert amount == need;
    }
  }

  // ---- Slippage floor ----

  /** The subtraction is done in u128 and cut to u64, so an oversized tolerance wraps around. */
  function ApplySlippage(amount: nat, maxSlippageBps: nat): nat {
    (amount - amount * maxSlippageBps / 10_000) % U64_SPAN
  }

  function CeilDiv(a: nat, b: nat): nat
    requires b > 0
  {
    (a + b - 1) / b
  }

  /** For a tolerance of at most 100% the minimum output is the quote less the tolerance, rounded up. */
  lemma SlippageRoundsUp(amount: nat, bps: nat)
    requires amount <= U64_MAX && bps <= 10_000
    ensures amount * (10_000 - bps) >= 0
    ensures ApplySlippage(amount, bps) == CeilDiv(amount * (10_000 - bps), 10_000)
    ensures ApplySlippage(amount, bps) <= amount
  {
    var cut := amount * bps;
    assert amount * (10_000 - bps) == amount * 10_000 - cut;
    assert 0 <= cut <= amount * 10_000 by {
      assert cut == bps * amount;
      MulMono(bps, 10_000, amount);
    }
    assert cut / 10_000 <= amount;
    assert amount - cut / 10_000 == (amount * 10_000 - cut + 9_999) / 10_000;
  }

  /** What a tolerance takes beyond the whole amount. */
  function Excess(amount: nat, bps: nat): nat
    requires bps >= 10_000
  {
    amount * (bps - 10_000) / 10_000
  }

  /** Above 100% the subtraction goes below zero exactly when the excess is a whole unit. Until then
      the floor is zero; from there on it is minus the excess modulo 2^64, which demands more than was
      quoted exactly when that excess, so reduced, is positive and stays short of 2^64 by more than the
      amount. */
  lemma OversizedTolerance(amount: nat, bps: nat)
    requires amount <= U64_MAX && bps > 10_000
    ensures amount * bps / 10_000 > amount <==> amount * (bps - 10_000) >= 10_000
    ensures amount * (bps - 10_000) < 10_000 ==> ApplySlippage(amount, bps) == 0
    ensures var left := Excess(amount, bps) % U64_SPAN;
            && ApplySlippage(amount, bps) == (if left == 0 then 0 else U64_SPAN - left)
            && (ApplySlippage(amount, bps) > amount <==> 0 < left && left + amount < U64_SPAN)
  {
    var over := amount * (bps - 10_000);
    assert amount * bps == over + amount * 10_000;
    assert amount * bps / 10_000 == over / 10_000 + amount;
    NegativeModulo(Excess(amount, bps), U64_SPAN);
  }

  lemma NegativeModulo(e: int, m: int)
    requires e >= 0 && m > 0
    ensures -e % m == if e % m == 0 then 0 else m - e % m
  {
    var q, r := e / m, e % m;
    if r == 0 {
      ModuloIs(-e, m, -q, 0);
    } else {
      ModuloIs(-e, m, -q - 1, m - r);
    }
  }

  lemma ModuloIs(a: int, m: int, q: int, r: int)
    requires 0 <= r < m && a == q * m + r
    ensures a % m == r
  {
    var d := a / m - q;
    assert d * m == r - a % m;
    assert d == 0 by {
      MultipleIsZero(d, m);
    }
  }

  lemma MultipleIsZero(d: int, m: int)
    requires -m < d * m < m
    ensures d == 0
  {
  }

  // ---- Per-claim reservation ----

  datatype Reservation = Reservation(toTransfer: nat, recordedReceived: nat, shortDelivery: bool)

  /** Spend what the wallet gained, but never more than the router said was ours. */
  function ComputeReservation(router: nat, before: nat, after: nat): (r: Reservation)
    ensures r.toTransfer == r.recordedReceived == Min(router, SatSub(after, before))
    ensures r.shortDelivery <==> before + router > after && router > 0
  {
    var delta := SatSub(after, before);
    if delta < router then Reservation(delta, delta, true) else Reservation(router, router, false)
  }

  /** The sentinel for an unreadable pre-swap balance reserves nothing, whatever the second read
      says, and even when that read fails too and its value is synthesised. */
  lemma UnreadBalanceReservesNothing(router: nat, after: nat)
    requires after <= U64_MAX
    ensures ComputeReservation(router, U64_MAX, after).toTransfer == 0
    ensures ComputeReservation(router, U64_MAX, SatAdd(U64_MAX, router, U64_MAX)).toTransfer == 0
  {
  }

  // ---- Swap-failure cleanup ----

  datatype FailureOutcome = FailureOutcome(status: Status, note: Note, logsStuck: bool)

  /** A failed return wins over a failed cancel; only a full cleanup is a plain SwapFailed. */
  function DecideSwapFailure(returnFailed: bool, cancelFailed: Option<nat>): (o: FailureOutcome)
    ensures o.logsStuck <==> returnFailed || cancelFailed.Some?
    ensures o.status == SwapFailed <==> !o.logsStuck
    ensures o.status == TransferFailed <==> returnFailed
  {
    if returnFailed then FailureOutcome(TransferFailed, ReturnError, true)
    else if cancelFailed.Some? then FailureOutcome(ConfirmFailed, CancelError(cancelFailed.value), true)
    else FailureOutcome(SwapFailed, SwapError, false)
  }
}
