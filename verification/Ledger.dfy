/** The ICRC-1/ICRC-2 ledger of `flaky_ledger`: balances, allowances, deduplication and the
    injected failures. `Next` and `ReplyOf` give every call's effect on the state as a value;
    the class `FlakyLedger` is the stateful canister, proved against them. */
module Ledger {
  import opened Prelude

  type Principal = nat
  type Subaccount = nat // a 32-byte identifier

  datatype Account = Account(owner: Principal, subaccount: Option<Subaccount>)

  datatype TransferArg = TransferArg(
    fromSubaccount: Option<Subaccount>, to: Account, amount: nat, fee: Option<nat>,
    memo: Option<seq<nat>>, createdAt: Option<nat>)

  datatype TransferFromArg = TransferFromArg(
    spenderSubaccount: Option<Subaccount>, from: Account, to: Account, amount: nat,
    fee: Option<nat>, memo: Option<seq<nat>>, createdAt: Option<nat>)

  datatype LedgerError =
    | BadFee(expected: nat)
    | InsufficientFunds(balance: nat)
    | InsufficientAllowance(allowance: nat)
    | Duplicate(duplicateOf: nat)
    | Generic(code: nat)

  datatype Reply = Ok(block: nat) | Err(error: LedgerError)

  /** The tuple two calls must share to collapse into one block. */
  datatype DedupKey = DedupKey(
    caller: Principal, fromSubaccount: Option<Subaccount>, to: Account, amount: nat,
    fee: Option<nat>, memo: Option<seq<nat>>, createdAt: nat)

  datatype LedgerState = LedgerState(
    balances: map<Account, u128>,
    allowances: map<(Account, Account), u128>,
    blockIndex: nat,
    fee: u128,
    failTransfers: bool,
    failTransferFrom: bool,
    phantomFailures: nat,
    badFeeFailures: nat,
    dedup: map<DedupKey, nat>,
    failTransfersFor: Option<Principal>,
    fakeZeroFor: Option<Principal>)

  const EMPTY := LedgerState(map[], map[], 0, 0, false, false, 0, 0, map[], None, None)

  datatype Call =
    | Transfer(caller: Principal, arg: TransferArg)
    | TransferFrom(caller: Principal, farg: TransferFromArg)
    | Approve(caller: Principal, fromSubaccount: Option<Subaccount>, spender: Account, amount: nat)
    | Mint(to: Account, amount: nat)
    | SetFee(amount: nat)
    | SetFailTransfers(flag: bool)
    | SetFailTransferFrom(flag: bool)
    | SetPhantomFailures(count: nat)
    | SetBadFeeFailures(count: nat)
    | ResetDedup
    | SetFailTransfersFor(target: Option<Principal>)
    | SetFakeZeroFor(target: Option<Principal>)

  /** A `Nat` that does not fit 128 bits is read as zero. */
  function NatToU128(n: nat): u128 {
    if n <= U128_MAX then n else 0
  }

  function FeeToU128(fee: Option<nat>): Option<u128> {
    match fee
    case None => None
    case Some(n) => Some(NatToU128(n))
  }

  function Payer(caller: Principal, arg: TransferArg): Account {
    Account(caller, arg.fromSubaccount)
  }

  function TransferKey(caller: Principal, arg: TransferArg): Option<DedupKey> {
    if arg.createdAt.None? then None
    else Some(DedupKey(caller, arg.fromSubaccount, arg.to, NatToU128(arg.amount),
                       FeeToU128(arg.fee), arg.memo, arg.createdAt.value))
  }

  /** Keyed on the spender; of the paying account only the subaccount takes part. */
  function TransferFromKey(caller: Principal, arg: TransferFromArg): Option<DedupKey> {
    if arg.createdAt.None? then None
    else Some(DedupKey(caller, arg.from.subaccount, arg.to, NatToU128(arg.amount),
                       FeeToU128(arg.fee), arg.memo, arg.createdAt.value))
  }

  /** An account's balance; a missing entry stands for zero. */
  function Funds(balances: map<Account, u128>, account: Account): u128 {
    if account in balances then balances[account] else 0
  }

  /** Debit the payer, then credit the recipient: a self-transfer loses what is debited beyond the
      amount. The credit wraps around at 2^128. */
  function Move(balances: map<Account, u128>, from: Account, to: Account, amount: u128, due: u128): map<Account, u128>
    requires due <= Funds(balances, from)
  {
    var debited := balances[from := Funds(balances, from) - due];
    debited[to := WrapAdd(Funds(debited, to), amount)]
  }

  /** What a transfer is checked and charged for: amount and fee, added without an overflow check. */
  function Due(s: LedgerState, amount: u128): u128 {
    WrapAdd(amount, s.fee)
  }

  /** Land a block: move the money, remember the key, consume one pending reply loss. */
  function Land(s: LedgerState, from: Account, to: Account, amount: u128, key: Option<DedupKey>): LedgerState
    requires Due(s, amount) <= Funds(s.balances, from)
  {
    s.(balances := Move(s.balances, from, to, amount, Due(s, amount)),
       blockIndex := s.blockIndex + 1,
       dedup := if key.Some? then s.dedup[key.value := s.blockIndex + 1] else s.dedup,
       phantomFailures := SatSub(s.phantomFailures, 1))
  }

  function LandReply(s: LedgerState): Reply {
    if s.phantomFailures > 0 then Err(Generic(998)) else Ok(s.blockIndex + 1)
  }

  /** Why a transfer is turned away before the dedup check, if it is. */
  function TransferGate(s: LedgerState, caller: Principal): Option<LedgerError> {
    if s.failTransfers then Some(Generic(999))
    else if s.failTransfersFor == Some(caller) then Some(Generic(997))
    else if s.badFeeFailures > 0 then Some(BadFee(s.fee))
    else None
  }

  function TransferFromGate(s: LedgerState): Option<LedgerError> {
    if s.failTransferFrom then Some(Generic(999))
    else if s.badFeeFailures > 0 then Some(BadFee(s.fee))
    else None
  }

  /** An injected BadFee uses up one of the pending ones. */
  function AfterGate(s: LedgerState, e: LedgerError): LedgerState {
    if e.BadFee? then s.(badFeeFailures := SatSub(s.badFeeFailures, 1)) else s
  }

  predicate Seen(s: LedgerState, key: Option<DedupKey>) {
    key.Some? && key.value in s.dedup
  }

  function TransferStep(s: LedgerState, caller: Principal, arg: TransferArg): (LedgerState, Reply) {
    var gate := TransferGate(s, caller);
    var key := TransferKey(caller, arg);
    var from := Payer(caller, arg);
    var amount := NatToU128(arg.amount);
    if gate.Some? then (AfterGate(s, gate.value), Err(gate.value))
    else if Seen(s, key) then (s, Err(Duplicate(s.dedup[key.value])))
    else if Due(s, amount) > Funds(s.balances, from) then (s, Err(InsufficientFunds(Funds(s.balances, from))))
    else (Land(s, from, arg.to, amount, key), LandReply(s))
  }

  function TransferFromStep(s: LedgerState, caller: Principal, arg: TransferFromArg): (LedgerState, Reply) {
    var gate := TransferFromGate(s);
    var key := TransferFromKey(caller, arg);
    var pair := (arg.from, Account(caller, arg.spenderSubaccount));
    var amount := NatToU128(arg.amount);
    if gate.Some? then (AfterGate(s, gate.value), Err(gate.value))
    else if Seen(s, key) then (s, Err(Duplicate(s.dedup[key.value])))
    else if amount > Get(s.allowances, pair) then (s, Err(InsufficientAllowance(Get(s.allowances, pair))))
    else if Due(s, amount) > Funds(s.balances, arg.from) then (s, Err(InsufficientFunds(Funds(s.balances, arg.from))))
    else
      // Only an existing allowance entry is written; a missing one stands for zero.
      var spent := if pair in s.allowances then s.allowances[pair := s.allowances[pair] - amount] else s.allowances;
      (Land(s, arg.from, arg.to, amount, key).(allowances := spent), LandReply(s))
  }

  /** State after a call. */
  function Next(s: LedgerState, c: Call): LedgerState {
    match c
    case Transfer(caller, arg) => TransferStep(s, caller, arg).0
    case TransferFrom(caller, arg) => TransferFromStep(s, caller, arg).0
    case Approve(caller, sub, spender, amount) =>
      s.(allowances := s.allowances[(Account(caller, sub), spender) := NatToU128(amount)],
         blockIndex := s.blockIndex + 1)
    case Mint(to, amount) => s.(balances := s.balances[to := WrapAdd(Funds(s.balances, to), NatToU128(amount))])
    case SetFee(amount) => s.(fee := NatToU128(amount))
    case SetFailTransfers(flag) => s.(failTransfers := flag)
    case SetFailTransferFrom(flag) => s.(failTransferFrom := flag)
    case SetPhantomFailures(count) => s.(phantomFailures := count)
    case SetBadFeeFailures(count) => s.(badFeeFailures := count)
    case ResetDedup => s.(dedup := map[])
    case SetFailTransfersFor(target) => s.(failTransfersFor := target)
    case SetFakeZeroFor(target) => s.(fakeZeroFor := target)
  }

  /** Reply of a transfer call. */
  function ReplyOf(s: LedgerState, c: Call): Reply
    requires c.Transfer? || c.TransferFrom?
  {
    if c.Transfer? then TransferStep(s, c.caller, c.arg).1 else TransferFromStep(s, c.caller, c.farg).1
  }

  /** `icrc1_balance_of`, including the injected zero reading. */
  function BalanceOf(s: LedgerState, account: Account): nat {
    if s.fakeZeroFor == Some(account.owner) then 0 else Funds(s.balances, account)
  }

  /** The canister: one mutable state, edited field by field as each call proceeds. */
  class FlakyLedger {
    var balances: map<Account, u128>
    var allowances: map<(Account, Account), u128>
    var blockIndex: nat
    var fee: u128
    var failTransfers: bool
    var failTransferFrom: bool
    var phantomFailures: nat
    var badFeeFailures: nat
    var dedup: map<DedupKey, nat>
    var failTransfersFor: Option<Principal>
    var fakeZeroFor: Option<Principal>

    constructor ()
      ensures View() == EMPTY
    {
      balances, allowances, blockIndex, fee := map[], map[], 0, 0;
      failTransfers, failTransferFrom, phantomFailures, badFeeFailures := false, false, 0, 0;
      dedup, failTransfersFor, fakeZeroFor := map[], None, None;
    }

    ghost function View(): LedgerState
      reads this
    {
      LedgerState(balances, allowances, blockIndex, fee, failTransfers, failTransferFrom,
                  phantomFailures, badFeeFailures, dedup, failTransfersFor, fakeZeroFor)
    }

    method Icrc1Transfer(caller: Principal, arg: TransferArg) returns (r: Reply)
      modifies this
      ensures View() == Next(old(View()), Transfer(caller, arg))
      ensures r == ReplyOf(old(View()), Transfer(caller, arg))
    {
      if failTransfers {
        return Err(Generic(999));
      }
      if failTransfersFor == Some(caller) {
        return Err(Generic(997));
      }
      if badFeeFailures > 0 {
        badFeeFailures := badFeeFailures - 1;
        return Err(BadFee(fee));
      }
      var from := Account(caller, arg.fromSubaccount);
      var amount := NatToU128(arg.amount);
      var key := TransferKey(caller, arg);
      if key.Some? && key.value in dedup {
        return Err(Duplicate(dedup[key.value]));
      }
      var balance := Funds(balances, from);
      if WrapAdd(amount, fee) > balance {
        return Err(InsufficientFunds(balance));
      }
      r := Commit(from, arg.to, amount, key);
    }

    method Icrc2TransferFrom(caller: Principal, arg: TransferFromArg) returns (r: Reply)
      modifies this
      ensures View() == Next(old(View()), TransferFrom(caller, arg))
      ensures r == ReplyOf(old(View()), TransferFrom(caller, arg))
    {
      if failTransferFrom {
        return Err(Generic(999));
      }
      if badFeeFailures > 0 {
        badFeeFailures := badFeeFailures - 1;
        return Err(BadFee(fee));
      }
      var spender := Account(caller, arg.spenderSubaccount);
      var amount := NatToU128(arg.amount);
      var key := TransferFromKey(caller, arg);
      if key.Some? && key.value in dedup {
        return Err(Duplicate(dedup[key.value]));
      }
      var allowance := Get(allowances, (arg.from, spender));
      if amount > allowance {
        return Err(InsufficientAllowance(allowance));
      }
      var balance := Funds(balances, arg.from);
      if WrapAdd(amount, fee) > balance {
        return Err(InsufficientFunds(balance));
      }
      if (arg.from, spender) in allowances {
        allowances := allowances[(arg.from, spender) := allowances[(arg.from, spender)] - amount];
      }
      r := Commit(arg.from, arg.to, amount, key);
    }

    /** The tail both transfer methods share: debit, credit, number the block, record the key, maybe
        lose the reply. */
    method Commit(from: Account, to: Account, amount: u128, key: Option<DedupKey>) returns (r: Reply)
      requires WrapAdd(amount, fee) <= Funds(balances, from)
      modifies this`balances, this`blockIndex, this`dedup, this`phantomFailures
      ensures View() == Land(old(View()), from, to, amount, key)
      ensures r == LandReply(old(View()))
    {
      balances := balances[from := Funds(balances, from) - WrapAdd(amount, fee)];
      balances := balances[to := WrapAdd(Funds(balances, to), amount)];
      blockIndex := blockIndex + 1;
      if key.Some? {
        dedup := dedup[key.value := blockIndex];
      }
      if phantomFailures > 0 {
        phantomFailures := phantomFailures - 1;
        return Err(Generic(998));
      }
      return Ok(blockIndex);
    }

    method Icrc2Approve(caller: Principal, fromSubaccount: Option<Subaccount>, spender: Account, amount: nat)
      returns (block: nat)
      modifies this
      ensures View() == Next(old(View()), Approve(caller, fromSubaccount, spender, amount))
      ensures block == blockIndex
    {
      allowances := allowances[(Account(caller, fromSubaccount), spender) := NatToU128(amount)];
      blockIndex := blockIndex + 1;
      block := blockIndex;
    }

    method MintTo(account: Account, amount: nat)
      modifies this
      ensures View() == Next(old(View()), Mint(account, amount))
    {
      balances := balances[account := WrapAdd(Funds(balances, account), NatToU128(amount))];
    }
  }
}
