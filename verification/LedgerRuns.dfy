/** What the ledger keeps over whole call sequences: money is conserved, allowances are spent
    exactly once, and a dedup key commits at most one block. */
module LedgerRuns {
  import opened Prelude
  import opened Ledger

  /** State after a whole call sequence. */
  function Run(s: LedgerState, calls: seq<Call>): LedgerState {
    if calls == [] then s
    else Next(Run(s, calls[..|calls| - 1]), calls[|calls| - 1])
  }

  /** A transfer call that added a block, whatever it replied. */
  predicate Commits(s: LedgerState, c: Call) {
    (c.Transfer? || c.TransferFrom?) && Next(s, c).blockIndex != s.blockIndex
  }

  function PayerOf(c: Call): Account
    requires c.Transfer? || c.TransferFrom?
  {
    if c.Transfer? then Account(c.caller, c.arg.fromSubaccount) else c.farg.from
  }

  function RecipientOf(c: Call): Account
    requires c.Transfer? || c.TransferFrom?
  {
    if c.Transfer? then c.arg.to else c.farg.to
  }

  function AmountOf(c: Call): u128
    requires c.Transfer? || c.TransferFrom?
  {
    var amount := if c.Transfer? then c.arg.amount else c.farg.amount;
    if amount < 0x1_0000_0000_0000_0000_0000_0000_0000_0000 then amount else 0
  }

  function KeyOf(c: Call): Option<DedupKey> {
    match c
    case Transfer(caller, arg) => TransferKey(caller, arg)
    case TransferFrom(caller, arg) => TransferFromKey(caller, arg)
    case _ => None
  }

  /** The call gets past the injected failures. */
  predicate ReachesDedup(s: LedgerState, c: Call) {
    (c.Transfer? && TransferGate(s, c.caller).None?) || (c.TransferFrom? && TransferFromGate(s).None?)
  }

  // ---- Effect of one transfer ----

  /** A committed call lands its block; any other transfer call leaves all but the BadFee counter. */
  lemma CommitCases(s: LedgerState, c: Call)
    requires c.Transfer? || c.TransferFrom?
    ensures Commits(s, c) ==>
              && Due(s, AmountOf(c)) <= Funds(s.balances, PayerOf(c))
              && Next(s, c) == Land(s, PayerOf(c), RecipientOf(c), AmountOf(c), KeyOf(c)).(allowances := Next(s, c).allowances)
              && !Seen(s, KeyOf(c))
              && ReplyOf(s, c) == LandReply(s)
    ensures !Commits(s, c) ==> Next(s, c) == s.(badFeeFailures := Next(s, c).badFeeFailures) && ReplyOf(s, c).Err?
  {
    if c.Transfer? {
      var step := TransferStep(s, c.caller, c.arg);
    } else {
      var step := TransferFromStep(s, c.caller, c.farg);
    }
  }

  /** What a spender may still draw on an account. */
  function AllowanceOf(s: LedgerState, c: Call): nat
    requires c.TransferFrom?
  {
    Get(s.allowances, (c.farg.from, Account(c.caller, c.farg.spenderSubaccount)))
  }

  /** A call commits exactly when no failure is injected, its key is not remembered, its allowance if it
      needs one suffices, and the payer holds what the sum of amount and fee comes to. A commit takes the
      next block number and uses up one due reply loss. */
  lemma CommitsIff(s: LedgerState, c: Call)
    requires c.Transfer? || c.TransferFrom?
    ensures Commits(s, c) <==>
              && s.badFeeFailures == 0 && !Seen(s, KeyOf(c)) && WrapAdd(AmountOf(c), s.fee) <= Funds(s.balances, PayerOf(c))
              && (c.Transfer? ==> !s.failTransfers && s.failTransfersFor != Some(c.caller))
              && (c.TransferFrom? ==> !s.failTransferFrom && AmountOf(c) <= AllowanceOf(s, c))
    ensures Commits(s, c) ==> Next(s, c).blockIndex == s.blockIndex + 1
    ensures Commits(s, c) && s.phantomFailures > 0 ==> Next(s, c).phantomFailures == s.phantomFailures - 1
    ensures Commits(s, c) && s.phantomFailures == 0 ==> Next(s, c).phantomFailures == 0
  {
  }

  /** Otherwise the first check that fails is the answer, and only an injected BadFee leaves a trace. */
  lemma RefusalIsFirst(s: LedgerState, c: Call)
    requires (c.Transfer? || c.TransferFrom?) && !Commits(s, c)
    ensures var off := if c.Transfer? then s.failTransfers else s.failTransferFrom;
            var barred := c.Transfer? && s.failTransfersFor == Some(c.caller);
            var r := ReplyOf(s, c);
            && r.Err?
            && (off ==> r.error == Generic(999))
            && (!off && barred ==> r.error == Generic(997))
            && (!off && !barred && s.badFeeFailures > 0 ==> r.error == BadFee(s.fee))
            && (!off && !barred && s.badFeeFailures == 0 ==>
                  && (Seen(s, KeyOf(c)) ==> r.error == Duplicate(s.dedup[KeyOf(c).value]))
                  && (!Seen(s, KeyOf(c)) && c.TransferFrom? && AmountOf(c) > AllowanceOf(s, c) ==>
                        r.error == InsufficientAllowance(AllowanceOf(s, c)))
                  && (!Seen(s, KeyOf(c)) && (c.TransferFrom? ==> AmountOf(c) <= AllowanceOf(s, c)) ==>
                        r.error == InsufficientFunds(Funds(s.balances, PayerOf(c)))))
            && Next(s, c) == s.(badFeeFailures := if !off && !barred && s.badFeeFailures > 0 then s.badFeeFailures - 1 else s.badFeeFailures)
  {
  }

  /** Exactly what a committed block moves, that every other transfer call moves nothing, and
      that a committed block's reply is an error only when an injected reply loss was due. */
  lemma TransferMoves(s: LedgerState, c: Call, other: Account)
    requires c.Transfer? || c.TransferFrom?
    ensures !Commits(s, c) ==> Next(s, c).balances == s.balances && Next(s, c).allowances == s.allowances
    ensures Commits(s, c) ==>
              var before, after := s.balances, Next(s, c).balances;
              var from, to, due := PayerOf(c), RecipientOf(c), Due(s, AmountOf(c));
              && due <= Funds(before, from)
              && (from != to ==> Funds(after, from) == Funds(before, from) - due
                                 && Funds(after, to) == WrapAdd(Funds(before, to), AmountOf(c)))
              && (from == to ==> Funds(after, from) == WrapAdd(Funds(before, from) - due, AmountOf(c)))
              && (other != from && other != to ==> Funds(after, other) == Funds(before, other))
    ensures ReplyOf(s, c).Ok? ==> Commits(s, c) && ReplyOf(s, c).block == Next(s, c).blockIndex
    ensures Commits(s, c) ==> (ReplyOf(s, c).Err? <==> s.phantomFailures > 0)
  {
    CommitCases(s, c);
    hide Next, ReplyOf;
  }

  // ---- Conservation ----

  /** The sum of amount and fee overflows: the payer is charged 2^128 too little. */
  predicate DebitWraps(s: LedgerState, c: Call) {
    Commits(s, c) && AmountOf(c) + s.fee > U128_MAX
  }

  /** A credited or minted balance overflows: the account loses 2^128. */
  predicate CreditWraps(s: LedgerState, c: Call) {
    if c.Mint? then Funds(s.balances, c.to) + NatToU128(c.amount) > U128_MAX
    else
      && Commits(s, c)
      && var from, to := PayerOf(c), RecipientOf(c);
         Funds(s.balances, to) - (if from == to then Due(s, AmountOf(c)) else 0) + AmountOf(c) > U128_MAX
  }

  /** A call none of whose sums overflows. */
  predicate Exact(s: LedgerState, c: Call) {
    !DebitWraps(s, c) && !CreditWraps(s, c)
  }

  /** Without overflow a committed block costs the payer amount and fee and gives the recipient the
      amount; a self-transfer costs the fee. */
  lemma ExactMoves(s: LedgerState, c: Call)
    requires Commits(s, c) && Exact(s, c)
    ensures var before, after := s.balances, Next(s, c).balances;
            var from, to := PayerOf(c), RecipientOf(c);
            && (from != to ==> Funds(after, from) == Funds(before, from) - AmountOf(c) - s.fee
                               && Funds(after, to) == Funds(before, to) + AmountOf(c))
            && (from == to ==> Funds(after, from) == Funds(before, from) - s.fee)
  {
    TransferMoves(s, c, PayerOf(c));
    hide Next, Commits;
  }

  lemma SetTotal(balances: map<Account, u128>, account: Account, value: u128)
    ensures Total(balances[account := value]) == Total(balances) - Funds(balances, account) + value
  {
    TotalUpdate(balances, account, value);
  }

  lemma MoveTotal(balances: map<Account, u128>, from: Account, to: Account, amount: u128, fee: u128)
    requires WrapAdd(amount, fee) <= Funds(balances, from)
    ensures var due := WrapAdd(amount, fee);
            Total(Move(balances, from, to, amount, due)) + fee
            + (if Funds(balances, to) - (if from == to then due else 0) + amount > U128_MAX then U128_SPAN else 0)
            == Total(balances) + (if amount + fee > U128_MAX then U128_SPAN else 0)
  {
    var due := WrapAdd(amount, fee);
    var debited := balances[from := Funds(balances, from) - due];
    SetTotal(balances, from, Funds(balances, from) - due);
    SetTotal(debited, to, WrapAdd(Funds(debited, to), amount));
  }

  /** Fees burned along the run: at each committed transfer, the fee then in force. */
  function Burned(s: LedgerState, calls: seq<Call>): nat {
    if calls == [] then 0
    else
      var pre := Run(s, calls[..|calls| - 1]);
      Burned(s, calls[..|calls| - 1]) + if Commits(pre, calls[|calls| - 1]) then pre.fee else 0
  }

  function Minted(calls: seq<Call>): nat {
    if calls == [] then 0
    else
      var c := calls[|calls| - 1];
      Minted(calls[..|calls| - 1]) + if c.Mint? then NatToU128(c.amount) else 0
  }

  /** How often the run created, or destroyed, 2^128 out of, or into, nothing. */
  function Created(s: LedgerState, calls: seq<Call>): nat {
    if calls == [] then 0
    else
      var init := calls[..|calls| - 1];
      Created(s, init) + if DebitWraps(Run(s, init), calls[|calls| - 1]) then 1 else 0
  }

  function Destroyed(s: LedgerState, calls: seq<Call>): nat {
    if calls == [] then 0
    else
      var init := calls[..|calls| - 1];
      Destroyed(s, init) + if CreditWraps(Run(s, init), calls[|calls| - 1]) then 1 else 0
  }

  lemma StepConserves(s: LedgerState, c: Call)
    ensures Total(Next(s, c).balances) + (if Commits(s, c) then s.fee else 0) + (if CreditWraps(s, c) then U128_SPAN else 0)
         == Total(s.balances) + (if c.Mint? then NatToU128(c.amount) else 0) + (if DebitWraps(s, c) then U128_SPAN else 0)
  {
    if c.Mint? {
      SetTotal(s.balances, c.to, WrapAdd(Funds(s.balances, c.to), NatToU128(c.amount)));
    } else if c.Transfer? || c.TransferFrom? {
      CommitCases(s, c);
      if Commits(s, c) {
        MoveTotal(s.balances, PayerOf(c), RecipientOf(c), AmountOf(c), s.fee);
      }
      hide Next, Commits, Move;
    }
  }

  /** On every run, with every overflow accounted for: balances and burned fees against what was there
      and what was minted. So money is conserved exactly when as many sums overflowed on the paying side
      as on the receiving side. */
  lemma {:induction false} Conservation(s: LedgerState, calls: seq<Call>)
    ensures Total(Run(s, calls).balances) + Burned(s, calls) + U128_SPAN * Destroyed(s, calls)
         == Total(s.balances) + Minted(calls) + U128_SPAN * Created(s, calls)
    ensures Total(Run(s, calls).balances) + Burned(s, calls) == Total(s.balances) + Minted(calls)
       <==> Created(s, calls) == Destroyed(s, calls)
  {
    if calls != [] {
      Conservation(s, calls[..|calls| - 1]);
      StepConserves(Run(s, calls[..|calls| - 1]), calls[|calls| - 1]);
      hide Next, Commits, DebitWraps, CreditWraps;
    }
  }

  /** No committed transfer of the run asks for more than 2^128 - 1 with its fee. */
  ghost predicate AmountsFit(s: LedgerState, calls: seq<Call>) {
    forall i :: 0 <= i < |calls| ==> !DebitWraps(Run(s, calls[..i]), calls[i])
  }

  /** A condition on the run's inputs under which nothing overflows: the whole supply fits 128 bits and
      so does each transfer with its fee. Money is then conserved. */
  lemma {:induction false} ConservedInRange(s: LedgerState, calls: seq<Call>)
    requires AmountsFit(s, calls) && Total(s.balances) + Minted(calls) <= U128_MAX
    ensures Created(s, calls) == 0 && Destroyed(s, calls) == 0
    ensures Total(Run(s, calls).balances) + Burned(s, calls) == Total(s.balances) + Minted(calls)
  {
    if calls != [] {
      var n := |calls| - 1;
      var init := calls[..n];
      forall i | 0 <= i < |init| ensures !DebitWraps(Run(s, init[..i]), init[i]) {
        assert init[..i] == calls[..i];
      }
      ConservedInRange(s, init);
      assert !DebitWraps(Run(s, calls[..n]), calls[n]);
      SupplyBoundsCredit(Run(s, init), calls[n]);
    }
    Conservation(s, calls);
  }

  lemma SupplyBoundsCredit(s: LedgerState, c: Call)
    requires !DebitWraps(s, c)
    requires Total(s.balances) + (if c.Mint? then NatToU128(c.amount) else 0) <= U128_MAX
    ensures !CreditWraps(s, c)
  {
    if c.Mint? {
      TotalBounds(s.balances, c.to);
    } else if Commits(s, c) {
      CommitCases(s, c);
      var from, to := PayerOf(c), RecipientOf(c);
      TotalBounds(s.balances, from);
      if from != to && from in s.balances {
        TotalRemove(s.balances, from);
        TotalBounds(s.balances - {from}, to);
      }
    }
  }

  /** Money out of nothing: with any positive fee, a transfer of 2^128 less that fee from an account
      that holds nothing goes through, and the recipient has it all. */
  lemma OverflowMints(s: LedgerState, caller: Principal, to: Account)
    requires TransferGate(s, caller).None? && s.fee > 0
    requires Funds(s.balances, to) < s.fee && to != Account(caller, None)
    ensures var c := Transfer(caller, TransferArg(None, to, U128_SPAN - s.fee, None, None, None));
            && ReplyOf(s, c) == LandReply(s) && DebitWraps(s, c)
            && Funds(Next(s, c).balances, Account(caller, None)) == Funds(s.balances, Account(caller, None))
            && Funds(Next(s, c).balances, to) == Funds(s.balances, to) + U128_SPAN - s.fee
  {
  }

  // ---- Allowances ----

  predicate Approves(c: Call, pair: (Account, Account)) {
    c.Approve? && (Account(c.caller, c.fromSubaccount), c.spender) == pair
  }

  predicate Spends(s: LedgerState, c: Call, pair: (Account, Account)) {
    c.TransferFrom? && Commits(s, c) && (c.farg.from, Account(c.caller, c.farg.spenderSubaccount)) == pair
  }

  /** What the pair was last approved for (or started with). */
  function Granted(s: LedgerState, calls: seq<Call>, pair: (Account, Account)): nat {
    if calls == [] then Get(s.allowances, pair)
    else
      var c := calls[|calls| - 1];
      if Approves(c, pair) then NatToU128(c.amount) else Granted(s, calls[..|calls| - 1], pair)
  }

  /** What the spender has moved since the last approve. */
  function SpentSince(s: LedgerState, calls: seq<Call>, pair: (Account, Account)): nat {
    if calls == [] then 0
    else
      var c, init := calls[|calls| - 1], calls[..|calls| - 1];
      if Approves(c, pair) then 0
      else SpentSince(s, init, pair) + if Spends(Run(s, init), c, pair) then AmountOf(c) else 0
  }

  lemma StepSpends(s: LedgerState, c: Call, pair: (Account, Account))
    requires !Approves(c, pair)
    ensures Get(Next(s, c).allowances, pair) + (if Spends(s, c, pair) then AmountOf(c) else 0) == Get(s.allowances, pair)
  {
  }

  /** Moved since the last approve plus what is left is what was approved. */
  lemma {:induction false} AllowanceConservation(s: LedgerState, calls: seq<Call>, pair: (Account, Account))
    ensures SpentSince(s, calls, pair) + Get(Run(s, calls).allowances, pair) == Granted(s, calls, pair)
  {
    if calls != [] {
      var c, init := calls[|calls| - 1], calls[..|calls| - 1];
      if !Approves(c, pair) {
        AllowanceConservation(s, init, pair);
        StepSpends(Run(s, init), c, pair);
      }
    }
  }

  // ---- At most once ----

  /** Remembered blocks are real and no two keys share one. */
  ghost predicate DedupSound(s: LedgerState) {
    && (forall k :: k in s.dedup ==> 1 <= s.dedup[k] <= s.blockIndex)
    && (forall k, k' :: k in s.dedup && k' in s.dedup && s.dedup[k] == s.dedup[k'] ==> k == k')
  }

  lemma StepKeepsDedupSound(s: LedgerState, c: Call)
    requires DedupSound(s)
    ensures DedupSound(Next(s, c))
  {
    if c.Transfer? || c.TransferFrom? {
      CommitCases(s, c);
    }
  }

  lemma StepKeepsKey(s: LedgerState, c: Call, key: DedupKey)
    requires key in s.dedup && !c.ResetDedup?
    ensures key in Next(s, c).dedup && Next(s, c).dedup[key] == s.dedup[key]
  {
    if c.Transfer? || c.TransferFrom? {
      CommitCases(s, c);
    }
  }

  /** A remembered key blocks the call. */
  lemma SeenBlocks(s: LedgerState, c: Call)
    requires c.Transfer? || c.TransferFrom?
    requires Seen(s, KeyOf(c))
    ensures !Commits(s, c)
    ensures ReachesDedup(s, c) ==> ReplyOf(s, c) == Err(Duplicate(s.dedup[KeyOf(c).value])) && Next(s, c) == s
  {
    CommitCases(s, c);
  }

  /** A sound dedup map stays sound on every run, resets included. */
  lemma {:induction false} DedupSoundOnRuns(s: LedgerState, calls: seq<Call>)
    requires DedupSound(s)
    ensures DedupSound(Run(s, calls))
  {
    if calls != [] {
      DedupSoundOnRuns(s, calls[..|calls| - 1]);
      StepKeepsDedupSound(Run(s, calls[..|calls| - 1]), calls[|calls| - 1]);
    }
  }

  /** Every ledger that began empty has a sound dedup map. */
  lemma DedupAlwaysSound(calls: seq<Call>)
    ensures DedupSound(Run(EMPTY, calls))
  {
    DedupSoundOnRuns(EMPTY, calls);
  }

  // ---- When two calls are one ----

  /** Amounts that the ledger reads as the same number: what does not fit 128 bits is read as zero. */
  predicate ReadSame(m: nat, n: nat) {
    m == n || ((m == 0 || m > U128_MAX) && (n == 0 || n > U128_MAX))
  }

  predicate FeesReadSame(m: Option<nat>, n: Option<nat>) {
    (m.None? && n.None?) || (m.Some? && n.Some? && ReadSame(m.value, n.value))
  }

  /** The subaccount a call draws on; of the payer, nothing else takes part. */
  function SubaccountOf(c: Call): Option<Subaccount>
    requires c.Transfer? || c.TransferFrom?
  {
    if c.Transfer? then c.arg.fromSubaccount else c.farg.from.subaccount
  }

  /** Two calls, through either method, that the ledger takes for one: same caller, same subaccount drawn
      on, same recipient, same amount and fee as read, same memo, and the same creation time, given. */
  predicate SameRequest(c: Call, d: Call)
    requires (c.Transfer? || c.TransferFrom?) && (d.Transfer? || d.TransferFrom?)
  {
    var (amountC, feeC, memoC, madeC) :=
      if c.Transfer? then (c.arg.amount, c.arg.fee, c.arg.memo, c.arg.createdAt)
      else (c.farg.amount, c.farg.fee, c.farg.memo, c.farg.createdAt);
    var (amountD, feeD, memoD, madeD) :=
      if d.Transfer? then (d.arg.amount, d.arg.fee, d.arg.memo, d.arg.createdAt)
      else (d.farg.amount, d.farg.fee, d.farg.memo, d.farg.createdAt);
    && c.caller == d.caller && SubaccountOf(c) == SubaccountOf(d) && RecipientOf(c) == RecipientOf(d)
    && ReadSame(amountC, amountD) && FeesReadSame(feeC, feeD) && memoC == memoD
    && madeC.Some? && madeC == madeD
  }

  lemma KeysAgreeIff(c: Call, d: Call)
    requires (c.Transfer? || c.TransferFrom?) && (d.Transfer? || d.TransferFrom?)
    ensures KeyOf(c).Some? && KeyOf(c) == KeyOf(d) <==> SameRequest(c, d)
  {
  }

  predicate NoReset(calls: seq<Call>) {
    forall i :: 0 <= i < |calls| ==> !calls[i].ResetDedup?
  }

  /** Once remembered, a key keeps its block for as long as nothing resets the map. */
  lemma {:induction false} KeyIsKept(s: LedgerState, calls: seq<Call>, key: DedupKey)
    requires key in s.dedup && NoReset(calls)
    ensures key in Run(s, calls).dedup && Run(s, calls).dedup[key] == s.dedup[key]
  {
    if calls != [] {
      KeyIsKept(s, calls[..|calls| - 1], key);
      StepKeepsKey(Run(s, calls[..|calls| - 1]), calls[|calls| - 1], key);
    }
  }

  lemma {:induction false} RunSplit(s: LedgerState, a: seq<Call>, b: seq<Call>)
    ensures Run(s, a + b) == Run(Run(s, a), b)
  {
    if b == [] {
      assert a + b == a;
    } else {
      RunSplit(s, a, b[..|b| - 1]);
      assert (a + b)[..|a + b| - 1] == a + b[..|b| - 1];
    }
  }

  lemma RunStep(s: LedgerState, calls: seq<Call>, k: nat)
    requires k < |calls|
    ensures Run(s, calls[..k + 1]) == Next(Run(s, calls[..k]), calls[k])
  {
    assert calls[..k + 1][..k] == calls[..k];
  }

  lemma CommitRemembers(s: LedgerState, c: Call)
    requires Commits(s, c) && KeyOf(c).Some?
    ensures KeyOf(c).value in Next(s, c).dedup && Next(s, c).dedup[KeyOf(c).value] == Next(s, c).blockIndex
  {
    CommitCases(s, c);
  }

  /** After call `i` commits, a later call `j` for the same request never commits; if it gets past the
      injected failures it is told the block of call `i`, and changes nothing. This covers lost replies:
      the reply of call `i` plays no part. */
  lemma AtMostOnce(s: LedgerState, calls: seq<Call>, i: nat, j: nat)
    requires i < j < |calls| && NoReset(calls)
    requires Commits(Run(s, calls[..i]), calls[i]) && (calls[j].Transfer? || calls[j].TransferFrom?)
    requires SameRequest(calls[i], calls[j])
    ensures !Commits(Run(s, calls[..j]), calls[j])
    ensures ReachesDedup(Run(s, calls[..j]), calls[j]) ==>
              && ReplyOf(Run(s, calls[..j]), calls[j]) == Err(Duplicate(Run(s, calls[..i + 1]).blockIndex))
              && Run(s, calls[..j + 1]) == Run(s, calls[..j])
  {
    KeysAgreeIff(calls[i], calls[j]);
    hide SameRequest;
    var landed := Run(s, calls[..i + 1]);
    RunStep(s, calls, i);
    CommitRemembers(Run(s, calls[..i]), calls[i]);
    assert calls[..j] == calls[..i + 1] + calls[i + 1..j];
    RunSplit(s, calls[..i + 1], calls[i + 1..j]);
    KeyIsKept(landed, calls[i + 1..j], KeyOf(calls[i]).value);
    SeenBlocks(Run(s, calls[..j]), calls[j]);
    RunStep(s, calls, j);
  }

  /** Call `i` of a run from the empty ledger committed, and made the same request. */
  predicate CommittedSame(calls: seq<Call>, i: nat, c: Call)
    requires i < |calls| && (c.Transfer? || c.TransferFrom?)
  {
    Commits(Run(EMPTY, calls[..i]), calls[i]) && SameRequest(calls[i], c)
  }

  /** A call that reaches the check is called a duplicate exactly when some earlier call of a run from the
      empty ledger committed for the same request: same caller, subaccount, recipient, amount, fee, memo
      and creation time. */
  lemma DuplicateIffCommitted(calls: seq<Call>, c: Call)
    requires NoReset(calls) && ReachesDedup(Run(EMPTY, calls), c)
    ensures (ReplyOf(Run(EMPTY, calls), c).Err? && ReplyOf(Run(EMPTY, calls), c).error.Duplicate?)
       <==> (exists i :: 0 <= i < |calls| && CommittedSame(calls, i, c))
  {
    if KeyOf(c).Some? {
      RememberedIffCommitted(calls, KeyOf(c).value);
    }
    forall i | 0 <= i < |calls| ensures CommittedSame(calls, i, c) <==> KeyOf(c).Some? && CommittedUnder(calls, i, KeyOf(c)) {
      if calls[i].Transfer? || calls[i].TransferFrom? {
        KeysAgreeIff(calls[i], c);
      }
    }
    hide CommittedSame, CommittedUnder;
    if i :| 0 <= i < |calls| && KeyOf(c).Some? && CommittedUnder(calls, i, KeyOf(c)) {
      assert CommittedSame(calls, i, c);
    }
    if i :| 0 <= i < |calls| && CommittedSame(calls, i, c) {
      assert CommittedUnder(calls, i, KeyOf(c));
    }
  }

  predicate CommittedUnder(calls: seq<Call>, i: nat, key: Option<DedupKey>)
    requires i < |calls|
  {
    KeyOf(calls[i]) == key && Commits(Run(EMPTY, calls[..i]), calls[i])
  }

  lemma StepRemembers(s: LedgerState, c: Call, key: DedupKey)
    requires !c.ResetDedup?
    ensures key in Next(s, c).dedup <==> key in s.dedup || (KeyOf(c) == Some(key) && Commits(s, c))
  {
    if c.Transfer? || c.TransferFrom? {
      CommitCases(s, c);
    }
  }

  lemma CommittedEarlierOrNow(calls: seq<Call>, key: Option<DedupKey>)
    requires calls != []
    ensures var n := |calls| - 1;
            (exists i :: 0 <= i < |calls| && CommittedUnder(calls, i, key)) <==>
            (exists i :: 0 <= i < n && CommittedUnder(calls[..n], i, key))
            || (KeyOf(calls[n]) == key && Commits(Run(EMPTY, calls[..n]), calls[n]))
  {
    var n := |calls| - 1;
    var init := calls[..n];
    forall i | 0 <= i < n ensures CommittedUnder(init, i, key) == CommittedUnder(calls, i, key) {
      assert init[..i] == calls[..i];
    }
    assert CommittedUnder(calls, n, key) == (KeyOf(calls[n]) == key && Commits(Run(EMPTY, init), calls[n]));
    hide CommittedUnder;
    if i :| 0 <= i < n && CommittedUnder(init, i, key) {
      assert CommittedUnder(calls, i, key);
    }
    if i :| 0 <= i < n && CommittedUnder(calls, i, key) {
      assert CommittedUnder(init, i, key);
    }
  }

  lemma {:induction false} RememberedIffCommitted(calls: seq<Call>, key: DedupKey)
    requires NoReset(calls)
    ensures key in Run(EMPTY, calls).dedup
       <==> (exists i :: 0 <= i < |calls| && CommittedUnder(calls, i, Some(key)))
  {
    if calls != [] {
      var init := calls[..|calls| - 1];
      RememberedIffCommitted(init, key);
      StepRemembers(Run(EMPTY, init), calls[|calls| - 1], key);
      CommittedEarlierOrNow(calls, Some(key));
      hide CommittedUnder, Commits, KeyOf;
    }
  }

  /** A shop is paid by two customers who have both approved the same spender. */
  const TWO_PAYERS: seq<Call> :=
    [Mint(Account(1, None), 10), Mint(Account(2, None), 10),
     Approve(1, None, Account(3, None), 10), Approve(2, None, Account(3, None), 10)]

  /** The key leaves out who pays. After a run from the empty ledger, two `transfer_from` calls of one
      spender that differ only in the owner they draw on would each be accepted, but the second is
      called a duplicate of the first although it never landed. */
  lemma DistinctPayersCollapse()
    ensures var s := Run(EMPTY, TWO_PAYERS);
            var c := TransferFrom(3, TransferFromArg(None, Account(1, None), Account(4, None), 5, None, None, Some(7)));
            var d := TransferFrom(3, TransferFromArg(None, Account(2, None), Account(4, None), 5, None, None, Some(7)));
            && ReplyOf(s, c).Ok? && ReplyOf(s, d).Ok?
            && ReplyOf(Next(s, c), d) == Err(Duplicate(Next(s, c).blockIndex))
  {
    assert TWO_PAYERS[..0] == [];
    RunStep(EMPTY, TWO_PAYERS, 0);
    RunStep(EMPTY, TWO_PAYERS, 1);
    RunStep(EMPTY, TWO_PAYERS, 2);
    RunStep(EMPTY, TWO_PAYERS, 3);
    assert TWO_PAYERS[..4] == TWO_PAYERS;
    var s := Run(EMPTY, TWO_PAYERS);
    assert s == EMPTY.(balances := map[Account(1, None) := 10, Account(2, None) := 10], blockIndex := 2,
                       allowances := map[(Account(1, None), Account(3, None)) := 10, (Account(2, None), Account(3, None)) := 10]);
  }

  /** The fee is not taken from the allowance, and nothing need be approved to move nothing: anyone
      who is let through can make an account that can pay it lose a fee. */
  lemma ZeroTransferFromBurnsFee(s: LedgerState, caller: Principal, owner: Account, to: Account)
    requires TransferFromGate(s).None? && s.fee <= Funds(s.balances, owner) && owner != to
    ensures var c := TransferFrom(caller, TransferFromArg(None, owner, to, 0, None, None, None));
            Commits(s, c) && Funds(Next(s, c).balances, owner) == Funds(s.balances, owner) - s.fee
  {
    var c := TransferFrom(caller, TransferFromArg(None, owner, to, 0, None, None, None));
    TransferMoves(s, c, owner);
  }

  // ---- Everything else ----

  /** Minting credits one account with the amount as read. No other call that is not a transfer moves
      money, none but an approval sets an allowance, and neither touches what is remembered unless it is
      the reset. */
  lemma OnlyMintCredits(s: LedgerState, c: Call, account: Account)
    requires !c.Transfer? && !c.TransferFrom?
    ensures Funds(Next(s, c).balances, account)
         == if c.Mint? && c.to == account then WrapAdd(Funds(s.balances, account), NatToU128(c.amount)) else Funds(s.balances, account)
    ensures !c.Approve? ==> Next(s, c).allowances == s.allowances
    ensures Next(s, c).dedup == if c.ResetDedup? then map[] else s.dedup
    ensures Next(s, c).blockIndex == s.blockIndex + if c.Approve? then 1 else 0
  {
  }

  /** Each switch sets what it names and keeps the others. */
  lemma SwitchesSet(s: LedgerState, c: Call)
    requires !c.Transfer? && !c.TransferFrom?
    ensures Next(s, c).failTransfers == if c.SetFailTransfers? then c.flag else s.failTransfers
    ensures Next(s, c).failTransferFrom == if c.SetFailTransferFrom? then c.flag else s.failTransferFrom
    ensures Next(s, c).phantomFailures == if c.SetPhantomFailures? then c.count else s.phantomFailures
    ensures Next(s, c).badFeeFailures == if c.SetBadFeeFailures? then c.count else s.badFeeFailures
    ensures Next(s, c).failTransfersFor == if c.SetFailTransfersFor? then c.target else s.failTransfersFor
    ensures Next(s, c).fakeZeroFor == if c.SetFakeZeroFor? then c.target else s.fakeZeroFor
    ensures Next(s, c).fee == if c.SetFee? then (if c.amount <= U128_MAX then c.amount else 0) else s.fee
  {
  }

  /** A balance query tells the truth unless it was told to lie, and then it says zero. */
  lemma BalanceTellsTruth(s: LedgerState, account: Account)
    ensures s.fakeZeroFor != Some(account.owner) ==> BalanceOf(s, account) == Funds(s.balances, account)
    ensures s.fakeZeroFor == Some(account.owner) ==> BalanceOf(s, account) == 0
  {
  }
}
