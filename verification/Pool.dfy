/** The 3pool's money paths as interleaved steps against three live ledgers: fee withdrawal, swaps,
    deposits, payouts, refunds and recovery of failed ones, under a canister-wide lock, with
    fee-inclusive sends. The pool's price mathematics only supplies figures. */
module Pool {
  import opened Prelude
  import L = Ledger

  type Principal = L.Principal

  const DEFAULT_LEDGER_FEE: nat := 10_000
  const MAX_PENDING_CLAIMS: nat := 10_000

  type Token = t: nat | t < 3
  type Triple = s: seq<nat> | |s| == 3 witness [0, 0, 0]
  type Amounts = s: seq<u128> | |s| == 3 witness [0, 0, 0]
  type Ledgers = s: seq<L.LedgerState> | |s| == 3 witness [L.EMPTY, L.EMPTY, L.EMPTY]

  const ZEROS: Triple := [0, 0, 0]

  /** What the pool owes someone after a failed payout or refund. */
  datatype Claim = Claim(claimant: Principal, token: Token, amount: nat)

  /** Where an operation stands in its sequence of transfers. */
  datatype Job =
    | Withdraw(taken: Triple, paid: Triple, k: nat)       // fee withdrawal, about to send token k
    | Payout(to: Principal, amounts: Triple, k: nat)      // payouts or refunds; a failed one becomes a claim
    | SwapIn(user: Principal, i: Token, j: Token, dx: u128, output: nat, share: nat)
    | SwapOut(user: Principal, i: Token, j: Token, dx: u128, output: nat, share: nat)
    | AddIn(user: Principal, inputs: Amounts, k: nat)      // deposits, about to pull token k
    | Collect(cid: nat, claim: Claim)                     // recovery of a claim; takes no lock
    | Ended(guarded: bool)

  /** Where the current transfer stands. A send remembers the fee it was priced with; a pull has none. */
  datatype Stage = AskFee | Sent(call: L.Call, fee: nat) | Answered(ok: bool)

  /** A call in flight. */
  datatype Task =
    | Busy(job: Job, stage: Stage)
    | Receiving(token: Token, amount: nat, seen: Option<nat>)
    | Other

  datatype State = State(
    self: Principal, admin: Principal,
    lock: bool, balances: Triple, adminFees: Triple, feeCache: map<nat, nat>,
    claims: map<nat, Claim>, nextClaim: nat,
    calls: map<nat, Task>, ledgers: Ledgers,
    accrued: Triple, withdrawn: Triple)

  datatype Event =
    | StartWithdraw(id: nat, caller: Principal, now: nat)
    | StartSwap(id: nat, user: Principal, i: Token, j: Token, dx: u128, output: nat, share: nat, now: nat)
    | StartAdd(id: nat, user: Principal, inputs: Amounts, now: nat)
    | StartRemove(id: nat, user: Principal, amounts: Triple, shares: Triple, now: nat)
    | StartReceive(id: nat, token: Token, amount: nat)
    | StartClaim(id: nat, caller: Principal, cid: nat, now: nat)
    | StartOther(id: nat)
    | EndOther(id: nat)
    | FeeReply(id: nat, fee: Option<nat>, now: nat)
    | Execute(id: nat)
    | Reject(id: nat)
    | Deliver(id: nat, now: nat)
    | CacheFee(token: Token, fee: Option<nat>)
    | Accrue(token: Token, amount: nat)
    | LedgerCall(token: Token, call: L.Call)

  function Account(s: State): L.Account {
    L.Account(s.self, None)
  }

  function Plus(a: Triple, b: Triple): Triple {
    [a[0] + b[0], a[1] + b[1], a[2] + b[2]]
  }

  // ---- The transfers of a job ----

  datatype Leg =
    | Pay(token: Token, to: Principal, amount: nat)
    | Take(token: Token, from: Principal, amount: nat)

  predicate Over(job: Job) {
    match job
    case Withdraw(_, _, k) => k >= 3
    case Payout(_, _, k) => k >= 3
    case AddIn(_, _, k) => k >= 3
    case Ended(_) => true
    case _ => false
  }

  /** Everything but the recovery of a claim runs under the lock. */
  predicate Guarded(job: Job) {
    !job.Collect? && job != Ended(false)
  }

  function LegOf(s: State, job: Job): Leg
    requires !Over(job)
  {
    match job
    case Withdraw(taken, _, k) => Pay(k, s.admin, taken[k])
    case Payout(to, amounts, k) => Pay(k, to, amounts[k])
    case SwapIn(user, i, _, dx, _, _) => Take(i, user, dx)
    case SwapOut(user, _, j, _, output, _) => Pay(j, user, output)
    case AddIn(user, amounts, k) => Take(k, user, amounts[k])
    case Collect(_, claim) => Pay(claim.token, claim.claimant, claim.amount)
  }

  /** Decreases from one transfer of an operation to the next. */
  function Rank(job: Job): nat {
    match job
    case Ended(_) => 0
    case Collect(_, _) => 1
    case Withdraw(_, _, k) => 1 + SatSub(3, k)
    case Payout(_, _, k) => 1 + SatSub(3, k)
    case AddIn(_, _, k) => 5 + SatSub(3, k)
    case SwapOut(_, _, _, _, _, _) => 9
    case SwapIn(_, _, _, _, _, _) => 10
  }

  function Only(token: Token, amount: nat): Triple {
    ZEROS[token := amount]
  }

  /** What was pulled before token k. */
  function Below(amounts: Amounts, k: nat): Triple {
    [if k > 0 then amounts[0] else 0, if k > 1 then amounts[1] else 0, if k > 2 then amounts[2] else 0]
  }

  /** What comes after a transfer: a failed swap payout refunds the input, a failed pull refunds what
      was pulled before it. */
  function Then(job: Job, ok: bool): (next: Job)
    requires !Over(job)
    ensures Rank(next) < Rank(job) && (Guarded(next) <==> Guarded(job))
  {
    match job
    case Withdraw(taken, paid, k) => Withdraw(taken, if ok then paid[k := taken[k]] else paid, k + 1)
    case Payout(to, amounts, k) => Payout(to, amounts, k + 1)
    case SwapIn(user, i, j, dx, output, share) => if ok then SwapOut(user, i, j, dx, output, share) else Ended(true)
    case SwapOut(user, i, _, dx, _, _) => if ok then Ended(true) else Payout(user, Only(i, dx), 0)
    case AddIn(user, amounts, k) => if ok then AddIn(user, amounts, k + 1) else Payout(user, Below(amounts, k), 0)
    case Collect(_, _) => Ended(false)
  }

  // ---- Books ----

  /** The smallest id in use from `from` on. */
  function Oldest(claims: map<nat, Claim>, from: nat, end: nat): nat
    decreases SatSub(end, from)
  {
    if from >= end || from in claims then from else Oldest(claims, from + 1, end)
  }

  /** A full list of claims loses its oldest. */
  function RecordClaim(s: State, claim: Claim): State {
    var kept := if |s.claims| >= MAX_PENDING_CLAIMS then s.claims - {Oldest(s.claims, 0, s.nextClaim)} else s.claims;
    s.(claims := kept[s.nextClaim := claim], nextClaim := s.nextClaim + 1)
  }

  /** A swap is booked only after both of its transfers. */
  function BookSwap(s: State, i: Token, j: Token, dx: nat, output: nat, share: nat): State {
    var credited := s.balances[i := s.balances[i] + dx];
    s.(balances := credited[j := SatSub(credited[j], output + share)],
       adminFees := s.adminFees[j := s.adminFees[j] + share],
       accrued := s.accrued[j := s.accrued[j] + share])
  }

  /** What a transfer's outcome changes in the books. */
  function Book(s: State, job: Job, ok: bool): State
    requires !Over(job)
  {
    match job
    case Withdraw(taken, _, k) =>
      if ok then s else s.(adminFees := s.adminFees[k := SatAdd(s.adminFees[k], taken[k], U128_MAX)])
    case Payout(to, amounts, k) => if ok then s else RecordClaim(s, Claim(to, k, amounts[k]))
    case SwapOut(_, i, j, dx, output, share) => if ok then BookSwap(s, i, j, dx, output, share) else s
    case Collect(cid, claim) => if ok then s else s.(claims := s.claims[cid := claim])
    case _ => s
  }

  /** The call returns: its last bookkeeping, and the lock. */
  function Close(s: State, id: nat, job: Job): State
    requires Over(job)
  {
    var left := s.(calls := s.calls - {id}, lock := s.lock && !Guarded(job));
    match job
    case Withdraw(_, paid, _) => left.(withdrawn := Plus(s.withdrawn, paid))
    case AddIn(_, amounts, _) => left.(balances := Plus(s.balances, amounts))
    case _ => left
  }

  // ---- Carrying on ----

  function PushCall(s: State, leg: Leg, fee: nat, now: nat): L.Call
    requires leg.Pay? && fee <= leg.amount
  {
    L.Transfer(s.self, L.TransferArg(None, L.Account(leg.to, None), leg.amount - fee, None, None, Some(now)))
  }

  function PullCall(s: State, leg: Leg, now: nat): L.Call
    requires leg.Take?
  {
    L.TransferFrom(s.self, L.TransferFromArg(None, L.Account(leg.from, None), Account(s), leg.amount, None, None, Some(now)))
  }

  function Wait(s: State, id: nat, job: Job, stage: Stage): State {
    s.(calls := s.calls[id := Busy(job, stage)])
  }

  /** How a job goes on from here without a reply. */
  datatype Turn = Closes | Waits(stage: Stage) | Passes(ok: bool)

  /** Zero amounts are passed over. Dust, which the fee would eat, is not sent and counts as sent; a
      claim on dust goes back on the list. */
  function TurnOf(s: State, job: Job, now: nat): (turn: Turn)
    ensures turn.Closes? <==> Over(job)
    ensures turn.Passes? ==> (turn.ok <==> !job.Collect?)
    ensures turn == Passes(true) ==> LegOf(s, job).Pay? || LegOf(s, job).amount == 0
  {
    if Over(job) then Closes
    else
      var leg := LegOf(s, job);
      if leg.amount == 0 && !job.Collect? then Passes(true)
      else if leg.Take? then Waits(Sent(PullCall(s, leg, now), 0))
      else if leg.token !in s.feeCache then Waits(AskFee)
      else if leg.amount <= s.feeCache[leg.token] then Passes(!job.Collect?)
      else Waits(Sent(PushCall(s, leg, s.feeCache[leg.token], now), s.feeCache[leg.token]))
  }

  /** Carry on with a job up to its next await or its end. */
  function Work(s: State, id: nat, job: Job, now: nat): State
    decreases Rank(job)
  {
    match TurnOf(s, job, now)
    case Closes => Close(s, id, job)
    case Waits(stage) => Wait(s, id, job, stage)
    case Passes(ok) => Work(Book(s, job, ok), id, Then(job, ok), now)
  }

  /** An unreachable or oversized fee is replaced by the standard one. */
  function CachedFee(fee: Option<nat>): nat {
    if fee.Some? && fee.value <= U128_MAX then fee.value else DEFAULT_LEDGER_FEE
  }

  /** A ledger's Duplicate counts as success. */
  function Replied(r: L.Reply): bool {
    r.Ok? || r.error.Duplicate?
  }

  // ---- Starting ----

  predicate Free(s: State, id: nat) {
    !s.lock && id !in s.calls
  }

  function BeginWithdraw(s: State, id: nat, caller: Principal, now: nat): State {
    if !Free(s, id) || caller != s.admin then s
    else Work(s.(lock := true, adminFees := ZEROS), id, Withdraw(s.adminFees, ZEROS, 0), now)
  }

  /** The ledger's fee is known and leaves something of the amount. */
  predicate NetsSomething(s: State, token: Token, amount: nat) {
    token in s.feeCache && s.feeCache[token] < amount
  }

  /** The pool's mathematics has fixed output and fee share within the balance, and the lookup of the
      ledger's fee has shown that the output is worth sending. */
  predicate SwapAllowed(s: State, id: nat, i: Token, j: Token, dx: nat, output: nat, share: nat) {
    Free(s, id) && i != j && dx > 0 && output + share <= s.balances[j] && NetsSomething(s, j, output)
  }

  predicate Withdrawable(s: State, amounts: Triple, shares: Triple) {
    forall k: Token :: amounts[k] + shares[k] <= s.balances[k] && (amounts[k] > 0 ==> NetsSomething(s, k, amounts[k]))
  }

  /** Removal of liquidity: balances are debited, fee shares set aside, before anything is sent. */
  function Debited(s: State, amounts: Triple, shares: Triple): State
    requires Withdrawable(s, amounts, shares)
  {
    s.(balances := [s.balances[0] - (amounts[0] + shares[0]), s.balances[1] - (amounts[1] + shares[1]),
                    s.balances[2] - (amounts[2] + shares[2])],
       adminFees := Plus(s.adminFees, shares), accrued := Plus(s.accrued, shares))
  }

  predicate MayCollect(s: State, id: nat, caller: Principal, cid: nat) {
    id !in s.calls && cid in s.claims && (caller == s.claims[cid].claimant || caller == s.admin)
  }

  // ---- One step ----

  /** What a swap in flight will take is still there. */
  predicate SwapsBacked(s: State) {
    forall id :: id in s.calls ==> TaskBacked(s, s.calls[id])
  }

  predicate TaskBacked(s: State, t: Task) {
    t.Busy? ==> JobBacked(s, t.job)
  }

  predicate JobBacked(s: State, job: Job) {
    (job.SwapIn? || job.SwapOut?) ==> job.output + job.share <= s.balances[job.j]
  }

  function ExecuteStep(s: State, id: nat): State
    requires id in s.calls
  {
    var t := s.calls[id];
    if t.Busy? && t.stage.Sent? && !Over(t.job) && (t.stage.call.Transfer? || t.stage.call.TransferFrom?) then
      var token := LegOf(s, t.job).token;
      s.(ledgers := s.ledgers[token := L.Next(s.ledgers[token], t.stage.call)],
         calls := s.calls[id := Busy(t.job, Answered(Replied(L.ReplyOf(s.ledgers[token], t.stage.call))))])
    else if t.Receiving? && t.seen.None? then
      s.(calls := s.calls[id := t.(seen := Some(L.BalanceOf(s.ledgers[t.token], Account(s))))])
    else s
  }

  /** The balance check of a donation looks at the pool's own balance only. */
  predicate DonationAccepted(s: State, t: Task) {
    t.Receiving? && t.seen.Some? && L.NatToU128(t.seen.value) >= s.balances[t.token] + t.amount
  }

  function DeliverStep(s: State, id: nat, now: nat): State
    requires id in s.calls
  {
    var t := s.calls[id];
    if t.Busy? && t.stage.Answered? && !Over(t.job) then
      Work(Book(s, t.job, t.stage.ok), id, Then(t.job, t.stage.ok), now)
    else if t.Receiving? && t.seen.Some? then
      s.(lock := false, calls := s.calls - {id},
         balances := if DonationAccepted(s, t) then s.balances[t.token := s.balances[t.token] + t.amount] else s.balances)
    else s
  }

  function RejectStep(s: State, id: nat): State
    requires id in s.calls
  {
    var t := s.calls[id];
    if t.Busy? && t.stage.Sent? then s.(calls := s.calls[id := Busy(t.job, Answered(false))])
    else if t.Receiving? && t.seen.None? then s.(lock := false, calls := s.calls - {id})
    else s
  }

  function FeeReplyStep(s: State, id: nat, fee: Option<nat>, now: nat): State
    requires id in s.calls
  {
    var t := s.calls[id];
    if t.Busy? && t.stage.AskFee? && !Over(t.job) then
      Work(s.(feeCache := s.feeCache[LegOf(s, t.job).token := CachedFee(fee)]), id, t.job, now)
    else s
  }

  function AccrueStep(s: State, token: Token, amount: nat): State {
    if amount > s.balances[token] then s
    else
      var after := s.(balances := s.balances[token := s.balances[token] - amount],
                      adminFees := s.adminFees[token := s.adminFees[token] + amount],
                      accrued := s.accrued[token := s.accrued[token] + amount]);
      if SwapsBacked(after) then after else s
  }

  function Next(s: State, ev: Event): State {
    match ev
    case StartWithdraw(id, caller, now) => BeginWithdraw(s, id, caller, now)
    case StartSwap(id, user, i, j, dx, output, share, now) =>
      if SwapAllowed(s, id, i, j, dx, output, share) then Work(s.(lock := true), id, SwapIn(user, i, j, dx, output, share), now) else s
    case StartAdd(id, user, amounts, now) =>
      if Free(s, id) then Work(s.(lock := true), id, AddIn(user, amounts, 0), now) else s
    case StartRemove(id, user, amounts, shares, now) =>
      if Free(s, id) && Withdrawable(s, amounts, shares) then
        Work(Debited(s.(lock := true), amounts, shares), id, Payout(user, amounts, 0), now)
      else s
    case StartReceive(id, token, amount) =>
      if Free(s, id) then s.(lock := true, calls := s.calls[id := Receiving(token, amount, None)]) else s
    case StartClaim(id, caller, cid, now) =>
      if MayCollect(s, id, caller, cid) then Work(s.(claims := s.claims - {cid}), id, Collect(cid, s.claims[cid]), now) else s
    case StartOther(id) => if Free(s, id) then s.(lock := true, calls := s.calls[id := Other]) else s
    case EndOther(id) => if id in s.calls && s.calls[id].Other? then s.(lock := false, calls := s.calls - {id}) else s
    case FeeReply(id, fee, now) => if id in s.calls then FeeReplyStep(s, id, fee, now) else s
    case Execute(id) => if id in s.calls then ExecuteStep(s, id) else s
    case Reject(id) => if id in s.calls then RejectStep(s, id) else s
    case Deliver(id, now) => if id in s.calls then DeliverStep(s, id, now) else s
    case CacheFee(token, fee) => s.(feeCache := s.feeCache[token := CachedFee(fee)])
    case Accrue(token, amount) => AccrueStep(s, token, amount)
    case LedgerCall(token, call) => s.(ledgers := s.ledgers[token := L.Next(s.ledgers[token], call)])
  }

  function Run(s: State, evs: seq<Event>): State {
    if evs == [] then s else Next(Run(s, evs[..|evs| - 1]), evs[|evs| - 1])
  }

  function Fresh(self: Principal, admin: Principal, ledgers: Ledgers): State {
    State(self, admin, false, ZEROS, ZEROS, map[], map[], 0, map[], ledgers, ZEROS, ZEROS)
  }
}
