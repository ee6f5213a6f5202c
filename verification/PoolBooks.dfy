/** What every step of the pool keeps: one guarded call at a time, well-formed calls, and every unit
    of fee on the books, in flight or reported. */
module PoolBooks {
  import opened Prelude
  import L = Ledger
  import opened Pool

  // ---- What carrying on may change ----

  /** The books change; who we are, what fees are cached and the ledgers do not. */
  predicate SameFrame(a: State, b: State) {
    a.self == b.self && a.admin == b.admin && a.feeCache == b.feeCache && a.ledgers == b.ledgers
  }

  /** What only guarded operations may change. */
  predicate SameFunds(a: State, b: State) {
    a.balances == b.balances && a.adminFees == b.adminFees && a.accrued == b.accrued && a.withdrawn == b.withdrawn
  }

  lemma BookFrame(s: State, job: Job, ok: bool)
    requires !Over(job)
    ensures var after := Book(s, job, ok);
            && SameFrame(s, after) && after.lock == s.lock && after.calls == s.calls && after.withdrawn == s.withdrawn
            && (!Guarded(job) ==> SameFunds(s, after))
  {
  }

  /** Either the call is over and the lock dropped if it held it, or it waits and nothing else moved. */
  lemma {:induction false} WorkFrame(s: State, id: nat, job: Job, now: nat)
    ensures var after := Work(s, id, job, now);
            && SameFrame(s, after) && (!Guarded(job) ==> SameFunds(s, after))
            && ((after.calls == s.calls - {id} && after.lock == (s.lock && !Guarded(job)))
                || (id in after.calls && after.calls == s.calls[id := after.calls[id]] && after.lock == s.lock
                    && after.calls[id].Busy? && (Guarded(after.calls[id].job) <==> Guarded(job))))
    decreases Rank(job)
  {
    var turn := TurnOf(s, job, now);
    hide TurnOf;
    if turn.Passes? {
      BookFrame(s, job, turn.ok);
      hide Book, Then;
      WorkFrame(Book(s, job, turn.ok), id, Then(job, turn.ok), now);
    }
  }

  // ---- The lock ----

  predicate GuardedTask(t: Task) {
    t.Busy? ==> Guarded(t.job)
  }

  /** The flag is up exactly while a guarded call is in flight, and never for two at once. Recoveries of
      claims run beside it, any number of them. */
  ghost predicate LockOk(s: State) {
    && (s.lock <==> exists id :: id in s.calls && GuardedTask(s.calls[id]))
    && (forall i, j :: i in s.calls && j in s.calls && GuardedTask(s.calls[i]) && GuardedTask(s.calls[j]) ==> i == j)
  }

  /** A call picked up again, or started under a fresh lock, keeps the lock in order. */
  lemma WorkKeepsLock(s: State, s1: State, id: nat, job: Job, now: nat)
    requires LockOk(s) && s1.calls == s.calls
    requires Guarded(job) ==> s1.lock && (!s.lock || (id in s.calls && GuardedTask(s.calls[id])))
    requires !Guarded(job) ==> s1.lock == s.lock && (id in s.calls ==> !GuardedTask(s.calls[id]))
    ensures LockOk(Work(s1, id, job, now))
  {
    WorkFrame(s1, id, job, now);
    hide Work, Guarded;
    var after := Work(s1, id, job, now);
    assert forall i :: i in s.calls && i != id && GuardedTask(s.calls[i]) ==> !Guarded(job) && s.lock;
    if i :| i in s.calls && i != id && GuardedTask(s.calls[i]) {
      assert i in after.calls && after.calls[i] == s.calls[i];
    }
    if id in after.calls {
      assert GuardedTask(after.calls[id]) <==> Guarded(job);
    }
  }

  lemma DropKeepsLock(s: State, after: State, id: nat)
    requires LockOk(s) && id in s.calls && GuardedTask(s.calls[id])
    requires after.calls == s.calls - {id} && !after.lock
    ensures LockOk(after)
  {
  }

  lemma SetKeepsLock(s: State, after: State, id: nat, t: Task)
    requires LockOk(s) && after.calls == s.calls[id := t]
    requires if id in s.calls then after.lock == s.lock && (GuardedTask(t) <==> GuardedTask(s.calls[id]))
             else !s.lock && after.lock && GuardedTask(t)
    ensures LockOk(after)
  {
    if i :| i in s.calls && GuardedTask(s.calls[i]) {
      assert i in after.calls && GuardedTask(after.calls[i]);
    }
    if id !in s.calls {
      assert id in after.calls && GuardedTask(after.calls[id]);
    }
  }

  lemma NextKeepsLock(s: State, ev: Event)
    requires LockOk(s)
    ensures LockOk(Next(s, ev))
  {
    match ev
    case StartWithdraw(id, caller, now) =>
      if Free(s, id) {
        WorkKeepsLock(s, s.(lock := true, adminFees := ZEROS), id, Withdraw(s.adminFees, ZEROS, 0), now);
      }
      hide Work, LockOk;
    case StartSwap(id, user, i, j, dx, output, share, now) =>
      if Free(s, id) {
        WorkKeepsLock(s, s.(lock := true), id, SwapIn(user, i, j, dx, output, share), now);
      }
      hide Work, LockOk;
    case StartAdd(id, user, inputs, now) =>
      if Free(s, id) {
        WorkKeepsLock(s, s.(lock := true), id, AddIn(user, inputs, 0), now);
      }
      hide Work, LockOk;
    case StartRemove(id, user, amounts, shares, now) =>
      if Free(s, id) && Withdrawable(s, amounts, shares) {
        WorkKeepsLock(s, Debited(s.(lock := true), amounts, shares), id, Payout(user, amounts, 0), now);
      }
      hide Work, LockOk;
    case StartClaim(id, caller, cid, now) =>
      if MayCollect(s, id, caller, cid) {
        WorkKeepsLock(s, s.(claims := s.claims - {cid}), id, Collect(cid, s.claims[cid]), now);
      }
      hide Work, LockOk;
    case StartReceive(id, token, amount) =>
      if Free(s, id) {
        SetKeepsLock(s, Next(s, ev), id, Receiving(token, amount, None));
      }
      hide LockOk;
    case StartOther(id) =>
      if Free(s, id) {
        SetKeepsLock(s, Next(s, ev), id, Other);
      }
      hide LockOk;
    case EndOther(id) =>
      if id in s.calls && s.calls[id].Other? {
        DropKeepsLock(s, Next(s, ev), id);
      }
      hide LockOk;
    case FeeReply(id, fee, now) => ReplyKeepsLock(s, ev);
    case Deliver(id, now) => ReplyKeepsLock(s, ev);
    case Execute(id) => SendKeepsLock(s, ev);
    case Reject(id) => SendKeepsLock(s, ev);
    case _ =>
  }

  /** A call that may be working under the lock holds it. */
  lemma BusyHoldsLock(s: State, id: nat)
    requires LockOk(s) && id in s.calls && GuardedTask(s.calls[id])
    ensures s.lock
  {
  }

  lemma ReplyKeepsLock(s: State, ev: Event)
    requires LockOk(s) && (ev.FeeReply? || ev.Deliver?)
    ensures LockOk(Next(s, ev))
  {
    if ev.id in s.calls {
      var t := s.calls[ev.id];
      if GuardedTask(t) {
        BusyHoldsLock(s, ev.id);
      }
      if ev.FeeReply? && t.Busy? && t.stage.AskFee? && !Over(t.job) {
        WorkKeepsLock(s, s.(feeCache := s.feeCache[LegOf(s, t.job).token := CachedFee(ev.fee)]), ev.id, t.job, ev.now);
      } else if ev.Deliver? && t.Busy? && t.stage.Answered? && !Over(t.job) {
        BookFrame(s, t.job, t.stage.ok);
        WorkKeepsLock(s, Book(s, t.job, t.stage.ok), ev.id, Then(t.job, t.stage.ok), ev.now);
      } else if ev.Deliver? && t.Receiving? && t.seen.Some? {
        DropKeepsLock(s, Next(s, ev), ev.id);
      }
    }
    hide Work, LockOk, Book;
  }

  lemma SendKeepsLock(s: State, ev: Event)
    requires LockOk(s) && (ev.Execute? || ev.Reject?)
    ensures LockOk(Next(s, ev))
  {
    hide L.Next, L.ReplyOf, L.BalanceOf;
    var after := Next(s, ev);
    if ev.id in s.calls {
      if ev.id in after.calls {
        assert after.calls == s.calls[ev.id := after.calls[ev.id]];
        SetKeepsLock(s, after, ev.id, after.calls[ev.id]);
      } else {
        DropKeepsLock(s, after, ev.id);
      }
    }
  }

  // ---- Well-formed calls ----

  /** Nothing is marked paid before its turn. */
  predicate Unpaid(paid: Triple, k: nat) {
    forall j :: k <= j < 3 ==> paid[j] == 0
  }

  predicate JobOk(job: Job) {
    && (job.Withdraw? ==> Unpaid(job.paid, job.k))
    && (job.SwapIn? || job.SwapOut? ==> job.i != job.j && job.dx > 0 && job.output > 0)
  }

  /** Does the operation's current transfer send, rather than pull? */
  predicate Sends(job: Job) {
    job.Withdraw? || job.Payout? || job.SwapOut? || job.Collect?
  }

  function TokenOf(job: Job): Token
    requires !Over(job)
  {
    match job
    case Withdraw(_, _, k) => k
    case Payout(_, _, k) => k
    case SwapIn(_, i, _, _, _, _) => i
    case SwapOut(_, _, j, _, _, _) => j
    case AddIn(_, _, k) => k
    case Collect(_, claim) => claim.token
  }

  /** What the current transfer is worth: a fee taken, an amount debited, an input, an output, a claim. */
  function GrossOf(job: Job): nat
    requires !Over(job)
  {
    match job
    case Withdraw(taken, _, k) => taken[k]
    case Payout(_, amounts, k) => amounts[k]
    case SwapIn(_, _, _, dx, _, _) => dx
    case SwapOut(_, _, _, _, output, _) => output
    case AddIn(_, inputs, k) => inputs[k]
    case Collect(_, claim) => claim.amount
  }

  /** Who it goes to or comes from: fees to the admin, claims to their claimants, all else to and from the
      user. */
  function PartyOf(s: State, job: Job): Principal
    requires !Over(job)
  {
    match job
    case Withdraw(_, _, _) => s.admin
    case Payout(to, _, _) => to
    case SwapIn(user, _, _, _, _, _) => user
    case SwapOut(user, _, _, _, _, _) => user
    case AddIn(user, _, _) => user
    case Collect(_, claim) => claim.claimant
  }

  lemma LegIs(s: State, job: Job)
    requires !Over(job)
    ensures LegOf(s, job) == if Sends(job) then Pay(TokenOf(job), PartyOf(s, job), GrossOf(job))
                             else Take(TokenOf(job), PartyOf(s, job), GrossOf(job))
  {
  }

  /** What is on the wire is the operation's current transfer, from or to the pool's own account: a send
      of the whole amount less exactly the fee it was priced with, or a pull of the whole amount. */
  predicate Wired(s: State, job: Job, call: L.Call, fee: nat)
    requires !Over(job)
  {
    var party := L.Account(PartyOf(s, job), None);
    if Sends(job) then
      && call.Transfer? && call.caller == s.self && call.arg.fromSubaccount == None && call.arg.to == party
      && call.arg.amount + fee == GrossOf(job) && call.arg.amount > 0
      && call.arg.fee == None && call.arg.memo == None && call.arg.createdAt.Some?
    else
      && call.TransferFrom? && call.caller == s.self && call.farg.spenderSubaccount == None && call.farg.from == party
      && call.farg.to == L.Account(s.self, None) && call.farg.amount == GrossOf(job)
      && call.farg.fee == None && call.farg.memo == None && call.farg.createdAt.Some?
  }

  predicate TaskOk(s: State, t: Task) {
    t.Busy? ==>
      && !Over(t.job) && JobOk(t.job)
      && (t.stage.AskFee? ==> Sends(t.job))
      && (t.stage.Sent? ==> Wired(s, t.job, t.stage.call, t.stage.fee))
  }

  ghost predicate TasksOk(s: State) {
    forall id :: id in s.calls ==> TaskOk(s, s.calls[id])
  }

  /** The rest of a state's calls. */
  ghost predicate OthersOk(s: State, id: nat) {
    forall i :: i in s.calls && i != id ==> TaskOk(s, s.calls[i])
  }

  lemma {:induction false} WorkKeepsTasks(s: State, id: nat, job: Job, now: nat)
    requires JobOk(job) && OthersOk(s, id)
    ensures TasksOk(Work(s, id, job, now))
    decreases Rank(job)
  {
    match TurnOf(s, job, now)
    case Closes =>
      hide TaskOk;
      SameTasks(s.(calls := s.calls - {id}), Work(s, id, job, now), id);
    case Waits(stage) =>
      WaitsOk(s, job, now);
      hide TaskOk, TurnOf;
      SameTasks(s.(calls := s.calls - {id}), Work(s, id, job, now), id);
    case Passes(ok) =>
      BookFrame(s, job, ok);
      OthersFrame(s, Book(s, job, ok), id);
      ThenOk(job, ok);
      hide Book, Then, TaskOk;
      WorkKeepsTasks(Book(s, job, ok), id, Then(job, ok), now);
  }

  lemma WaitsOk(s: State, job: Job, now: nat)
    requires JobOk(job) && TurnOf(s, job, now).Waits?
    ensures forall after: State :: after.self == s.self && after.admin == s.admin ==>
              TaskOk(after, Busy(job, TurnOf(s, job, now).stage))
  {
  }

  lemma ThenOk(job: Job, ok: bool)
    requires !Over(job) && JobOk(job)
    ensures JobOk(Then(job, ok))
  {
  }

  lemma OthersFrame(a: State, b: State, id: nat)
    requires OthersOk(a, id) && a.self == b.self && a.admin == b.admin && a.calls == b.calls
    ensures OthersOk(b, id)
  {
    forall i | i in b.calls && i != id ensures TaskOk(b, b.calls[i]) {
      assert TaskOk(a, a.calls[i]);
    }
  }

  /** Picking up or starting a job, in a state that differs only in its books. */
  lemma ResumeKeepsTasks(s: State, s1: State, id: nat, job: Job, now: nat)
    requires TasksOk(s) && s1.self == s.self && s1.admin == s.admin && s1.calls == s.calls && JobOk(job)
    ensures TasksOk(Work(s1, id, job, now))
  {
    OthersFrame(s, s1, id);
    WorkKeepsTasks(s1, id, job, now);
  }

  lemma StartKeepsTasks(s: State, ev: Event)
    requires TasksOk(s)
    requires ev.StartWithdraw? || ev.StartSwap? || ev.StartAdd? || ev.StartRemove? || ev.StartClaim?
    ensures TasksOk(Next(s, ev))
  {
    match ev
    case StartWithdraw(id, caller, now) =>
      ResumeKeepsTasks(s, s.(lock := true, adminFees := ZEROS), id, Withdraw(s.adminFees, ZEROS, 0), now);
      hide Work, TasksOk;
    case StartSwap(id, user, i, j, dx, output, share, now) =>
      if SwapAllowed(s, id, i, j, dx, output, share) {
        ResumeKeepsTasks(s, s.(lock := true), id, SwapIn(user, i, j, dx, output, share), now);
      }
      hide Work, TasksOk;
    case StartAdd(id, user, inputs, now) =>
      ResumeKeepsTasks(s, s.(lock := true), id, AddIn(user, inputs, 0), now);
      hide Work, TasksOk;
    case StartRemove(id, user, amounts, shares, now) =>
      if Withdrawable(s, amounts, shares) {
        ResumeKeepsTasks(s, Debited(s.(lock := true), amounts, shares), id, Payout(user, amounts, 0), now);
      }
      hide Work, TasksOk;
    case StartClaim(id, caller, cid, now) =>
      if cid in s.claims {
        ResumeKeepsTasks(s, s.(claims := s.claims - {cid}), id, Collect(cid, s.claims[cid]), now);
      }
      hide Work, TasksOk;
  }

  lemma NextKeepsTasks(s: State, ev: Event)
    requires TasksOk(s)
    ensures TasksOk(Next(s, ev))
  {
    match ev
    case StartWithdraw(_, _, _) => StartKeepsTasks(s, ev);
    case StartSwap(_, _, _, _, _, _, _, _) => StartKeepsTasks(s, ev);
    case StartAdd(_, _, _, _) => StartKeepsTasks(s, ev);
    case StartRemove(_, _, _, _, _) => StartKeepsTasks(s, ev);
    case StartClaim(_, _, _, _) => StartKeepsTasks(s, ev);
    case FeeReply(id, fee, now) =>
      if id in s.calls && s.calls[id].Busy? && !Over(s.calls[id].job) {
        var job := s.calls[id].job;
        assert TaskOk(s, s.calls[id]);
        ResumeKeepsTasks(s, s.(feeCache := s.feeCache[LegOf(s, job).token := CachedFee(fee)]), id, job, now);
      }
      hide Work, TasksOk;
    case Deliver(id, now) => DeliverKeepsTasks(s, id, now);
    case Execute(id) => SendKeepsTasks(s, ev);
    case Reject(id) => SendKeepsTasks(s, ev);
    case StartReceive(id, _, _) => SameTasks(s, Next(s, ev), id);
    case StartOther(id) => SameTasks(s, Next(s, ev), id);
    case EndOther(id) => SameTasks(s, Next(s, ev), id);
    case CacheFee(_, _) =>
      hide TaskOk;
      SameTasks(s, Next(s, ev), 0);
    case LedgerCall(_, _) =>
      hide L.Next, TaskOk;
      SameTasks(s, Next(s, ev), 0);
    case Accrue(_, _) =>
      hide SwapsBacked, TaskOk;
      SameTasks(s, Next(s, ev), 0);
  }

  lemma SendKeepsTasks(s: State, ev: Event)
    requires TasksOk(s) && (ev.Execute? || ev.Reject?)
    ensures TasksOk(Next(s, ev))
  {
    hide L.Next, L.ReplyOf, L.BalanceOf;
    assert ev.id in s.calls ==> TaskOk(s, s.calls[ev.id]);
    SameTasks(s, Next(s, ev), ev.id);
  }

  lemma SameTasks(s: State, after: State, id: nat)
    requires TasksOk(s) && after.self == s.self && after.admin == s.admin
    requires forall i :: i in after.calls && i != id ==> i in s.calls && after.calls[i] == s.calls[i]
    requires id in after.calls && after.calls[id].Busy? ==> TaskOk(after, after.calls[id])
    ensures TasksOk(after)
  {
    forall i | i in after.calls && i != id ensures TaskOk(after, after.calls[i]) {
      assert TaskOk(s, s.calls[i]);
    }
  }

  lemma DeliverKeepsTasks(s: State, id: nat, now: nat)
    requires TasksOk(s)
    ensures TasksOk(Next(s, Deliver(id, now)))
  {
    if id in s.calls && s.calls[id].Busy? && s.calls[id].stage.Answered? && !Over(s.calls[id].job) {
      var job, ok := s.calls[id].job, s.calls[id].stage.ok;
      assert TaskOk(s, s.calls[id]);
      BookFrame(s, job, ok);
      ThenOk(job, ok);
      ResumeKeepsTasks(s, Book(s, job, ok), id, Then(job, ok), now);
      hide Work, TasksOk, Book, Then;
    } else {
      SameTasks(s, Next(s, Deliver(id, now)), id);
    }
  }

  // ---- Sums over the calls in flight ----

  function Values(calls: map<nat, Task>, f: Task -> int): map<nat, int> {
    map id | id in calls :: f(calls[id])
  }

  ghost function Sum(calls: map<nat, Task>, f: Task -> int): int {
    Total(Values(calls, f))
  }

  lemma SumRemove(calls: map<nat, Task>, id: nat, f: Task -> int)
    ensures Sum(calls, f) == Sum(calls - {id}, f) + if id in calls then f(calls[id]) else 0
  {
    assert Values(calls - {id}, f) == Values(calls, f) - {id};
    if id in calls {
      TotalRemove(Values(calls, f), id);
    } else {
      assert calls - {id} == calls;
    }
  }

  lemma SumUpdate(calls: map<nat, Task>, id: nat, t: Task, f: Task -> int)
    ensures Sum(calls[id := t], f) == Sum(calls - {id}, f) + f(t)
  {
    SumRemove(calls[id := t], id, f);
    assert calls[id := t] - {id} == calls - {id};
  }

  lemma SumNonNegative(calls: map<nat, Task>, f: Task -> int)
    requires forall id :: id in calls ==> f(calls[id]) >= 0
    ensures Sum(calls, f) >= 0
    decreases |calls|
  {
    if calls != map[] {
      var id :| id in calls;
      SumRemove(calls, id, f);
      SumNonNegative(calls - {id}, f);
    }
  }

  // ---- Fees ----

  /** What a withdrawal has taken of a token and not yet reported or put back. */
  function Holds(job: Job, token: Token): nat {
    if !job.Withdraw? then 0 else if token < job.k then job.paid[token] else job.taken[token]
  }

  function TaskHolds(token: Token): Task -> int {
    (t: Task) => if t.Busy? then Holds(t.job, token) else 0
  }

  /** Fees on the books and reported, less those ever accrued. */
  function FeeBalance(s: State, token: Token): int {
    (s.adminFees[token] + s.withdrawn[token]) as int - s.accrued[token] as int
  }

  /** Every unit of fee ever accrued is on the books, in flight, or reported withdrawn. */
  ghost predicate Balanced(s: State, token: Token) {
    s.accrued[token] == s.adminFees[token] + Sum(s.calls, TaskHolds(token)) + s.withdrawn[token]
  }

  /** The restore does not saturate. */
  predicate Restorable(s: State, job: Job, ok: bool) {
    job.Withdraw? && job.k < 3 && !ok ==> s.adminFees[job.k] + job.taken[job.k] <= U128_MAX
  }

  lemma BookFees(s: State, job: Job, ok: bool, token: Token)
    requires !Over(job) && JobOk(job) && Restorable(s, job, ok)
    ensures FeeBalance(Book(s, job, ok), token) + Holds(Then(job, ok), token) == FeeBalance(s, token) + Holds(job, token)
  {
  }

  lemma {:induction false} WorkFees(s: State, id: nat, job: Job, now: nat, token: Token)
    requires JobOk(job)
    ensures var after := Work(s, id, job, now);
            FeeBalance(after, token) + Sum(after.calls, TaskHolds(token))
            == FeeBalance(s, token) + Sum(s.calls - {id}, TaskHolds(token)) + Holds(job, token)
    decreases Rank(job)
  {
    var turn := TurnOf(s, job, now);
    hide TurnOf, Sum;
    match turn
    case Closes =>
    case Waits(stage) => SumUpdate(s.calls, id, Busy(job, stage), TaskHolds(token));
    case Passes(ok) =>
      BookFrame(s, job, ok);
      BookFees(s, job, ok, token);
      ThenOk(job, ok);
      hide Book, Then;
      WorkFees(Book(s, job, ok), id, Then(job, ok), now, token);
  }

  /** The lock and the calls are in order, and the fees of all three tokens add up. */
  ghost predicate Sound(s: State) {
    LockOk(s) && TasksOk(s) && forall token: Token :: Balanced(s, token)
  }

  /** As long as all fees ever accrued fit a u128, restoring never saturates. */
  lemma RestoreIsExact(s: State, id: nat)
    requires id in s.calls && s.calls[id].Busy? && s.calls[id].job.Withdraw? && s.calls[id].job.k < 3
    requires Balanced(s, s.calls[id].job.k) && s.accrued[s.calls[id].job.k] <= U128_MAX
    ensures var job := s.calls[id].job;
            SatAdd(s.adminFees[job.k], job.taken[job.k], U128_MAX) == s.adminFees[job.k] + job.taken[job.k]
  {
    var token: Token := s.calls[id].job.k;
    SumRemove(s.calls, id, TaskHolds(token));
    SumNonNegative(s.calls - {id}, TaskHolds(token));
    hide Sum;
  }

  /** A job started or picked up keeps the equation if the step that leads to it does. */
  lemma WorkBalances(s: State, s1: State, id: nat, job: Job, now: nat, token: Token)
    requires Balanced(s, token) && s1.calls == s.calls && JobOk(job)
    requires FeeBalance(s1, token) + Holds(job, token)
          == FeeBalance(s, token) + if id in s.calls then TaskHolds(token)(s.calls[id]) else 0
    ensures Balanced(Work(s1, id, job, now), token)
  {
    WorkFees(s1, id, job, now, token);
    SumRemove(s.calls, id, TaskHolds(token));
    hide Work, Sum, TaskHolds;
  }

  lemma SetBalances(s: State, after: State, id: nat, token: Token)
    requires Balanced(s, token) && FeeBalance(after, token) == FeeBalance(s, token)
    requires after.calls == s.calls - {id} || (id in after.calls && after.calls == s.calls[id := after.calls[id]])
    requires (if id in after.calls then TaskHolds(token)(after.calls[id]) else 0)
          == if id in s.calls then TaskHolds(token)(s.calls[id]) else 0
    ensures Balanced(after, token)
  {
    SumRemove(s.calls, id, TaskHolds(token));
    if id in after.calls {
      SumUpdate(s.calls, id, after.calls[id], TaskHolds(token));
    }
    hide Sum, TaskHolds;
  }

  lemma NextBalances(s: State, ev: Event, token: Token)
    requires Sound(s) && forall t: Token :: s.accrued[t] <= U128_MAX
    ensures Balanced(Next(s, ev), token)
  {
    assert Balanced(s, token);
    hide LockOk, TasksOk;
    match ev
    case StartWithdraw(id, caller, now) =>
      if Free(s, id) {
        WorkBalances(s, s.(lock := true, adminFees := ZEROS), id, Withdraw(s.adminFees, ZEROS, 0), now, token);
      }
      hide Work, Balanced;
    case StartSwap(id, user, i, j, dx, output, share, now) =>
      if SwapAllowed(s, id, i, j, dx, output, share) {
        WorkBalances(s, s.(lock := true), id, SwapIn(user, i, j, dx, output, share), now, token);
      }
      hide Work, Balanced;
    case StartAdd(id, user, inputs, now) =>
      if Free(s, id) {
        WorkBalances(s, s.(lock := true), id, AddIn(user, inputs, 0), now, token);
      }
      hide Work, Balanced;
    case StartRemove(id, user, amounts, shares, now) =>
      if Free(s, id) && Withdrawable(s, amounts, shares) {
        WorkBalances(s, Debited(s.(lock := true), amounts, shares), id, Payout(user, amounts, 0), now, token);
      }
      hide Work, Balanced;
    case StartClaim(id, caller, cid, now) =>
      if MayCollect(s, id, caller, cid) {
        WorkBalances(s, s.(claims := s.claims - {cid}), id, Collect(cid, s.claims[cid]), now, token);
      }
      hide Work, Balanced;
    case FeeReply(id, fee, now) => ReplyBalances(s, ev, token);
    case Deliver(id, now) => ReplyBalances(s, ev, token);
    case Execute(id) => SendBalances(s, ev, token);
    case Reject(id) => SendBalances(s, ev, token);
    case StartReceive(id, _, _) => SendBalances(s, ev, token);
    case StartOther(id) => SendBalances(s, ev, token);
    case EndOther(id) => SendBalances(s, ev, token);
    case _ => hide SwapsBacked, Sum;
  }

  /** These events touch no books and at most their own call, whose job they keep. */
  lemma SendFrame(s: State, ev: Event, token: Token)
    requires ev.Execute? || ev.Reject? || ev.StartReceive? || ev.StartOther? || ev.EndOther?
    ensures var after := Next(s, ev);
            && SameFunds(s, after)
            && (after.calls == s.calls
                || ((after.calls == s.calls - {ev.id} || (ev.id in after.calls && after.calls == s.calls[ev.id := after.calls[ev.id]]))
                    && (if ev.id in after.calls then TaskHolds(token)(after.calls[ev.id]) else 0)
                       == if ev.id in s.calls then TaskHolds(token)(s.calls[ev.id]) else 0))
  {
    hide L.Next, L.ReplyOf, L.BalanceOf;
  }

  lemma SendBalances(s: State, ev: Event, token: Token)
    requires Balanced(s, token)
    requires ev.Execute? || ev.Reject? || ev.StartReceive? || ev.StartOther? || ev.EndOther?
    ensures Balanced(Next(s, ev), token)
  {
    SendFrame(s, ev, token);
    hide Next, Sum, TaskHolds;
    if Next(s, ev).calls != s.calls {
      SetBalances(s, Next(s, ev), ev.id, token);
    }
  }

  lemma ReplyBalances(s: State, ev: Event, token: Token)
    requires Sound(s) && (ev.FeeReply? || ev.Deliver?) && forall t: Token :: s.accrued[t] <= U128_MAX
    ensures Balanced(Next(s, ev), token)
  {
    assert Balanced(s, token);
    if ev.id in s.calls {
      var t := s.calls[ev.id];
      assert TaskOk(s, t);
      if ev.FeeReply? && t.Busy? && t.stage.AskFee? && !Over(t.job) {
        WorkBalances(s, s.(feeCache := s.feeCache[LegOf(s, t.job).token := CachedFee(ev.fee)]), ev.id, t.job, ev.now, token);
      } else if ev.Deliver? && t.Busy? && t.stage.Answered? && !Over(t.job) {
        DeliverBalances(s, ev.id, ev.now, token);
      } else if ev.Deliver? && t.Receiving? && t.seen.Some? {
        SetBalances(s, Next(s, ev), ev.id, token);
      }
    }
    hide Work, Sound, Balanced, Book;
  }

  lemma DeliverBalances(s: State, id: nat, now: nat, token: Token)
    requires Sound(s) && (forall t: Token :: s.accrued[t] <= U128_MAX)
    requires id in s.calls && s.calls[id].Busy? && s.calls[id].stage.Answered? && !Over(s.calls[id].job)
    ensures Balanced(Next(s, Deliver(id, now)), token)
  {
    var job, ok := s.calls[id].job, s.calls[id].stage.ok;
    assert TaskOk(s, s.calls[id]) && Balanced(s, token);
    if job.Withdraw? {
      assert Balanced(s, job.k);
      RestoreIsExact(s, id);
    }
    hide Sound, Balanced, LockOk, TasksOk, Sum;
    BookFrame(s, job, ok);
    BookFees(s, job, ok, token);
    ThenOk(job, ok);
    hide Book, Then;
    WorkBalances(s, Book(s, job, ok), id, Then(job, ok), now, token);
  }

  /** Total accrued over a whole run stays in u128 range. */
  ghost predicate AccrualsFit(s: State, evs: seq<Event>) {
    forall n, t: Token :: 0 <= n <= |evs| ==> Run(s, evs[..n]).accrued[t] <= U128_MAX
  }

  /** Under any interleaving of any number of withdrawals, swaps, deposits, payouts, recoveries and
      accruals, with any outcomes: accrued = on the books + in flight + reported, for each token, and
      one guard at most. */
  lemma {:induction false} FeesAreConserved(s: State, evs: seq<Event>)
    requires Sound(s) && AccrualsFit(s, evs)
    ensures Sound(Run(s, evs))
  {
    if evs != [] {
      var init, ev := evs[..|evs| - 1], evs[|evs| - 1];
      forall n, t: Token | 0 <= n <= |init| ensures Run(s, init[..n]).accrued[t] <= U128_MAX {
        assert init[..n] == evs[..n];
      }
      FeesAreConserved(s, init);
      var before := Run(s, init);
      assert forall t: Token :: Run(s, evs[..|init|]).accrued[t] <= U128_MAX;
      hide Next, Balanced, LockOk, TasksOk;
      NextKeepsLock(before, ev);
      NextKeepsTasks(before, ev);
      forall token: Token ensures Balanced(Next(before, ev), token) {
        NextBalances(before, ev, token);
      }
    }
  }

  lemma FreshIsSound(self: Principal, admin: Principal, ledgers: Ledgers)
    ensures Sound(Fresh(self, admin, ledgers))
  {
    var s := Fresh(self, admin, ledgers);
    forall token: Token ensures Balanced(s, token) {
      assert Values(s.calls, TaskHolds(token)) == map[];
    }
  }
}
