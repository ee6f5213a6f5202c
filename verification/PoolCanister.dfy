/** The fee withdrawal in its own form: methods that ask for a ledger's fee, send, and go through the
    three tokens in a loop, updating the canister's fields in between. Every way it can run is shown to
    be a run of the step machine, with any other messages let through at each await. */
module PoolCanister {
  import opened Prelude
  import L = Ledger
  import opened Pool
  import opened PoolBooks

  /** What happens around one transfer: others' messages while the fee is asked for and while the send
      travels both ways, the fee's answer, and whether the ledger could be reached. */
  datatype Answer = Answer(
    feeMeanwhile: seq<Event>, fee: Option<nat>, feeAt: nat,
    outbound: seq<Event>, rejected: bool, inbound: seq<Event>, repliedAt: nat)

  /** A message of someone else. */
  predicate Foreign(ev: Event, id: nat) {
    ev.Accrue? || ev.LedgerCall? || ev.CacheFee? || ev.id != id
  }

  predicate AllForeign(evs: seq<Event>, id: nat) {
    forall i :: 0 <= i < |evs| ==> Foreign(evs[i], id)
  }

  predicate ForeignAnswer(a: Answer, id: nat) {
    AllForeign(a.feeMeanwhile, id) && AllForeign(a.outbound, id) && AllForeign(a.inbound, id)
  }

  lemma RunAppend(s: State, evs: seq<Event>, ev: Event)
    ensures Run(s, evs + [ev]) == Next(Run(s, evs), ev)
  {
    assert (evs + [ev])[..|evs|] == evs;
  }

  lemma BookForgets(s: State, calls: map<nat, Task>, job: Job, ok: bool)
    requires !Over(job)
    ensures Book(s.(calls := calls), job, ok) == Book(s, job, ok).(calls := calls)
  {
  }

  lemma TurnForgets(s: State, calls: map<nat, Task>, job: Job, now: nat)
    ensures TurnOf(s.(calls := calls), job, now) == TurnOf(s, job, now)
  {
  }

  lemma CloseForgets(s: State, id: nat, t: Task, job: Job)
    requires Over(job)
    ensures Close(s.(calls := s.calls[id := t]), id, job) == Close(s, id, job)
  {
    assert s.calls[id := t] - {id} == s.calls - {id};
  }

  /** Where a job goes does not depend on where its own call stood. */
  lemma {:induction false} WorkForgets(s: State, id: nat, t: Task, job: Job, now: nat)
    ensures Work(s.(calls := s.calls[id := t]), id, job, now) == Work(s, id, job, now)
    decreases Rank(job)
  {
    TurnForgets(s, s.calls[id := t], job, now);
    var turn := TurnOf(s, job, now);
    hide TurnOf, Close, Book, Then;
    match turn
    case Closes => CloseForgets(s, id, t, job);
    case Waits(stage) => assert s.calls[id := t][id := Busy(job, stage)] == s.calls[id := Busy(job, stage)];
    case Passes(ok) =>
      BookForgets(s, s.calls[id := t], job, ok);
      BookFrame(s, job, ok);
      WorkForgets(Book(s, job, ok), id, t, Then(job, ok), now);
  }

  /** While a guarded call waits, nobody else moves it, and nobody else reports a withdrawal. */
  lemma ForeignKeeps(m: State, ev: Event, id: nat)
    requires LockOk(m) && id in m.calls && GuardedTask(m.calls[id]) && Foreign(ev, id)
    ensures var after := Next(m, ev);
            && LockOk(after) && id in after.calls && after.calls[id] == m.calls[id]
            && after.withdrawn == m.withdrawn && after.self == m.self && after.admin == m.admin
  {
    NextKeepsLock(m, ev);
    BusyHoldsLock(m, id);
    match ev
    case StartClaim(own, caller, cid, now) =>
      if MayCollect(m, own, caller, cid) {
        WorkFrame(m.(claims := m.claims - {cid}), own, Collect(cid, m.claims[cid]), now);
      }
      hide Work, LockOk;
    case FeeReply(own, fee, now) => ForeignReply(m, ev, id);
    case Deliver(own, now) => ForeignReply(m, ev, id);
    case Execute(own) => hide L.Next, L.ReplyOf, L.BalanceOf, LockOk;
    case LedgerCall(_, _) => hide L.Next, LockOk;
    case Accrue(_, _) => hide SwapsBacked, LockOk;
    case _ => hide Work, LockOk;
  }

  lemma ForeignReply(m: State, ev: Event, id: nat)
    requires LockOk(m) && id in m.calls && GuardedTask(m.calls[id]) && (ev.FeeReply? || ev.Deliver?) && ev.id != id
    ensures var after := Next(m, ev);
            && id in after.calls && after.calls[id] == m.calls[id]
            && after.withdrawn == m.withdrawn && after.self == m.self && after.admin == m.admin
  {
    if ev.id in m.calls {
      var t := m.calls[ev.id];
      assert !GuardedTask(t);
      if ev.FeeReply? && t.stage.AskFee? && !Over(t.job) {
        WorkFrame(m.(feeCache := m.feeCache[LegOf(m, t.job).token := CachedFee(ev.fee)]), ev.id, t.job, ev.now);
      } else if ev.Deliver? && t.stage.Answered? && !Over(t.job) {
        BookFrame(m, t.job, t.stage.ok);
        WorkFrame(Book(m, t.job, t.stage.ok), ev.id, Then(t.job, t.stage.ok), ev.now);
      }
    }
    hide Work, Book, Then, LockOk;
  }

  /** With the lock free, nobody holds withdrawn fees. */
  lemma UnlockedHoldsNothing(s: State, token: Token)
    requires LockOk(s) && !s.lock
    ensures Sum(s.calls, TaskHolds(token)) == 0
  {
    assert forall id :: id in s.calls ==> TaskHolds(token)(s.calls[id]) == 0;
    SumZero(s.calls, TaskHolds(token));
  }

  lemma SumZero(calls: map<nat, Task>, f: Task -> int)
    requires forall id :: id in calls ==> f(calls[id]) == 0
    ensures Sum(calls, f) == 0
    decreases |calls|
  {
    if calls != map[] {
      var id :| id in calls;
      SumRemove(calls, id, f);
      SumZero(calls - {id}, f);
    } else {
      assert Values(calls, f) == map[];
    }
  }

  lemma WaitingIs(m: State, id: nat, job: Job, stage: Stage)
    requires id in m.calls && m.calls[id] == Busy(job, stage)
    ensures Wait(m.(calls := m.calls - {id}), id, job, stage) == m
  {
    assert (m.calls - {id})[id := Busy(job, stage)] == m.calls;
  }

  class ThreePool {
    const self: Principal
    const admin: Principal
    var lock: bool
    var balances: Triple
    var adminFees: Triple
    var feeCache: map<nat, nat>
    var claims: map<nat, Claim>
    var nextClaim: nat
    // The other calls in flight, the ledgers, and the running totals.
    var calls: map<nat, Task>
    var ledgers: Ledgers
    var accrued: Triple
    var withdrawn: Triple

    function View(): State
      reads this
    {
      State(self, admin, lock, balances, adminFees, feeCache, claims, nextClaim, calls, ledgers, accrued, withdrawn)
    }

    constructor (self: Principal, admin: Principal, ledgers: Ledgers)
      ensures View() == Fresh(self, admin, ledgers)
    {
      this.self, this.admin, this.ledgers := self, admin, ledgers;
      lock, balances, adminFees, feeCache := false, ZEROS, ZEROS, map[];
      claims, nextClaim, calls, accrued, withdrawn := map[], 0, map[], ZEROS, ZEROS;
    }

    /** The events so far have brought the machine to where this call waits at `stage`. */
    ghost predicate At(s: State, evs: seq<Event>, id: nat, job: Job, stage: Stage)
      reads this
    {
      && Run(s, evs) == Wait(View(), id, job, stage) && id !in calls
      && Guarded(job) && LockOk(Wait(View(), id, job, stage))
    }

    /** The events so far have brought the machine to where this call goes on with `job`. */
    ghost predicate On(s: State, evs: seq<Event>, id: nat, job: Job, now: nat)
      reads this
    {
      && Run(s, evs) == Work(View(), id, job, now) && id !in calls && Guarded(job)
      && LockOk(Wait(View(), id, job, AskFee))
    }

    /** The rest of a state in which one call waits. */
    method Adopt(m: State, id: nat)
      requires m.self == self && m.admin == admin && m.withdrawn == withdrawn
      modifies this`lock, this`balances, this`adminFees, this`feeCache, this`claims, this`nextClaim, this`calls, this`ledgers, this`accrued
      ensures View() == m.(calls := m.calls - {id})
    {
      lock, balances, adminFees, feeCache := m.lock, m.balances, m.adminFees, m.feeCache;
      claims, nextClaim, calls := m.claims, m.nextClaim, m.calls - {id};
      ledgers, accrued := m.ledgers, m.accrued;
    }

    /** Others' messages while this call waits. */
    method Meanwhile(others: seq<Event>, id: nat, job: Job, stage: Stage, ghost s: State, ghost evs: seq<Event>)
      returns (ghost evs': seq<Event>)
      requires At(s, evs, id, job, stage) && AllForeign(others, id)
      modifies this`lock, this`balances, this`adminFees, this`feeCache, this`claims, this`nextClaim, this`calls, this`ledgers, this`accrued
      ensures At(s, evs', id, job, stage) && evs <= evs'
    {
      hide Next, Run, LockOk;
      evs' := evs;
      for i := 0 to |others|
        invariant At(s, evs', id, job, stage) && evs <= evs'
      {
        var before := Wait(View(), id, job, stage);
        var after := Next(before, others[i]);
        ForeignKeeps(before, others[i], id);
        RunAppend(s, evs', others[i]);
        evs' := evs' + [others[i]];
        Adopt(after, id);
        WaitingIs(after, id, job, stage);
      }
    }

    /** A ledger's fee, asked for once and then remembered. */
    method LedgerFee(a: Answer, id: nat, job: Job, now: nat, ghost s: State, ghost evs: seq<Event>)
      returns (fee: nat, now': nat, ghost evs': seq<Event>)
      requires On(s, evs, id, job, now) && !Over(job) && Sends(job) && GrossOf(job) > 0
      requires ForeignAnswer(a, id)
      modifies this`lock, this`balances, this`adminFees, this`feeCache, this`claims, this`nextClaim, this`calls, this`ledgers, this`accrued
      ensures On(s, evs', id, job, now') && evs <= evs'
      // The cached fee, or else the ledger's answer, or else, if there is none that fits, the standard fee.
      ensures TokenOf(job) in feeCache && fee == feeCache[TokenOf(job)]
      ensures TokenOf(job) in old(feeCache) ==> fee == old(feeCache)[TokenOf(job)]
      ensures TokenOf(job) !in old(feeCache) ==> fee == if a.fee.Some? && a.fee.value <= U128_MAX then a.fee.value else 10_000
    {
      LegIs(View(), job);
      var token := LegOf(View(), job).token;
      now', evs' := now, evs;
      if token in feeCache {
        return feeCache[token], now', evs';
      }
      assert TurnOf(View(), job, now) == Waits(AskFee);
      hide Next, Run, LockOk;
      evs' := Meanwhile(a.feeMeanwhile, id, job, AskFee, s, evs');
      fee := CachedFee(a.fee);
      now' := a.feeAt;
      ghost var waiting := Wait(View(), id, job, AskFee);
      LegIs(View(), job);
      LegIs(waiting, job);
      RunAppend(s, evs', FeeReply(id, a.fee, now'));
      FeeReplyResumes(waiting, id, job, a.fee, now');
      evs' := evs' + [FeeReply(id, a.fee, now')];
      feeCache := feeCache[token := fee];
      WorkForgets(View(), id, Busy(job, AskFee), job, now');
      assert waiting.(feeCache := feeCache) == View().(calls := calls[id := Busy(job, AskFee)]);
      LockFrame(waiting, Wait(View(), id, job, AskFee), id);
    }

    /** Send an amount less the fee. Too small an amount is left where it is; a Duplicate is a success. */
    method TransferToUser(a: Answer, id: nat, job: Job, now: nat, ghost s: State, ghost evs: seq<Event>)
      returns (ok: bool, fee: nat, sent: Option<L.Call>, now': nat, ghost evs': seq<Event>)
      requires On(s, evs, id, job, now) && !Over(job) && Sends(job) && GrossOf(job) > 0
      requires ForeignAnswer(a, id)
      modifies this`lock, this`balances, this`adminFees, this`feeCache, this`claims, this`nextClaim, this`calls, this`ledgers, this`accrued
      ensures evs <= evs' && id !in calls && LockOk(Wait(View(), id, job, AskFee))
      ensures Run(s, evs') == Work(Book(View(), job, ok), id, Then(job, ok), now')
      // What is owed less the cached or looked-up fee goes to the one it is owed to; dust is not sent and counts as sent.
      ensures TokenOf(job) in old(feeCache) ==> fee == old(feeCache)[TokenOf(job)]
      ensures TokenOf(job) !in old(feeCache) ==> fee == if a.fee.Some? && a.fee.value <= U128_MAX then a.fee.value else 10_000
      ensures sent.None? <==> GrossOf(job) <= fee
      ensures sent.None? ==> ok
      ensures sent.Some? ==>
                && sent.value.Transfer? && sent.value.caller == self && sent.value.arg.fromSubaccount.None?
                && sent.value.arg.to == L.Account(PartyOf(View(), job), None) && sent.value.arg.amount + fee == GrossOf(job)
    {
      hide Run, LockOk, Book, Then;
      sent := None;
      fee, now', evs' := LedgerFee(a, id, job, now, s, evs);
      LegIs(View(), job);
      var leg := LegOf(View(), job);
      if leg.amount <= fee {
        assert TurnOf(View(), job, now') == Passes(true);
        ok := true;
        return;
      }
      var call := PushCall(View(), leg, fee, now');
      sent := Some(call);
      assert TurnOf(View(), job, now') == Waits(Sent(call, fee));
      LockFrame(Wait(View(), id, job, AskFee), Wait(View(), id, job, Sent(call, fee)), id);
      ok, evs' := Send(a, id, job, call, fee, s, evs');
      now' := a.repliedAt;
    }

    /** The send travels, its reply comes back, and the call goes on. */
    method Send(a: Answer, id: nat, job: Job, call: L.Call, fee: nat, ghost s: State, ghost evs: seq<Event>)
      returns (ok: bool, ghost evs': seq<Event>)
      requires At(s, evs, id, job, Sent(call, fee)) && !Over(job) && call.Transfer? && ForeignAnswer(a, id)
      modifies this`lock, this`balances, this`adminFees, this`feeCache, this`claims, this`nextClaim, this`calls, this`ledgers, this`accrued
      ensures evs <= evs' && id !in calls && LockOk(Wait(View(), id, job, AskFee))
      ensures Run(s, evs') == Work(Book(View(), job, ok), id, Then(job, ok), a.repliedAt)
    {
      hide Run, LockOk, Next, Work, Book, Then;
      evs' := Meanwhile(a.outbound, id, job, Sent(call, fee), s, evs);
      ok, evs' := Travel(a.rejected, id, job, call, fee, s, evs');
      evs' := Meanwhile(a.inbound, id, job, Answered(ok), s, evs');
      RunAppend(s, evs', Deliver(id, a.repliedAt));
      DeliverResumes(View(), id, job, ok, a.repliedAt);
      evs' := evs' + [Deliver(id, a.repliedAt)];
      LockFrame(Wait(View(), id, job, Answered(ok)), Wait(View(), id, job, AskFee), id);
    }

    /** The send reaches its ledger, which answers, or does not reach it. */
    method Travel(rejected: bool, id: nat, job: Job, call: L.Call, fee: nat, ghost s: State, ghost evs: seq<Event>)
      returns (ok: bool, ghost evs': seq<Event>)
      requires At(s, evs, id, job, Sent(call, fee)) && !Over(job) && call.Transfer?
      modifies this`ledgers
      ensures At(s, evs', id, job, Answered(ok)) && evs <= evs'
    {
      hide L.Next, L.ReplyOf, Run, LockOk, Next;
      ghost var before := View();
      ghost var waiting := Wait(before, id, job, Sent(call, fee));
      if rejected {
        ok := false;
        RunAppend(s, evs, Reject(id));
        evs' := evs + [Reject(id)];
        RejectAnswers(before, id, job, call, fee);
      } else {
        var token := LegOf(View(), job).token;
        ok := Replied(L.ReplyOf(ledgers[token], call));
        ledgers := ledgers[token := L.Next(ledgers[token], call)];
        RunAppend(s, evs, Execute(id));
        evs' := evs + [Execute(id)];
        ExecuteAnswers(before, id, job, call, fee);
      }
      LockFrame(waiting, Wait(View(), id, job, Answered(ok)), id);
    }

    /** Zero the fees, send each token's, put back what could not be sent. The call carries out a run of
        the machine. It is refused, with nothing changed, exactly when the lock is held or the caller is
        not the admin. Otherwise each token is reported in full or not at all, the report is what the
        machine adds to its total, and, if the books were sound and all fees ever accrued fit a u128, the
        fees left and those reported are the fees found and those accrued meanwhile. */
    method WithdrawAdminFees(id: nat, caller: Principal, now: nat, answers: nat -> Answer)
      returns (r: Option<Triple>, ghost evs': seq<Event>)
      requires LockOk(View()) && id !in calls && forall k: nat :: ForeignAnswer(answers(k), id)
      modifies this
      ensures |evs'| > 0 && evs'[0] == StartWithdraw(id, caller, now) && View() == Run(old(View()), evs')
      ensures r.Some? <==> !old(lock) && caller == admin
      ensures r.None? ==> View() == old(View())
      ensures r.Some? ==> withdrawn == Plus(old(withdrawn), r.value) && !lock
      ensures r.Some? ==> forall j: Token :: r.value[j] == 0 || r.value[j] == old(adminFees)[j]
      ensures r.Some? && Sound(old(View())) && AccrualsFit(old(View()), evs') ==>
                Sound(View()) && forall j: Token :: adminFees[j] + r.value[j] + old(accrued)[j] == old(adminFees)[j] + accrued[j]
    {
      hide LockOk, Sound, AccrualsFit, ForeignAnswer, Work, Run, Next;
      ghost var s := View();
      evs' := [StartWithdraw(id, caller, now)];
      WithdrawBegins(s, id, caller, now);
      if lock {
        return None, evs';
      }
      lock := true;
      if caller != admin {
        lock := false;
        return None, evs';
      }
      var fees := adminFees;
      adminFees := ZEROS;
      LockTaken(s, View(), id, Withdraw(fees, ZEROS, 0));
      var paid;
      paid, evs' := SendFees(id, fees, now, answers, s, evs');
      ClosedIs(View(), id, fees, paid);
      lock := false;
      withdrawn := Plus(withdrawn, paid);
      r := Some(paid);
      hide Close, Plus;
      if Sound(s) && AccrualsFit(s, evs') {
        WithdrawalConserves(s, evs', paid);
      }
    }

    /** The loop over the tokens. */
    method SendFees(id: nat, fees: Triple, now: nat, answers: nat -> Answer, ghost s: State, ghost evs: seq<Event>)
      returns (paid: Triple, ghost evs': seq<Event>)
      requires On(s, evs, id, Withdraw(fees, ZEROS, 0), now) && forall k: nat :: ForeignAnswer(answers(k), id)
      modifies this`lock, this`balances, this`adminFees, this`feeCache, this`claims, this`nextClaim, this`calls, this`ledgers, this`accrued
      ensures evs <= evs' && id !in calls && LockOk(Wait(View(), id, Withdraw(fees, paid, 3), AskFee))
      ensures Run(s, evs') == Close(View(), id, Withdraw(fees, paid, 3))
      ensures forall j: Token :: paid[j] == 0 || paid[j] == fees[j]
    {
      hide Run, LockOk, ForeignAnswer, Close;
      paid, evs' := ZEROS, evs;
      var at := now;
      for k := 0 to 3
        invariant On(s, evs', id, Withdraw(fees, paid, k), at) && evs <= evs' && Unpaid(paid, k)
        invariant forall j: Token :: paid[j] == 0 || paid[j] == fees[j]
      {
        if fees[k] > 0 {
          paid, at, evs' := SendFee(answers(k), id, fees, paid, k, at, s, evs');
        } else {
          NothingToSend(View(), id, fees, paid, k, at);
          hide Work;
        }
      }
    }

    /** One token of the loop: report it if it was sent, put it back if not. */
    method SendFee(a: Answer, id: nat, fees: Triple, paid: Triple, k: nat, now: nat, ghost s: State, ghost evs: seq<Event>)
      returns (paid': Triple, now': nat, ghost evs': seq<Event>)
      requires k < 3 && fees[k] > 0 && ForeignAnswer(a, id) && On(s, evs, id, Withdraw(fees, paid, k), now)
      modifies this`lock, this`balances, this`adminFees, this`feeCache, this`claims, this`nextClaim, this`calls, this`ledgers, this`accrued
      ensures evs <= evs' && On(s, evs', id, Withdraw(fees, paid', k + 1), now')
      ensures paid' == paid || paid' == paid[k := fees[k]]
    {
      hide Run, LockOk, ForeignAnswer, Work;
      var job := Withdraw(fees, paid, k);
      var ok, fee, sent;
      paid' := paid;
      ok, fee, sent, now', evs' := TransferToUser(a, id, job, now, s, evs);
      ghost var settled := View();
      if ok {
        paid' := paid[k := fees[k]];
      } else {
        adminFees := adminFees[k := SatAdd(adminFees[k], fees[k], U128_MAX)];
      }
      LockFrame(Wait(settled, id, job, AskFee), Wait(View(), id, Then(job, ok), AskFee), id);
    }
  }

  /** A token without fees is passed over. */
  lemma NothingToSend(s: State, id: nat, fees: Triple, paid: Triple, k: nat, now: nat)
    requires k < 3 && fees[k] == 0 && paid[k] == 0 && id !in s.calls
    requires LockOk(Wait(s, id, Withdraw(fees, paid, k), AskFee))
    ensures Work(s, id, Withdraw(fees, paid, k), now) == Work(s, id, Withdraw(fees, paid, k + 1), now)
    ensures LockOk(Wait(s, id, Withdraw(fees, paid, k + 1), AskFee))
  {
    var job := Withdraw(fees, paid, k);
    assert TurnOf(s, job, now) == Passes(true);
    assert paid[k := fees[k]] == paid;
    LockFrame(Wait(s, id, job, AskFee), Wait(s, id, Then(job, true), AskFee), id);
  }

  lemma WithdrawBegins(s: State, id: nat, caller: Principal, now: nat)
    ensures Run(s, [StartWithdraw(id, caller, now)]) == BeginWithdraw(s, id, caller, now)
  {
    hide BeginWithdraw;
    RunAppend(s, [], StartWithdraw(id, caller, now));
  }

  /** From unlocked to unlocked, with a report in between. */
  lemma WithdrawalConserves(s: State, evs: seq<Event>, paid: Triple)
    requires Sound(s) && AccrualsFit(s, evs) && !s.lock && !Run(s, evs).lock
    requires Run(s, evs).withdrawn == Plus(s.withdrawn, paid)
    ensures Sound(Run(s, evs))
    ensures forall j: Token :: Run(s, evs).adminFees[j] + paid[j] + s.accrued[j] == s.adminFees[j] + Run(s, evs).accrued[j]
  {
    FeesAreConserved(s, evs);
    var after := Run(s, evs);
    forall j: Token ensures after.adminFees[j] + paid[j] + s.accrued[j] == s.adminFees[j] + after.accrued[j] {
      UnlockedHoldsNothing(s, j);
      UnlockedHoldsNothing(after, j);
      assert Balanced(s, j) && Balanced(after, j);
    }
  }

  /** The lock's order does not depend on what a guarded call is doing. */
  lemma LockFrame(a: State, b: State, id: nat)
    requires LockOk(a) && a.lock == b.lock && id in a.calls && id in b.calls && a.calls - {id} == b.calls - {id}
    requires GuardedTask(a.calls[id]) && GuardedTask(b.calls[id])
    ensures LockOk(b)
  {
    assert forall i :: i in b.calls && i != id ==> i in b.calls - {id};
    assert forall i :: i in a.calls && i != id ==> i in a.calls - {id};
    assert forall i :: i != id ==> (i in a.calls <==> i in b.calls);
    forall i | i in b.calls && i != id ensures b.calls[i] == a.calls[i] {
      assert (b.calls - {id})[i] == (a.calls - {id})[i];
    }
    assert a.lock;
  }

  lemma LockTaken(s: State, s1: State, id: nat, job: Job)
    requires LockOk(s) && !s.lock && s1.lock && s1.calls == s.calls && id !in s.calls && Guarded(job)
    ensures LockOk(Wait(s1, id, job, AskFee))
  {
    SetKeepsLock(s, Wait(s1, id, job, AskFee), id, Busy(job, AskFee));
  }

  /** A withdrawal that is over: the lock is free and the report is added. */
  lemma ClosedIs(s: State, id: nat, fees: Triple, paid: Triple)
    requires id !in s.calls
    ensures Close(s, id, Withdraw(fees, paid, 3)) == s.(lock := false, withdrawn := Plus(s.withdrawn, paid))
  {
    assert s.calls - {id} == s.calls;
  }

  lemma FeeReplyResumes(waiting: State, id: nat, job: Job, fee: Option<nat>, now: nat)
    requires !Over(job) && id in waiting.calls && waiting.calls[id] == Busy(job, AskFee)
    ensures Next(waiting, FeeReply(id, fee, now))
         == Work(waiting.(feeCache := waiting.feeCache[LegOf(waiting, job).token := CachedFee(fee)]), id, job, now)
  {
  }

  lemma RejectAnswers(s: State, id: nat, job: Job, call: L.Call, fee: nat)
    ensures Next(Wait(s, id, job, Sent(call, fee)), Reject(id)) == Wait(s, id, job, Answered(false))
  {
  }

  lemma ExecuteAnswers(s: State, id: nat, job: Job, call: L.Call, fee: nat)
    requires !Over(job) && call.Transfer?
    ensures var token := LegOf(s, job).token;
            Next(Wait(s, id, job, Sent(call, fee)), Execute(id))
            == Wait(s.(ledgers := s.ledgers[token := L.Next(s.ledgers[token], call)]), id, job,
                    Answered(Replied(L.ReplyOf(s.ledgers[token], call))))
  {
    hide L.Next, L.ReplyOf;
  }

  lemma DeliverUnfolds(waiting: State, id: nat, job: Job, ok: bool, now: nat)
    requires !Over(job) && id in waiting.calls && waiting.calls[id] == Busy(job, Answered(ok))
    ensures Next(waiting, Deliver(id, now)) == Work(Book(waiting, job, ok), id, Then(job, ok), now)
  {
    hide Work, Book, Then;
  }

  lemma DeliverResumes(s: State, id: nat, job: Job, ok: bool, now: nat)
    requires !Over(job)
    ensures Next(Wait(s, id, job, Answered(ok)), Deliver(id, now)) == Work(Book(s, job, ok), id, Then(job, ok), now)
  {
    var t := Busy(job, Answered(ok));
    hide Next, Book, Then, Work;
    DeliverUnfolds(Wait(s, id, job, Answered(ok)), id, job, ok, now);
    BookFrame(s, job, ok);
    BookForgets(s, s.calls[id := t], job, ok);
    WorkForgets(Book(s, job, ok), id, t, Then(job, ok), now);
  }
}
