/** Recovery of failed payouts, and what goes on the wire: no claim is held twice, every send is priced
    with the fee cached when it goes out, and the cache holds what the ledgers answered. */
module PoolClaims {
  import opened Prelude
  import L = Ledger
  import opened Pool
  import opened PoolBooks

  // ---- Claims ----

  /** No claim is both on the list and being recovered, or being recovered twice, and ids are handed out
      once. */
  ghost predicate ClaimsOk(s: State) {
    && (forall cid :: cid in s.claims ==> cid < s.nextClaim)
    && (forall id :: id in s.calls && Collects(s.calls[id]) ==>
          s.calls[id].job.cid < s.nextClaim && s.calls[id].job.cid !in s.claims)
    && (forall i, j :: i in s.calls && j in s.calls && SameClaim(s.calls[i], s.calls[j]) ==> i == j)
  }

  predicate Collects(t: Task) {
    t.Busy? && t.job.Collect?
  }

  predicate SameClaim(a: Task, b: Task) {
    Collects(a) && Collects(b) && a.job.cid == b.job.cid
  }

  /** A job is not about a claim that someone else has, or that is on the list. */
  ghost predicate ClaimFree(s: State, id: nat, job: Job) {
    job.Collect? ==>
      && job.cid < s.nextClaim && job.cid !in s.claims
      && forall i :: i in s.calls && i != id && Collects(s.calls[i]) ==> s.calls[i].job.cid != job.cid
  }

  /** The list and everyone but `id`. */
  ghost predicate OtherClaimsOk(s: State, id: nat) {
    ClaimsOk(s.(calls := s.calls - {id}))
  }

  lemma ClaimsOthers(s: State, id: nat)
    requires ClaimsOk(s)
    ensures OtherClaimsOk(s, id)
    ensures id in s.calls && s.calls[id].Busy? ==> ClaimFree(s, id, s.calls[id].job)
  {
  }

  lemma ClaimsWith(s: State, after: State, id: nat)
    requires OtherClaimsOk(s, id) && after.claims == s.claims && after.nextClaim == s.nextClaim
    requires after.calls - {id} == s.calls - {id}
    requires id in after.calls && after.calls[id].Busy? ==> ClaimFree(s, id, after.calls[id].job)
    ensures ClaimsOk(after)
  {
    assert forall i :: i in after.calls && i != id ==> i in after.calls - {id} && after.calls[i] == (after.calls - {id})[i];
    assert forall i :: i in s.calls && i != id ==> i in s.calls - {id} && s.calls[i] == (s.calls - {id})[i];
    assert forall i :: i in after.calls && i != id ==> i in s.calls && after.calls[i] == s.calls[i];
  }

  lemma BookClaims(s: State, id: nat, job: Job, ok: bool)
    requires !Over(job) && OtherClaimsOk(s, id) && ClaimFree(s, id, job)
    ensures OtherClaimsOk(Book(s, job, ok), id) && ClaimFree(Book(s, job, ok), id, Then(job, ok))
  {
    if job.Payout? && !ok {
      var oldest := Oldest(s.claims, 0, s.nextClaim);
      hide Oldest;
    }
  }

  lemma {:induction false} WorkClaims(s: State, id: nat, job: Job, now: nat)
    requires OtherClaimsOk(s, id) && ClaimFree(s, id, job)
    ensures ClaimsOk(Work(s, id, job, now))
    decreases Rank(job)
  {
    var turn := TurnOf(s, job, now);
    hide TurnOf, ClaimsOk, OtherClaimsOk, ClaimFree;
    match turn
    case Closes =>
      assert (s.calls - {id}) - {id} == s.calls - {id};
      ClaimsWith(s, Work(s, id, job, now), id);
    case Waits(stage) =>
      assert s.calls[id := Busy(job, stage)] - {id} == s.calls - {id};
      ClaimsWith(s, Work(s, id, job, now), id);
    case Passes(ok) =>
      BookClaims(s, id, job, ok);
      hide Book, Then;
      WorkClaims(Book(s, job, ok), id, Then(job, ok), now);
  }

  lemma ResumeClaims(s: State, s1: State, id: nat, job: Job, now: nat)
    requires ClaimsOk(s) && s1.calls == s.calls && s1.claims == s.claims && s1.nextClaim == s.nextClaim
    requires job.Collect? ==> id in s.calls && s.calls[id].Busy? && s.calls[id].job == job
    ensures ClaimsOk(Work(s1, id, job, now))
  {
    ClaimsOthers(s, id);
    WorkClaims(s1, id, job, now);
  }

  lemma StartClaims(s: State, ev: Event)
    requires ClaimsOk(s)
    requires ev.StartWithdraw? || ev.StartSwap? || ev.StartAdd? || ev.StartRemove?
    ensures ClaimsOk(Next(s, ev))
  {
    match ev
    case StartWithdraw(id, caller, now) =>
      if Free(s, id) {
        ResumeClaims(s, s.(lock := true, adminFees := ZEROS), id, Withdraw(s.adminFees, ZEROS, 0), now);
      }
      hide Work, ClaimsOk;
    case StartSwap(id, user, i, j, dx, output, share, now) =>
      ResumeClaims(s, s.(lock := true), id, SwapIn(user, i, j, dx, output, share), now);
      hide Work, ClaimsOk;
    case StartAdd(id, user, inputs, now) =>
      ResumeClaims(s, s.(lock := true), id, AddIn(user, inputs, 0), now);
      hide Work, ClaimsOk;
    case StartRemove(id, user, amounts, shares, now) =>
      if Withdrawable(s, amounts, shares) {
        ResumeClaims(s, Debited(s.(lock := true), amounts, shares), id, Payout(user, amounts, 0), now);
      }
      hide Work, ClaimsOk;
  }

  lemma CollectClaims(s: State, ev: Event)
    requires ClaimsOk(s) && ev.StartClaim?
    ensures ClaimsOk(Next(s, ev))
  {
    if MayCollect(s, ev.id, ev.caller, ev.cid) {
      ClaimsOthers(s, ev.id);
      WorkClaims(s.(claims := s.claims - {ev.cid}), ev.id, Collect(ev.cid, s.claims[ev.cid]), ev.now);
    }
    hide Work;
  }

  lemma TouchClaims(s: State, after: State, id: nat)
    requires ClaimsOk(s) && after.claims == s.claims && after.nextClaim == s.nextClaim && after.calls - {id} == s.calls - {id}
    requires id in after.calls && after.calls[id].Busy? ==>
               id in s.calls && s.calls[id].Busy? && after.calls[id].job == s.calls[id].job
    ensures ClaimsOk(after)
  {
    ClaimsOthers(s, id);
    ClaimsWith(s, after, id);
  }

  lemma SendClaims(s: State, ev: Event)
    requires ClaimsOk(s) && (ev.Execute? || ev.Reject? || ev.StartReceive? || ev.StartOther? || ev.EndOther?)
    ensures ClaimsOk(Next(s, ev))
  {
    hide ClaimsOk, L.Next, L.ReplyOf, L.BalanceOf;
    TouchClaims(s, Next(s, ev), ev.id);
  }

  /** A claim's recovery takes it off the list before anything is sent, and puts it back only when it is
      over, so no claim is ever paid to two callers at once. */
  lemma NextKeepsClaims(s: State, ev: Event)
    requires ClaimsOk(s)
    ensures ClaimsOk(Next(s, ev))
  {
    match ev
    case StartWithdraw(_, _, _) => StartClaims(s, ev);
    case StartSwap(_, _, _, _, _, _, _, _) => StartClaims(s, ev);
    case StartAdd(_, _, _, _) => StartClaims(s, ev);
    case StartRemove(_, _, _, _, _) => StartClaims(s, ev);
    case StartClaim(_, _, _, _) => CollectClaims(s, ev);
    case FeeReply(_, _, _) => ReplyClaims(s, ev);
    case Deliver(_, _) => ReplyClaims(s, ev);
    case LedgerCall(_, _) => hide L.Next;
    case Accrue(_, _) => hide SwapsBacked;
    case CacheFee(_, _) =>
    case _ => SendClaims(s, ev);
  }

  lemma ReplyClaims(s: State, ev: Event)
    requires ClaimsOk(s) && (ev.FeeReply? || ev.Deliver?)
    ensures ClaimsOk(Next(s, ev))
  {
    if ev.id in s.calls {
      var t := s.calls[ev.id];
      ClaimsOthers(s, ev.id);
      if ev.FeeReply? && t.Busy? && t.stage.AskFee? && !Over(t.job) {
        ResumeClaims(s, s.(feeCache := s.feeCache[LegOf(s, t.job).token := CachedFee(ev.fee)]), ev.id, t.job, ev.now);
        hide Work, ClaimsOk;
      } else if ev.Deliver? && t.Busy? && t.stage.Answered? && !Over(t.job) {
        BookClaims(s, ev.id, t.job, t.stage.ok);
        WorkClaims(Book(s, t.job, t.stage.ok), ev.id, Then(t.job, t.stage.ok), ev.now);
        hide Work, ClaimsOk, Book, Then;
      }
    }
  }

  lemma {:induction false} OldestIsLeast(claims: map<nat, Claim>, from: nat, end: nat)
    requires exists cid :: cid in claims && from <= cid < end
    ensures Oldest(claims, from, end) in claims && from <= Oldest(claims, from, end)
    ensures forall cid :: cid in claims && cid >= from ==> Oldest(claims, from, end) <= cid
    decreases SatSub(end, from)
  {
    if from !in claims {
      OldestIsLeast(claims, from + 1, end);
    }
  }

  /** A failed payout is put on the list under a new id, as it is; the list keeps all others, but once it
      holds 10,000 it gives up its oldest. */
  lemma RecordsLatest(s: State, claim: Claim)
    requires ClaimsOk(s)
    ensures var after := RecordClaim(s, claim);
            && s.nextClaim !in s.claims && s.nextClaim in after.claims && after.claims[s.nextClaim] == claim
            && after.nextClaim == s.nextClaim + 1
            && (forall cid :: cid in after.claims && cid != s.nextClaim ==> cid in s.claims && after.claims[cid] == s.claims[cid])
            && (|s.claims| < 10_000 ==> forall cid :: cid in s.claims ==> cid in after.claims)
            && (|s.claims| >= 10_000 ==>
                  exists oldest :: oldest in s.claims && oldest !in after.claims
                    && forall cid :: cid in s.claims && cid != oldest ==> cid in after.claims && oldest < cid)
  {
    if |s.claims| >= 10_000 {
      var some :| some in s.claims;
      OldestIsLeast(s.claims, 0, s.nextClaim);
      hide Oldest;
      var oldest := Oldest(s.claims, 0, s.nextClaim);
      assert oldest in s.claims;
    }
  }

  /** Who may start what: a withdrawal only the admin, a recovery only its claimant or the admin; a swap and
      a removal only for amounts that the ledgers' known fees leave something of. What is refused changes
      nothing. */
  lemma StartsAreAllowed(s: State, ev: Event)
    requires Next(s, ev) != s
    ensures ev.StartWithdraw? ==> ev.caller == s.admin && !s.lock
    ensures ev.StartClaim? ==> ev.cid in s.claims && (ev.caller == s.claims[ev.cid].claimant || ev.caller == s.admin)
    ensures ev.StartSwap? ==>
              !s.lock && ev.i != ev.j && ev.dx > 0 && ev.output + ev.share <= s.balances[ev.j]
              && ev.j in s.feeCache && s.feeCache[ev.j] < ev.output
    ensures ev.StartRemove? ==>
              !s.lock && forall t: Token :: ev.amounts[t] + ev.shares[t] <= s.balances[t]
                                            && (ev.amounts[t] > 0 ==> t in s.feeCache && s.feeCache[t] < ev.amounts[t])
    ensures ev.StartAdd? || ev.StartReceive? || ev.StartOther? ==> !s.lock
  {
    hide Work;
  }

  // ---- The fee a send is priced with ----

  /** The call has just put a transfer on the wire. */
  predicate JustWired(s: State, after: State, id: nat) {
    id in after.calls && after.calls[id].Busy? && after.calls[id].stage.Sent? && (id in s.calls ==> s.calls[id] != after.calls[id])
  }

  /** What has just gone out is priced with the cached fee. */
  predicate PricedNow(s: State, after: State, id: nat) {
    JustWired(s, after, id) && !Over(after.calls[id].job) && Sends(after.calls[id].job) ==>
      var token := TokenOf(after.calls[id].job);
      token in after.feeCache && after.calls[id].stage.fee == after.feeCache[token]
  }

  lemma WorkPrices(s: State, s1: State, own: nat, job: Job, now: nat, id: nat)
    requires s1.calls == s.calls
    ensures PricedNow(s, Work(s1, own, job, now), id)
  {
    WorkWires(s1, own, job, now, id);
    hide Work;
  }

  /** A send goes out priced with exactly the fee then cached for its token. */
  lemma WiredAtCachedFee(s: State, ev: Event, id: nat)
    ensures PricedNow(s, Next(s, ev), id)
  {
    match ev
    case StartWithdraw(own, caller, now) =>
      WorkPrices(s, s.(lock := true, adminFees := ZEROS), own, Withdraw(s.adminFees, ZEROS, 0), now, id);
      hide Work, PricedNow;
      if Next(s, ev) == s { SamePrices(s, s, id); }
    case StartSwap(own, user, i, j, dx, output, share, now) =>
      WorkPrices(s, s.(lock := true), own, SwapIn(user, i, j, dx, output, share), now, id);
      hide Work, PricedNow;
      if Next(s, ev) == s { SamePrices(s, s, id); }
    case StartAdd(own, user, inputs, now) =>
      WorkPrices(s, s.(lock := true), own, AddIn(user, inputs, 0), now, id);
      hide Work, PricedNow;
      if Next(s, ev) == s { SamePrices(s, s, id); }
    case StartRemove(own, user, amounts, shares, now) =>
      if Withdrawable(s, amounts, shares) {
        WorkPrices(s, Debited(s.(lock := true), amounts, shares), own, Payout(user, amounts, 0), now, id);
      }
      hide Work, PricedNow;
      if Next(s, ev) == s { SamePrices(s, s, id); }
    case StartClaim(own, caller, cid, now) =>
      if cid in s.claims {
        WorkPrices(s, s.(claims := s.claims - {cid}), own, Collect(cid, s.claims[cid]), now, id);
      }
      hide Work, PricedNow;
      if Next(s, ev) == s { SamePrices(s, s, id); }
    case FeeReply(_, _, _) => ReplyPrices(s, ev, id);
    case Deliver(_, _) => ReplyPrices(s, ev, id);
    case _ => NoNewWire(s, ev, id);
  }

  lemma SamePrices(s: State, after: State, id: nat)
    requires after.calls == s.calls || (id in after.calls ==> !(after.calls[id].Busy? && after.calls[id].stage.Sent?))
    ensures PricedNow(s, after, id)
  {
  }

  /** No other event puts anything on the wire. */
  lemma NoNewWire(s: State, ev: Event, id: nat)
    requires ev.Execute? || ev.Reject? || ev.StartReceive? || ev.StartOther? || ev.EndOther? || ev.CacheFee? || ev.Accrue? || ev.LedgerCall?
    ensures PricedNow(s, Next(s, ev), id)
  {
    hide L.Next, L.ReplyOf, L.BalanceOf, SwapsBacked;
  }

  lemma ReplyPrices(s: State, ev: Event, id: nat)
    requires ev.FeeReply? || ev.Deliver?
    ensures PricedNow(s, Next(s, ev), id)
  {
    hide PricedNow;
    if ev.id in s.calls && s.calls[ev.id].Busy? && !Over(s.calls[ev.id].job) && ev.FeeReply? && s.calls[ev.id].stage.AskFee? {
      var job := s.calls[ev.id].job;
      WorkPrices(s, s.(feeCache := s.feeCache[LegOf(s, job).token := CachedFee(ev.fee)]), ev.id, job, ev.now, id);
    } else if ev.id in s.calls && s.calls[ev.id].Busy? && !Over(s.calls[ev.id].job) && ev.Deliver? && s.calls[ev.id].stage.Answered? {
      var job, ok := s.calls[ev.id].job, s.calls[ev.id].stage.ok;
      BookFrame(s, job, ok);
      hide Book, Then;
      WorkPrices(s, Book(s, job, ok), ev.id, Then(job, ok), ev.now, id);
    } else {
      DropPrices(s, ev, id);
    }
  }

  lemma DropPrices(s: State, ev: Event, id: nat)
    requires ev.FeeReply? || ev.Deliver?
    requires ev.id in s.calls && s.calls[ev.id].Busy? && !Over(s.calls[ev.id].job) ==>
               (ev.FeeReply? ==> !s.calls[ev.id].stage.AskFee?) && (ev.Deliver? ==> !s.calls[ev.id].stage.Answered?)
    ensures PricedNow(s, Next(s, ev), id)
  {
    hide Work, Book, Then;
  }

  lemma {:induction false} WorkWires(s: State, own: nat, job: Job, now: nat, id: nat)
    ensures var after := Work(s, own, job, now);
            && after.feeCache == s.feeCache
            && (id != own && id in after.calls ==> id in s.calls && after.calls[id] == s.calls[id])
            && (own in after.calls && after.calls[own].Busy? && after.calls[own].stage.Sent? && !Over(after.calls[own].job)
                && Sends(after.calls[own].job) ==>
                  var token := TokenOf(after.calls[own].job);
                  token in s.feeCache && after.calls[own].stage.fee == s.feeCache[token])
    decreases Rank(job)
  {
    match TurnOf(s, job, now)
    case Closes =>
    case Waits(stage) => LegIs(s, job);
    case Passes(ok) =>
      BookFrame(s, job, ok);
      hide Book, Then, TurnOf;
      WorkWires(Book(s, job, ok), own, Then(job, ok), now, id);
  }

  /** What a lookup leaves in the cache: the ledger's answer, or the standard fee of 10,000 if there was
      none or it does not fit 128 bits; and nothing else ever changes the cache. */
  lemma CacheIsAnswer(s: State, ev: Event)
    requires TasksOk(s)
    ensures ev.CacheFee? ==>
              Next(s, ev).feeCache == s.feeCache[ev.token := if ev.fee.Some? && ev.fee.value <= U128_MAX then ev.fee.value else 10_000]
    ensures ev.FeeReply? && ev.id in s.calls && s.calls[ev.id].Busy? && s.calls[ev.id].stage.AskFee? ==>
              !Over(s.calls[ev.id].job)
              && Next(s, ev).feeCache == s.feeCache[TokenOf(s.calls[ev.id].job) :=
                   if ev.fee.Some? && ev.fee.value <= U128_MAX then ev.fee.value else 10_000]
    ensures !ev.CacheFee? && !ev.FeeReply? ==> Next(s, ev).feeCache == s.feeCache
  {
    match ev
    case StartWithdraw(id, caller, now) =>
      WorkFrame(s.(lock := true, adminFees := ZEROS), id, Withdraw(s.adminFees, ZEROS, 0), now);
      hide Work;
    case StartSwap(id, user, i, j, dx, output, share, now) =>
      WorkFrame(s.(lock := true), id, SwapIn(user, i, j, dx, output, share), now);
      hide Work;
    case StartAdd(id, user, inputs, now) =>
      WorkFrame(s.(lock := true), id, AddIn(user, inputs, 0), now);
      hide Work;
    case StartRemove(id, user, amounts, shares, now) =>
      if Withdrawable(s, amounts, shares) {
        WorkFrame(Debited(s.(lock := true), amounts, shares), id, Payout(user, amounts, 0), now);
      }
      hide Work;
    case StartClaim(id, caller, cid, now) =>
      if cid in s.claims {
        WorkFrame(s.(claims := s.claims - {cid}), id, Collect(cid, s.claims[cid]), now);
      }
      hide Work;
    case FeeReply(id, fee, now) =>
      if id in s.calls && s.calls[id].Busy? {
        var job := s.calls[id].job;
        assert TaskOk(s, s.calls[id]);
        LegIs(s, job);
        WorkFrame(s.(feeCache := s.feeCache[TokenOf(job) := CachedFee(fee)]), id, job, now);
      }
      hide Work;
    case Deliver(id, now) =>
      if id in s.calls && s.calls[id].Busy? && s.calls[id].stage.Answered? {
        var job, ok := s.calls[id].job, s.calls[id].stage.ok;
        assert TaskOk(s, s.calls[id]);
        BookFrame(s, job, ok);
        WorkFrame(Book(s, job, ok), id, Then(job, ok), now);
      }
      hide Work, Book, Then;
    case Execute(_) => hide L.Next, L.ReplyOf, L.BalanceOf;
    case LedgerCall(_, _) => hide L.Next;
    case Accrue(_, _) => hide SwapsBacked;
    case _ =>
  }
}
