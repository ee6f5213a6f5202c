/** Nobody is forgotten: what the pool has taken from a user, or debited for one, is with that user again,
    traded or deposited as asked, on its way, or on the list of claims. And the pool's own books move by
    exactly what its transfers came to. */
module PoolUsers {
  import opened Prelude
  import L = Ledger
  import opened Pool
  import opened PoolBooks
  import opened PoolClaims
  import opened PoolSolvency

  // ---- What a user is owed ----

  /** What a job in flight owes a user of a token, once its current transfer is `done` or not: an input
      until it is traded or deposited, and a payout, refund or claim until it is sent. */
  function OwedTo(job: Job, done: bool, user: Principal, token: Token): nat {
    match job
    case Withdraw(_, _, _) => 0
    case Payout(to, amounts, k) => if to != user || token < k || (token == k && done) then 0 else amounts[token]
    case SwapIn(u, i, _, dx, _, _) => if u == user && token == i && done then dx else 0
    case SwapOut(u, i, _, dx, _, _) => if u == user && token == i && !done then dx else 0
    case AddIn(u, inputs, k) => if u == user && (token < k || (token == k && done)) then inputs[token] else 0
    case Collect(_, claim) => if claim.claimant == user && claim.token == token && !done then claim.amount else 0
    case Ended(_) => 0
  }

  function TaskOwed(user: Principal, token: Token): Task -> int {
    (t: Task) => if t.Busy? then OwedTo(t.job, t.stage == Answered(true), user, token) else 0
  }

  function Worth(claim: Claim, user: Principal, token: Token): nat {
    if claim.claimant == user && claim.token == token then claim.amount else 0
  }

  function ClaimsFor(claims: map<nat, Claim>, user: Principal, token: Token): map<nat, int> {
    map cid | cid in claims :: Worth(claims[cid], user, token)
  }

  ghost function Promised(claims: map<nat, Claim>, user: Principal, token: Token): int {
    Total(ClaimsFor(claims, user, token))
  }

  /** All a user is owed of a token. */
  ghost function Entitled(s: State, user: Principal, token: Token): int {
    Promised(s.claims, user, token) + Sum(s.calls, TaskOwed(user, token))
  }

  lemma PromisedRemove(claims: map<nat, Claim>, cid: nat, user: Principal, token: Token)
    ensures Promised(claims - {cid}, user, token)
         == Promised(claims, user, token) - if cid in claims then Worth(claims[cid], user, token) else 0
  {
    var m := ClaimsFor(claims, user, token);
    assert ClaimsFor(claims - {cid}, user, token) == m - {cid};
    if cid in claims {
      TotalRemove(m, cid);
    } else {
      assert m - {cid} == m;
    }
  }

  lemma PromisedAdd(claims: map<nat, Claim>, cid: nat, claim: Claim, user: Principal, token: Token)
    requires cid !in claims
    ensures Promised(claims[cid := claim], user, token) == Promised(claims, user, token) + Worth(claim, user, token)
  {
    PromisedRemove(claims[cid := claim], cid, user, token);
    assert claims[cid := claim] - {cid} == claims;
  }

  // ---- One transfer's outcome ----

  /** What is put on the list goes where nothing is. */
  predicate NewClaim(s: State, job: Job) {
    (job.Payout? ==> s.nextClaim !in s.claims) && Unlisted(s, job)
  }

  /** The claim that a full list gives up for a new one, if it is this user's. */
  function Dropped(s: State, job: Job, ok: bool, user: Principal, token: Token): nat {
    var oldest := Oldest(s.claims, 0, s.nextClaim);
    if job.Payout? && !ok && |s.claims| >= 10_000 && oldest in s.claims then Worth(s.claims[oldest], user, token) else 0
  }

  /** Whatever the outcome of a transfer, the user it concerns is owed the same after it is booked: a failed
      swap payout owes the input back, a failed pull owes what was pulled before it, a failed payout or
      refund becomes a claim, a failed recovery leaves the claim. Only a full list loses its oldest claim. */
  lemma BookOwed(s: State, job: Job, ok: bool, user: Principal, token: Token)
    requires !Over(job) && JobOk(job) && NewClaim(s, job)
    ensures Promised(Book(s, job, ok).claims, user, token) + OwedTo(Then(job, ok), false, user, token)
         == Promised(s.claims, user, token) + OwedTo(job, ok, user, token) - Dropped(s, job, ok, user, token)
  {
    if job.Payout? && !ok {
      RecordPromises(s, Claim(job.to, job.k, job.amounts[job.k]), user, token);
      hide RecordClaim, Oldest;
    }
    if job.Collect? && !ok {
      PromisedAdd(s.claims, job.cid, job.claim, user, token);
    }
    hide Promised;
  }

  lemma RecordPromises(s: State, claim: Claim, user: Principal, token: Token)
    requires s.nextClaim !in s.claims
    ensures var oldest := Oldest(s.claims, 0, s.nextClaim);
            Promised(RecordClaim(s, claim).claims, user, token)
            == Promised(s.claims, user, token) + Worth(claim, user, token)
               - if |s.claims| >= 10_000 && oldest in s.claims then Worth(s.claims[oldest], user, token) else 0
  {
    var oldest := Oldest(s.claims, 0, s.nextClaim);
    PromisedRemove(s.claims, oldest, user, token);
    PromisedAdd(s.claims, s.nextClaim, claim, user, token);
    PromisedAdd(s.claims - {oldest}, s.nextClaim, claim, user, token);
    hide Promised, Worth, Oldest;
  }

  /** A deposit with nothing left to pull. */
  predicate Deposited(job: Job) {
    job.AddIn? && forall t: Token :: t >= job.k ==> job.inputs[t] == 0
  }

  /** What a job owes when it carries on; a deposit that is complete is the user's share of the pool. */
  function OwedOn(job: Job, user: Principal, token: Token): nat {
    if Deposited(job) then 0 else OwedTo(job, false, user, token)
  }

  /** Nothing, or no more than the ledger's known fee. */
  predicate Idle(s: State, token: Token, amount: nat) {
    amount == 0 || (token in s.feeCache && amount <= s.feeCache[token])
  }

  /** What a user loses to dust when a job carries on: payouts and refunds no larger than the known fee, up
      to the first that is larger or whose fee is not known; and the input of a swap whose output has become
      dust. */
  function DustOf(s: State, job: Job, user: Principal, token: Token): nat {
    match job
    case Payout(to, amounts, k) =>
      if to == user && token >= k && (forall x: Token :: k <= x <= token ==> Idle(s, x, amounts[x])) then amounts[token] else 0
    case SwapOut(u, i, j, dx, output, _) => if u == user && i == token && Idle(s, j, output) then dx else 0
    case _ => 0
  }

  lemma PassOwed(s: State, job: Job, now: nat, user: Principal, token: Token)
    requires TurnOf(s, job, now).Passes? && JobOk(job)
    ensures var ok := TurnOf(s, job, now).ok;
            && !Over(job)
            && OwedTo(job, false, user, token) - DustOf(s, job, user, token)
               == OwedTo(job, ok, user, token) - DustOf(Book(s, job, ok), Then(job, ok), user, token)
            && (Deposited(Then(job, ok)) <==> Deposited(job))
            && (Deposited(job) ==> OwedTo(job, ok, user, token) == OwedTo(Then(job, ok), false, user, token))
            && Dropped(s, job, ok, user, token) == 0
  {
  }

  lemma StopOwed(s: State, job: Job, now: nat, user: Principal, token: Token)
    requires !TurnOf(s, job, now).Passes?
    ensures DustOf(s, job, user, token) == 0
    ensures TurnOf(s, job, now).Waits? ==> !Deposited(job) && !TurnOf(s, job, now).stage.Answered?
  {
    if job.Payout? && job.k < 3 {
      assert !Idle(s, job.k, job.amounts[job.k]);
    }
  }

  /** Carrying on loses a user nothing but dust. */
  lemma {:induction false} WorkOwed(s: State, id: nat, job: Job, now: nat, user: Principal, token: Token)
    requires JobOk(job) && NewClaim(s, job)
    ensures Entitled(Work(s, id, job, now), user, token)
         == Promised(s.claims, user, token) + Sum(s.calls - {id}, TaskOwed(user, token))
            + OwedOn(job, user, token) - DustOf(s, job, user, token)
    decreases Rank(job)
  {
    var turn := TurnOf(s, job, now);
    if turn.Passes? {
      PassOwed(s, job, now, user, token);
    } else {
      StopOwed(s, job, now, user, token);
    }
    hide TurnOf, Sum, Promised;
    match turn
    case Closes => ClosedOwed(s, id, job, user, token);
    case Waits(stage) => WaitOwed(s, id, job, stage, user, token);
    case Passes(ok) =>
      BookFrame(s, job, ok);
      BookOwed(s, job, ok, user, token);
      ThenOk(job, ok);
      ThenNew(s, job, ok);
      hide Book, Then, OwedTo, NewClaim, Deposited, Dropped, DustOf;
      WorkOwed(Book(s, job, ok), id, Then(job, ok), now, user, token);
  }

  lemma ThenNew(s: State, job: Job, ok: bool)
    requires !Over(job) && (ok <==> !job.Collect?) && NewClaim(s, job)
    ensures NewClaim(Book(s, job, ok), Then(job, ok))
  {
  }

  lemma ClosedOwed(s: State, id: nat, job: Job, user: Principal, token: Token)
    requires Over(job)
    ensures Close(s, id, job).calls == s.calls - {id} && Close(s, id, job).claims == s.claims && OwedOn(job, user, token) == 0
  {
  }

  lemma WaitOwed(s: State, id: nat, job: Job, stage: Stage, user: Principal, token: Token)
    requires !stage.Answered?
    ensures Entitled(Wait(s, id, job, stage), user, token)
         == Promised(s.claims, user, token) + Sum(s.calls - {id}, TaskOwed(user, token)) + OwedTo(job, false, user, token)
  {
    SumUpdate(s.calls, id, Busy(job, stage), TaskOwed(user, token));
    hide Sum, Promised, OwedTo;
  }

  // ---- One step ----

  /** Ledgers' fees leave something of everything in flight, and the list of claims is not full. */
  ghost predicate Clean(s: State) {
    |s.claims| < 10_000 && forall id :: id in s.calls && s.calls[id].Busy? ==> DustFree(s, s.calls[id].job)
  }

  /** So it is before the step, and with the fees the step leaves in the cache. */
  ghost predicate CleanStep(s: State, ev: Event) {
    Clean(s) && Clean(s.(feeCache := Next(s, ev).feeCache))
    && (ev.StartAdd? ==> forall t: Token :: Clears(s, t, ev.inputs[t]))
    && (ev.StartSwap? ==> Clears(s, ev.i, ev.dx))
    && (ev.StartWithdraw? ==> forall t: Token :: Clears(s, t, s.adminFees[t]))
  }

  /** What a transfer's success changes. */
  function DoneChange(job: Job, user: Principal, token: Token): int
    requires !Over(job)
  {
    match job
    case SwapIn(u, i, _, dx, _, _) => if u == user && i == token then dx else 0
    case AddIn(u, inputs, k) => if u == user && k == token then inputs[k] else 0
    case Payout(to, amounts, k) => if to == user && k == token then -(amounts[k] as int) else 0
    case SwapOut(u, i, _, dx, _, _) => if u == user && i == token then -(dx as int) else 0
    case Collect(_, claim) => if claim.claimant == user && claim.token == token then -(claim.amount as int) else 0
    case Withdraw(_, _, _) => 0
  }

  /** What a user is owed more, or less, after an event: more by what is pulled from the user and by what a
      removal debits for the user; less by what is sent to the user, by the input of a swap whose output is
      sent, and by a deposit that is complete. A transfer counts when its ledger answers with success. */
  ghost function Change(s: State, ev: Event, user: Principal, token: Token): int
    requires TasksOk(s)
  {
    match ev
    case StartRemove(id, u, amounts, shares, _) =>
      if Free(s, id) && Withdrawable(s, amounts, shares) && u == user then amounts[token] else 0
    case Execute(id) =>
      if !OnWire(s, id) then 0
      else if !Replied(L.ReplyOf(WireLedger(s, id), (ExecuteFrame(s, id); Wire(s, id)))) then 0
      else DoneChange(s.calls[id].job, user, token)
    case Deliver(id, _) =>
      if id in s.calls && s.calls[id].Busy? && s.calls[id].stage == Answered(true) && s.calls[id].job.AddIn? then
        var job := s.calls[id].job;
        if job.user == user && (forall t: Token :: t > job.k ==> job.inputs[t] == 0) then -(job.inputs[token] as int) else 0
      else 0
    case _ => 0
  }

  lemma ResumeOwed(s: State, s1: State, id: nat, job: Job, now: nat, user: Principal, token: Token)
    requires JobOk(job) && NewClaim(s1, job) && s1.calls == s.calls
    ensures Entitled(Work(s1, id, job, now), user, token)
         == Entitled(s, user, token) - Promised(s.claims, user, token) + Promised(s1.claims, user, token)
            - (if id in s.calls then TaskOwed(user, token)(s.calls[id]) else 0)
            + OwedOn(job, user, token) - DustOf(s1, job, user, token)
  {
    WorkOwed(s1, id, job, now, user, token);
    SumRemove(s.calls, id, TaskOwed(user, token));
    hide Work, Sum, Promised, TaskOwed, OwedOn, NewClaim, DustOf;
  }

  /** What an event makes a user lose: dust that a resumed call passes over, and a claim that a full list
      gives up. */
  function Loss(s: State, ev: Event, user: Principal, token: Token): nat {
    match ev
    case FeeReply(id, _, _) =>
      if id in s.calls && s.calls[id].Busy? && s.calls[id].stage.AskFee? then
        DustOf(s.(feeCache := Next(s, ev).feeCache), s.calls[id].job, user, token)
      else 0
    case Deliver(id, _) =>
      if id in s.calls && s.calls[id].Busy? && s.calls[id].stage.Answered? && !Over(s.calls[id].job) then
        var job, ok := s.calls[id].job, s.calls[id].stage.ok;
        DustOf(s, Then(job, ok), user, token) + Dropped(s, job, ok, user, token)
      else 0
    case _ => 0
  }

  lemma StartEntitles(s: State, ev: Event, user: Principal, token: Token)
    requires TasksOk(s) && ClaimsOk(s)
    requires ev.StartWithdraw? || ev.StartSwap? || ev.StartAdd? || ev.StartRemove? || ev.StartClaim?
    ensures Entitled(Next(s, ev), user, token) == Entitled(s, user, token) + Change(s, ev, user, token)
  {
    hide Promised, Sum, TasksOk, Entitled;
    match ev
    case StartWithdraw(id, caller, now) =>
      if Free(s, id) {
        ResumeOwed(s, s.(lock := true, adminFees := ZEROS), id, Withdraw(s.adminFees, ZEROS, 0), now, user, token);
      }
      hide Work;
    case StartSwap(id, u, i, j, dx, output, share, now) =>
      if SwapAllowed(s, id, i, j, dx, output, share) {
        ResumeOwed(s, s.(lock := true), id, SwapIn(u, i, j, dx, output, share), now, user, token);
      }
      hide Work;
    case StartAdd(id, u, inputs, now) =>
      if Free(s, id) {
        ResumeOwed(s, s.(lock := true), id, AddIn(u, inputs, 0), now, user, token);
      }
      hide Work;
    case StartRemove(id, u, amounts, shares, now) =>
      if Free(s, id) && Withdrawable(s, amounts, shares) {
        ResumeOwed(s, Debited(s.(lock := true), amounts, shares), id, Payout(u, amounts, 0), now, user, token);
      }
      hide Work;
    case StartClaim(id, caller, cid, now) =>
      if MayCollect(s, id, caller, cid) {
        PromisedRemove(s.claims, cid, user, token);
        ResumeOwed(s, s.(claims := s.claims - {cid}), id, Collect(cid, s.claims[cid]), now, user, token);
      }
      hide Work;
  }

  lemma DeliverEntitles(s: State, id: nat, now: nat, user: Principal, token: Token)
    requires TasksOk(s) && ClaimsOk(s)
    requires id in s.calls && s.calls[id].Busy? && s.calls[id].stage.Answered?
    ensures var ev := Deliver(id, now);
            Entitled(Next(s, ev), user, token) == Entitled(s, user, token) + Change(s, ev, user, token) - Loss(s, ev, user, token)
  {
    var job, ok := s.calls[id].job, s.calls[id].stage.ok;
    assert TaskOk(s, s.calls[id]);
    DeliverNew(s, id);
    BookFrame(s, job, ok);
    BookOwed(s, job, ok, user, token);
    ThenOk(job, ok);
    DepositChange(s, id, now, user, token);
    DustSame(s, Book(s, job, ok), Then(job, ok), user, token);
    hide Book, Promised, ClaimsOk, TasksOk, NewClaim, Entitled, Work, DustOf, Dropped, OwedOn, Change, Then;
    ResumeOwed(s, Book(s, job, ok), id, Then(job, ok), now, user, token);
  }

  lemma DustSame(a: State, b: State, job: Job, user: Principal, token: Token)
    requires a.feeCache == b.feeCache
    ensures DustOf(a, job, user, token) == DustOf(b, job, user, token)
  {
  }

  lemma DeliverNew(s: State, id: nat)
    requires ClaimsOk(s)
    requires id in s.calls && s.calls[id].Busy? && s.calls[id].stage.Answered? && !Over(s.calls[id].job)
    ensures var job, ok := s.calls[id].job, s.calls[id].stage.ok;
            NewClaim(s, job) && NewClaim(Book(s, job, ok), Then(job, ok))
  {
    var job, ok := s.calls[id].job, s.calls[id].stage.ok;
    if job.Payout? && !ok {
      var oldest := Oldest(s.claims, 0, s.nextClaim);
      hide Oldest;
    }
  }

  lemma DeliverRoomy(s: State, id: nat)
    requires ClaimsOk(s) && |s.claims| < 10_000
    requires id in s.calls && s.calls[id].Busy? && s.calls[id].stage.Answered? && !Over(s.calls[id].job)
    ensures var job, ok := s.calls[id].job, s.calls[id].stage.ok;
            Roomy(s, job, ok) && Unlisted(Book(s, job, ok), Then(job, ok))
  {
  }

  lemma DepositChange(s: State, id: nat, now: nat, user: Principal, token: Token)
    requires TasksOk(s) && id in s.calls && s.calls[id].Busy? && s.calls[id].stage.Answered? && !Over(s.calls[id].job)
    ensures var job, ok := s.calls[id].job, s.calls[id].stage.ok;
            OwedOn(Then(job, ok), user, token) == OwedTo(Then(job, ok), false, user, token) + Change(s, Deliver(id, now), user, token)
  {
  }

  lemma ExecuteEntitles(s: State, id: nat, user: Principal, token: Token)
    requires TasksOk(s) && OnWire(s, id)
    ensures Entitled(Next(s, Execute(id)), user, token) == Entitled(s, user, token) + Change(s, Execute(id), user, token)
  {
    ExecuteFrame(s, id);
    var after := Next(s, Execute(id));
    SumRemove(s.calls, id, TaskOwed(user, token));
    SumUpdate(s.calls, id, after.calls[id], TaskOwed(user, token));
    hide Next, L.Next, L.ReplyOf, Sum, Promised, TasksOk;
  }

  /** Events that change at most one call, and that call only between states that owe the same. */
  lemma TouchEntitles(s: State, ev: Event, user: Principal, token: Token)
    requires TasksOk(s)
    requires ev.Reject? || ev.StartReceive? || ev.StartOther? || ev.EndOther? || (ev.Execute? && !OnWire(s, ev.id))
             || (ev.Deliver? && (ev.id !in s.calls || !s.calls[ev.id].Busy? || !s.calls[ev.id].stage.Answered?))
    ensures Entitled(Next(s, ev), user, token) == Entitled(s, user, token) + Change(s, ev, user, token)
  {
    TouchOwedFrame(s, ev, user, token);
    var after := Next(s, ev);
    SumRemove(s.calls, ev.id, TaskOwed(user, token));
    if ev.id in after.calls {
      SumUpdate(s.calls, ev.id, after.calls[ev.id], TaskOwed(user, token));
    }
    hide Next, Sum, Promised, TaskOwed, TasksOk, OnWire;
  }

  lemma TouchOwedFrame(s: State, ev: Event, user: Principal, token: Token)
    requires TasksOk(s)
    requires ev.Reject? || ev.StartReceive? || ev.StartOther? || ev.EndOther? || (ev.Execute? && !OnWire(s, ev.id))
             || (ev.Deliver? && (ev.id !in s.calls || !s.calls[ev.id].Busy? || !s.calls[ev.id].stage.Answered?))
    ensures var after := Next(s, ev);
            && after.claims == s.claims
            && (after.calls == s.calls
                || after.calls == s.calls - {ev.id} || (ev.id in after.calls && after.calls == s.calls[ev.id := after.calls[ev.id]]))
            && (if ev.id in after.calls then TaskOwed(user, token)(after.calls[ev.id]) else 0)
               == if ev.id in s.calls then TaskOwed(user, token)(s.calls[ev.id]) else 0
  {
    hide L.Next, L.ReplyOf, L.BalanceOf, OwedTo, Work;
    assert ev.id in s.calls ==> TaskOk(s, s.calls[ev.id]);
  }

  lemma FeeReplyEntitles(s: State, ev: Event, user: Principal, token: Token)
    requires TasksOk(s) && ClaimsOk(s) && ev.FeeReply?
    ensures Entitled(Next(s, ev), user, token) == Entitled(s, user, token) - Loss(s, ev, user, token)
  {
    if ev.id in s.calls && s.calls[ev.id].Busy? && s.calls[ev.id].stage.AskFee? {
      var job := s.calls[ev.id].job;
      assert TaskOk(s, s.calls[ev.id]);
      var s1 := s.(feeCache := s.feeCache[LegOf(s, job).token := CachedFee(ev.fee)]);
      WorkFrame(s1, ev.id, job, ev.now);
      assert Next(s, ev) == Work(s1, ev.id, job, ev.now);
      hide Work;
      DustSame(s.(feeCache := Next(s, ev).feeCache), s1, job, user, token);
      assert Sends(job) && !Deposited(job) && NewClaim(s1, job);
      hide Next, DustOf;
      ResumeOwed(s, s1, ev.id, job, ev.now, user, token);
      hide Entitled, Promised, TasksOk, ClaimsOk;
    }
  }

  lemma DustFrame(a: State, b: State, job: Job)
    requires a.feeCache == b.feeCache && DustFree(a, job)
    ensures DustFree(b, job)
  {
  }

  /** On every step, what each user is owed of each token changes by exactly what the event says, less dust
      and claims given up. */
  lemma NextEntitles(s: State, ev: Event, user: Principal, token: Token)
    requires TasksOk(s) && ClaimsOk(s)
    ensures Entitled(Next(s, ev), user, token) == Entitled(s, user, token) + Change(s, ev, user, token) - Loss(s, ev, user, token)
  {
    hide DustOf, Dropped, Entitled;
    match ev
    case StartWithdraw(_, _, _) => StartEntitles(s, ev, user, token);
    case StartSwap(_, _, _, _, _, _, _, _) => StartEntitles(s, ev, user, token);
    case StartAdd(_, _, _, _) => StartEntitles(s, ev, user, token);
    case StartRemove(_, _, _, _, _) => StartEntitles(s, ev, user, token);
    case StartClaim(_, _, _, _) => StartEntitles(s, ev, user, token);
    case FeeReply(_, _, _) => FeeReplyEntitles(s, ev, user, token);
    case Deliver(id, now) =>
      if id in s.calls && s.calls[id].Busy? && s.calls[id].stage.Answered? {
        DeliverEntitles(s, id, now, user, token);
      } else {
        TouchEntitles(s, ev, user, token);
      }
    case Execute(id) =>
      if OnWire(s, id) {
        ExecuteEntitles(s, id, user, token);
      } else {
        TouchEntitles(s, ev, user, token);
      }
    case CacheFee(_, _) => SameEntitles(s, Next(s, ev), user, token);
    case LedgerCall(_, _) =>
      hide L.Next;
      SameEntitles(s, Next(s, ev), user, token);
    case Accrue(_, _) =>
      hide SwapsBacked;
      SameEntitles(s, Next(s, ev), user, token);
    case _ => TouchEntitles(s, ev, user, token);
  }

  lemma SameEntitles(s: State, after: State, user: Principal, token: Token)
    requires after.claims == s.claims && after.calls == s.calls
    ensures Entitled(after, user, token) == Entitled(s, user, token)
  {
    hide Promised, Sum;
  }

  // ---- Every run ----

  ghost predicate Orderly(s: State) {
    TasksOk(s) && ClaimsOk(s)
  }

  lemma {:induction false} OrderlyOnRuns(s: State, evs: seq<Event>)
    requires Orderly(s)
    ensures Orderly(Run(s, evs))
  {
    if evs != [] {
      OrderlyOnRuns(s, evs[..|evs| - 1]);
      hide Next, TasksOk, ClaimsOk;
      NextKeepsTasks(Run(s, evs[..|evs| - 1]), evs[|evs| - 1]);
      NextKeepsClaims(Run(s, evs[..|evs| - 1]), evs[|evs| - 1]);
    }
  }

  /** The changes of a whole run, added up. */
  ghost function Changes(s: State, evs: seq<Event>, user: Principal, token: Token): int
    requires Orderly(s)
  {
    if evs == [] then 0
    else
      OrderlyOnRuns(s, evs[..|evs| - 1]);
      Changes(s, evs[..|evs| - 1], user, token) + Change(Run(s, evs[..|evs| - 1]), evs[|evs| - 1], user, token)
  }

  /** Everything a user lost along the way: dust, and claims a full list gave up. */
  ghost function Losses(s: State, evs: seq<Event>, user: Principal, token: Token): nat {
    if evs == [] then 0
    else Losses(s, evs[..|evs| - 1], user, token) + Loss(Run(s, evs[..|evs| - 1]), evs[|evs| - 1], user, token)
  }

  /** Over every run of every operation, whatever interleaves and whatever fails, each user is owed exactly
      what was pulled from and debited for that user, less what was sent, traded and deposited, and less
      dust and claims that a full list gave up. A refused payout, refund or pull loses nothing else. */
  lemma {:induction false} UsersAreConserved(s: State, evs: seq<Event>, user: Principal, token: Token)
    requires Orderly(s)
    ensures Entitled(Run(s, evs), user, token)
         == Entitled(s, user, token) + Changes(s, evs, user, token) - Losses(s, evs, user, token)
  {
    if evs != [] {
      var init := evs[..|evs| - 1];
      UsersAreConserved(s, init, user, token);
      OrderlyOnRuns(s, init);
      hide Next, Entitled, Change, Loss;
      NextEntitles(Run(s, init), evs[|evs| - 1], user, token);
    }
  }

  /** Nothing is lost by an event that lets nothing fall below a known fee and meets no full list. */
  lemma NoDustNoLoss(s: State, ev: Event, user: Principal, token: Token)
    requires CleanStep(s, ev) && TasksOk(s)
    ensures Loss(s, ev, user, token) == 0
  {
    if ev.Deliver? && ev.id in s.calls && s.calls[ev.id].Busy? && s.calls[ev.id].stage.Answered? && !Over(s.calls[ev.id].job) {
      var job, ok := s.calls[ev.id].job, s.calls[ev.id].stage.ok;
      assert TaskOk(s, s.calls[ev.id]) && DustFree(s, job);
      CleanHasNoDust(s, job, ok, user, token);
      hide Clean, TasksOk, Next;
    } else if ev.FeeReply? && ev.id in s.calls && s.calls[ev.id].Busy? && s.calls[ev.id].stage.AskFee? {
      var job, with := s.calls[ev.id].job, s.(feeCache := Next(s, ev).feeCache);
      assert TaskOk(s, s.calls[ev.id]) && DustFree(with, job);
      hide Next;
      NoDustOf(with, job, user, token);
    } else {
      hide Next;
    }
  }

  lemma CleanHasNoDust(s: State, job: Job, ok: bool, user: Principal, token: Token)
    requires !Over(job) && JobOk(job) && DustFree(s, job)
    ensures DustOf(s, Then(job, ok), user, token) == 0
  {
    ThenDustFree(s, job, ok);
    ThenOk(job, ok);
    BookFrame(s, job, ok);
    DustFrame(Book(s, job, ok), s, Then(job, ok));
    hide Book, Then, DustFree;
    NoDustOf(s, Then(job, ok), user, token);
  }

  lemma NoDustOf(s: State, job: Job, user: Principal, token: Token)
    requires DustFree(s, job) && JobOk(job)
    ensures DustOf(s, job, user, token) == 0
  {
  }

  lemma FreshIsOrderly(self: Principal, admin: Principal, ledgers: Ledgers, user: Principal, token: Token)
    ensures var s := Fresh(self, admin, ledgers);
            Orderly(s) && Entitled(s, user, token) == 0
  {
    var s := Fresh(self, admin, ledgers);
    assert ClaimsFor(s.claims, user, token) == map[] && Values(s.calls, TaskOwed(user, token)) == map[];
  }

  // ---- The pool's own books ----

  /** By how much an event changes what the pool tracks, promises and has in hand of a token: a send
      answered with success takes its amount off, a pull answered with success puts it on, an accepted
      donation puts it on, and nothing else changes it. */
  ghost function LoadChange(s: State, ev: Event, token: Token): int
    requires TasksOk(s)
  {
    match ev
    case Execute(id) =>
      if !OnWire(s, id) then 0
      else if !Replied(L.ReplyOf(WireLedger(s, id), (ExecuteFrame(s, id); Wire(s, id)))) || TokenOf(s.calls[id].job) != token then 0
      else if Sends(s.calls[id].job) then -(GrossOf(s.calls[id].job) as int)
      else GrossOf(s.calls[id].job)
    case Deliver(id, _) =>
      if id in s.calls && s.calls[id].Receiving? && s.calls[id].token == token && DonationAccepted(s, s.calls[id]) then s.calls[id].amount
      else 0
    case _ => 0
  }

  /** The fee share an event sets aside: a swap's when it is booked, a removal's when it is debited. */
  function ShareOf(s: State, ev: Event, token: Token): nat {
    match ev
    case StartRemove(id, _, amounts, shares, _) => if Free(s, id) && Withdrawable(s, amounts, shares) then shares[token] else 0
    case Deliver(id, _) =>
      if id in s.calls && s.calls[id].Busy? && s.calls[id].stage == Answered(true) && s.calls[id].job.SwapOut?
         && s.calls[id].job.j == token then s.calls[id].job.share
      else 0
    case _ => 0
  }

  /** Restoring a failed withdrawal does not saturate. */
  predicate Restores(s: State, ev: Event) {
    ev.Deliver? && ev.id in s.calls && s.calls[ev.id].Busy? && s.calls[ev.id].stage.Answered? ==>
      Restorable(s, s.calls[ev.id].job, s.calls[ev.id].stage.ok)
  }

  lemma ResumeLoads(s: State, s1: State, id: nat, job: Job, now: nat, token: Token)
    requires JobOk(job) && JobBacked(s1, job) && DustFree(s1, job) && Unlisted(s1, job) && s1.calls == s.calls
    ensures Load(Work(s1, id, job, now), token)
         == Load(s, token) - Stock(s, token) + Stock(s1, token)
            - (if id in s.calls then TaskOwes(token)(s.calls[id]) else 0) + Owes(job, false, token)
    ensures Work(s1, id, job, now).accrued == s1.accrued
  {
    WorkOwes(s1, id, job, now, token);
    WorkAccrues(s1, id, job, now);
    SumRemove(s.calls, id, TaskOwes(token));
    hide Work, Sum, Stock, TaskOwes, Owes, DustFree, Unlisted, JobBacked;
  }

  lemma {:induction false} WorkAccrues(s: State, id: nat, job: Job, now: nat)
    requires JobOk(job) && DustFree(s, job)
    ensures Work(s, id, job, now).accrued == s.accrued
    decreases Rank(job)
  {
    var turn := TurnOf(s, job, now);
    if turn.Passes? {
      assert !job.SwapOut?;
      assert Book(s, job, turn.ok).accrued == s.accrued;
      ThenOk(job, turn.ok);
      ThenDustFree(s, job, turn.ok);
      hide TurnOf, Book, Then, DustFree;
      WorkAccrues(Book(s, job, turn.ok), id, Then(job, turn.ok), now);
    }
  }

  ghost predicate BooksMove(s: State, ev: Event, token: Token)
    requires TasksOk(s)
  {
    && Load(Next(s, ev), token) == Load(s, token) + LoadChange(s, ev, token)
    && Next(s, ev).accrued[token] == s.accrued[token] + ShareOf(s, ev, token)
  }

  lemma PullLoads(s: State, ev: Event, token: Token)
    requires TasksOk(s) && CleanStep(s, ev) && (ev.StartSwap? || ev.StartAdd?)
    ensures BooksMove(s, ev, token)
  {
    hide Claimed, Sum, TasksOk, Clean, Load, Work;
    match ev
    case StartSwap(id, u, i, j, dx, output, share, now) =>
      if SwapAllowed(s, id, i, j, dx, output, share) {
        ResumeLoads(s, s.(lock := true), id, SwapIn(u, i, j, dx, output, share), now, token);
      }
    case StartAdd(id, u, inputs, now) =>
      if Free(s, id) {
        ResumeLoads(s, s.(lock := true), id, AddIn(u, inputs, 0), now, token);
      }
  }

  lemma RemoveLoads(s: State, ev: Event, token: Token)
    requires TasksOk(s) && CleanStep(s, ev) && ev.StartRemove?
    ensures BooksMove(s, ev, token)
  {
    hide Claimed, Sum, TasksOk, Clean, Load, Work;
    if Free(s, ev.id) && Withdrawable(s, ev.amounts, ev.shares) {
      ResumeLoads(s, Debited(s.(lock := true), ev.amounts, ev.shares), ev.id, Payout(ev.user, ev.amounts, 0), ev.now, token);
    }
  }

  lemma StartLoads(s: State, ev: Event, token: Token)
    requires TasksOk(s) && CleanStep(s, ev) && (ev.StartWithdraw? || ev.StartClaim?)
    ensures BooksMove(s, ev, token)
  {
    hide Claimed, Sum, TasksOk, Clean, Load, Work;
    match ev
    case StartWithdraw(id, caller, now) =>
      if Free(s, id) {
        ResumeLoads(s, s.(lock := true, adminFees := ZEROS), id, Withdraw(s.adminFees, ZEROS, 0), now, token);
      }
    case StartClaim(id, caller, cid, now) =>
      if MayCollect(s, id, caller, cid) {
        ClaimedRemove(s.claims, cid, token);
        ResumeLoads(s, s.(claims := s.claims - {cid}), id, Collect(cid, s.claims[cid]), now, token);
      }
  }

  /** A reply, booked: nothing is lost or made, and the job can go on. */
  lemma BookedLoads(s: State, id: nat, now: nat, token: Token)
    requires TasksOk(s) && ClaimsOk(s) && SwapsBacked(s) && Clean(s) && Restores(s, Deliver(id, now))
    requires id in s.calls && s.calls[id].Busy? && s.calls[id].stage.Answered?
    ensures var job, ok := s.calls[id].job, s.calls[id].stage.ok;
            && !Over(job)
            && var s1, next := Book(s, job, ok), Then(job, ok);
               && s1.calls == s.calls && JobOk(next) && JobBacked(s1, next) && DustFree(s1, next) && Unlisted(s1, next)
               && Stock(s1, token) + Owes(next, false, token) == Stock(s, token) + Owes(job, ok, token)
               && s1.accrued[token] == s.accrued[token] + ShareOf(s, Deliver(id, now), token)
  {
    hide Stock, Owes;
    var job, ok := s.calls[id].job, s.calls[id].stage.ok;
    assert TaskOk(s, s.calls[id]) && TaskBacked(s, s.calls[id]) && DustFree(s, job);
    DeliverRoomy(s, id);
    BookFrame(s, job, ok);
    BookOwes(s, job, ok, token);
    ThenOk(job, ok);
    ThenBacked(s, job, ok);
    ThenDustFree(s, job, ok);
    assert Book(s, job, ok).accrued[token] == s.accrued[token] + ShareOf(s, Deliver(id, now), token);
  }

  lemma DeliverLoads(s: State, id: nat, now: nat, token: Token)
    requires TasksOk(s) && ClaimsOk(s) && SwapsBacked(s) && Clean(s) && Restores(s, Deliver(id, now))
    requires id in s.calls && s.calls[id].Busy? && s.calls[id].stage.Answered?
    ensures BooksMove(s, Deliver(id, now), token)
  {
    hide Clean, DustFree, Unlisted, Stock, Claimed, TasksOk, ClaimsOk, SwapsBacked, Load, Work, Book, Then, Owes, JobOk, JobBacked;
    BookedLoads(s, id, now, token);
    var job, ok := s.calls[id].job, s.calls[id].stage.ok;
    ResumeLoads(s, Book(s, job, ok), id, Then(job, ok), now, token);
  }

  lemma ReceiveLoads(s: State, id: nat, now: nat, token: Token)
    requires TasksOk(s) && id in s.calls && s.calls[id].Receiving?
    ensures BooksMove(s, Deliver(id, now), token)
  {
    SumRemove(s.calls, id, TaskOwes(token));
    hide Sum, Claimed;
  }

  lemma FeeReplyLoads(s: State, ev: Event, token: Token)
    requires TasksOk(s) && ClaimsOk(s) && SwapsBacked(s) && CleanStep(s, ev) && ev.FeeReply?
    ensures BooksMove(s, ev, token)
  {
    if ev.id in s.calls && s.calls[ev.id].Busy? && s.calls[ev.id].stage.AskFee? {
      var job := s.calls[ev.id].job;
      assert TaskOk(s, s.calls[ev.id]) && TaskBacked(s, s.calls[ev.id]);
      var s1 := s.(feeCache := s.feeCache[LegOf(s, job).token := CachedFee(ev.fee)]);
      WorkFrame(s1, ev.id, job, ev.now);
      assert Next(s, ev) == Work(s1, ev.id, job, ev.now);
      hide Work;
      assert DustFree(s.(feeCache := Next(s, ev).feeCache), job);
      DustFrame(s.(feeCache := Next(s, ev).feeCache), s1, job);
      hide Next, DustFree;
      ResumeLoads(s, s1, ev.id, job, ev.now, token);
      hide Load, Claimed, TasksOk, Clean, SwapsBacked;
    }
  }

  lemma TouchLoads(s: State, ev: Event, token: Token)
    requires TasksOk(s)
    requires ev.Reject? || ev.StartReceive? || ev.StartOther? || ev.EndOther? || (ev.Execute? && !OnWire(s, ev.id))
    ensures BooksMove(s, ev, token)
  {
    TouchFrame(s, ev, token);
    hide Next, Sum, Claimed, TaskOwes, TasksOk, OnWire, TaskOk;
    var after := Next(s, ev);
    SumRemove(s.calls, ev.id, TaskOwes(token));
    if ev.id in after.calls {
      SumUpdate(s.calls, ev.id, after.calls[ev.id], TaskOwes(token));
    }
  }

  lemma ExecuteLoads(s: State, id: nat, token: Token)
    requires TasksOk(s) && OnWire(s, id)
    ensures BooksMove(s, Execute(id), token)
  {
    assert TaskOk(s, s.calls[id]);
    ExecuteLoad(s, id, token);
    ExecuteFrame(s, id);
    LegOwes(s.calls[id].job, token);
    hide Next, L.Next, L.ReplyOf, Load, Owes, TasksOk;
  }

  /** On a clean step the books move by exactly that, and fees accrue by exactly the share. Together with
      the conservation of fees and of what users are owed, this fixes what every outcome does to balances,
      unpaid fees and claims. */
  lemma NextBooksMove(s: State, ev: Event, token: Token)
    requires TasksOk(s) && ClaimsOk(s) && SwapsBacked(s) && CleanStep(s, ev) && Restores(s, ev) && !ev.Accrue?
    ensures BooksMove(s, ev, token)
  {
    match ev
    case StartWithdraw(_, _, _) => StartLoads(s, ev, token);
    case StartSwap(_, _, _, _, _, _, _, _) => PullLoads(s, ev, token);
    case StartAdd(_, _, _, _) => PullLoads(s, ev, token);
    case StartRemove(_, _, _, _, _) => RemoveLoads(s, ev, token);
    case StartClaim(_, _, _, _) => StartLoads(s, ev, token);
    case FeeReply(_, _, _) => FeeReplyLoads(s, ev, token);
    case Deliver(id, now) =>
      if id in s.calls && s.calls[id].Busy? && s.calls[id].stage.Answered? {
        DeliverLoads(s, id, now, token);
      } else if id in s.calls && s.calls[id].Receiving? {
        ReceiveLoads(s, id, now, token);
      } else {
        hide Work, Load;
      }
    case Execute(id) =>
      if OnWire(s, id) {
        ExecuteLoads(s, id, token);
      } else {
        TouchLoads(s, ev, token);
      }
    case CacheFee(_, _) => hide Sum, Claimed;
    case LedgerCall(_, _) => hide Sum, Claimed, L.Next;
    case _ => TouchLoads(s, ev, token);
  }
}
