/** The pool never owes more than it holds: what it tracks, what it has promised in claims and what it
    has debited or pulled but not yet settled is covered by its real balance at each token's ledger. */
module PoolSolvency {
  import opened Prelude
  import L = Ledger
  import R = LedgerRuns
  import opened Pool
  import opened PoolBooks

  /** What the ledger really holds for the pool. */
  function Held(s: State, token: Token): nat {
    L.Funds(s.ledgers[token].balances, Account(s))
  }

  // ---- What is owed ----

  /** What a job still has to account for, beyond the books, once its current transfer is `done` or not.
      Negative where the books still show what is already gone: a swap is booked after its payout. */
  function Owes(job: Job, done: bool, token: Token): int {
    match job
    case Withdraw(taken, _, k) => if token < k || (token == k && done) then 0 else taken[token]
    case Payout(_, amounts, k) => if token < k || (token == k && done) then 0 else amounts[token]
    case SwapIn(_, i, _, dx, _, _) => if done && token == i then dx else 0
    case SwapOut(_, i, j, dx, output, _) => if token == i then dx else if done && token == j then -(output as int) else 0
    case AddIn(_, inputs, k) => if token < k || (token == k && done) then inputs[token] else 0
    case Collect(_, claim) => if token == claim.token && !done then claim.amount else 0
    case Ended(_) => 0
  }

  function TaskOwes(token: Token): Task -> int {
    (t: Task) => if t.Busy? then Owes(t.job, t.stage == Answered(true), token) else 0
  }

  function ClaimValues(claims: map<nat, Claim>, token: Token): map<nat, nat> {
    map cid | cid in claims :: if claims[cid].token == token then claims[cid].amount else 0
  }

  /** All that is promised of a token on the list of claims. */
  ghost function Claimed(claims: map<nat, Claim>, token: Token): int {
    Total(ClaimValues(claims, token))
  }

  ghost function Stock(s: State, token: Token): int {
    s.balances[token] + s.adminFees[token] + Claimed(s.claims, token)
  }

  ghost function Load(s: State, token: Token): int {
    Stock(s, token) + Sum(s.calls, TaskOwes(token))
  }

  ghost predicate Covered(s: State, token: Token) {
    Load(s, token) <= Held(s, token)
  }

  // ---- Claims ----

  lemma ClaimedRemove(claims: map<nat, Claim>, cid: nat, token: Token)
    ensures Claimed(claims - {cid}, token)
         == Claimed(claims, token) - if cid in claims && claims[cid].token == token then claims[cid].amount else 0
  {
    var m := ClaimValues(claims, token);
    assert ClaimValues(claims - {cid}, token) == m - {cid};
    if cid in claims {
      TotalRemove(m, cid);
    } else {
      assert m - {cid} == m;
    }
  }

  lemma ClaimedAdd(claims: map<nat, Claim>, cid: nat, claim: Claim, token: Token)
    ensures Claimed(claims[cid := claim], token)
         <= Claimed(claims, token) + if claim.token == token then claim.amount else 0
    ensures cid !in claims ==>
              Claimed(claims[cid := claim], token) == Claimed(claims, token) + if claim.token == token then claim.amount else 0
  {
    ClaimedRemove(claims[cid := claim], cid, token);
    ClaimedRemove(claims, cid, token);
    assert claims[cid := claim] - {cid} == claims - {cid};
  }

  // ---- Carrying on ----

  /** What is put on the list goes where nothing is, and pushes nothing off. */
  predicate Roomy(s: State, job: Job, ok: bool) {
    && (job.Payout? && !ok ==> |s.claims| < 10_000 && s.nextClaim !in s.claims)
    && (job.Collect? && !ok ==> job.cid !in s.claims)
  }

  /** A claim being recovered is not on the list. */
  predicate Unlisted(s: State, job: Job) {
    job.Collect? ==> job.cid !in s.claims
  }

  /** Whatever a transfer's outcome, booking it and going on leaves no more to account for than before; and
      exactly as much, unless a full list of claims loses its oldest or a restored fee saturates. */
  lemma BookOwes(s: State, job: Job, ok: bool, token: Token)
    requires !Over(job) && JobOk(job) && JobBacked(s, job)
    ensures Stock(Book(s, job, ok), token) + Owes(Then(job, ok), false, token) <= Stock(s, token) + Owes(job, ok, token)
    ensures Roomy(s, job, ok) && Restorable(s, job, ok) ==>
              Stock(Book(s, job, ok), token) + Owes(Then(job, ok), false, token) == Stock(s, token) + Owes(job, ok, token)
  {
    if job.Payout? && !ok {
      RecordOwes(s, Claim(job.to, job.k, job.amounts[job.k]), token);
    }
    if job.Collect? && !ok {
      ClaimedAdd(s.claims, job.cid, job.claim, token);
    }
    hide Claimed, RecordClaim;
  }

  lemma RecordOwes(s: State, claim: Claim, token: Token)
    ensures var after := RecordClaim(s, claim);
            var more := if claim.token == token then claim.amount else 0;
            && Claimed(after.claims, token) <= Claimed(s.claims, token) + more
            && (|s.claims| < 10_000 && s.nextClaim !in s.claims ==> Claimed(after.claims, token) == Claimed(s.claims, token) + more)
            && after.balances == s.balances && after.adminFees == s.adminFees
  {
    var oldest := Oldest(s.claims, 0, s.nextClaim);
    ClaimedRemove(s.claims, oldest, token);
    ClaimedAdd(s.claims, s.nextClaim, claim, token);
    ClaimedAdd(s.claims - {oldest}, s.nextClaim, claim, token);
    hide Claimed;
  }

  /** The ledger's fee, if it is known, leaves something of every amount that is owed. */
  predicate Clears(s: State, token: Token, amount: nat) {
    amount == 0 || token !in s.feeCache || s.feeCache[token] < amount
  }

  /** None of the amounts a job may have to send is dust. */
  predicate DustFree(s: State, job: Job) {
    match job
    case Withdraw(taken, _, _) => forall t: Token :: Clears(s, t, taken[t])
    case Payout(_, amounts, _) => forall t: Token :: Clears(s, t, amounts[t])
    case SwapIn(_, i, j, dx, output, _) => Clears(s, i, dx) && Clears(s, j, output)
    case SwapOut(_, i, j, dx, output, _) => Clears(s, i, dx) && Clears(s, j, output)
    case AddIn(_, inputs, _) => forall t: Token :: Clears(s, t, inputs[t])
    case _ => true
  }

  lemma ThenDustFree(s: State, job: Job, ok: bool)
    requires !Over(job) && DustFree(s, job)
    ensures DustFree(Book(s, job, ok), Then(job, ok))
  {
    BookFrame(s, job, ok);
    hide Book;
  }

  /** Passing a transfer over sheds obligations; without dust, only empty ones are passed over. */
  lemma PassOwes(s: State, job: Job, now: nat, token: Token)
    requires TurnOf(s, job, now) == Passes(true)
    ensures !Over(job) && Owes(job, true, token) <= Owes(job, false, token)
    ensures DustFree(s, job) && JobOk(job) ==> Owes(job, true, token) == Owes(job, false, token)
  {
  }

  lemma ThenBacked(s: State, job: Job, ok: bool)
    requires !Over(job) && JobBacked(s, job)
    ensures JobBacked(Book(s, job, ok), Then(job, ok))
  {
  }

  lemma CloseOwes(s: State, id: nat, job: Job, token: Token)
    requires Over(job)
    ensures Stock(Close(s, id, job), token) == Stock(s, token) + Owes(job, false, token)
    ensures Close(s, id, job).calls == s.calls - {id}
  {
    hide Claimed;
  }

  lemma {:induction false} WorkOwes(s: State, id: nat, job: Job, now: nat, token: Token)
    requires JobOk(job) && JobBacked(s, job)
    ensures var before := Stock(s, token) + Sum(s.calls - {id}, TaskOwes(token)) + Owes(job, false, token);
            && Load(Work(s, id, job, now), token) <= before
            && (DustFree(s, job) && Unlisted(s, job) ==> Load(Work(s, id, job, now), token) == before)
    decreases Rank(job)
  {
    var turn := TurnOf(s, job, now);
    if turn == Passes(true) {
      PassOwes(s, job, now, token);
    }
    hide TurnOf, Sum, Stock;
    match turn
    case Closes => CloseOwes(s, id, job, token);
    case Waits(stage) =>
      TurnIsFresh(s, job, now);
      WaitOwes(s, id, job, stage, token);
    case Passes(ok) =>
      BookFrame(s, job, ok);
      BookOwes(s, job, ok, token);
      ThenOk(job, ok);
      ThenBacked(s, job, ok);
      if DustFree(s, job) {
        ThenDustFree(s, job, ok);
      }
      ThenRoomy(s, job, ok);
      hide Book, Then, Owes, DustFree, Roomy, Unlisted, JobBacked;
      WorkOwes(Book(s, job, ok), id, Then(job, ok), now, token);
  }

  /** A step that succeeds leaves the list as it is; what fails without being sent is only a recovery. */
  lemma ThenRoomy(s: State, job: Job, ok: bool)
    requires !Over(job) && (ok <==> !job.Collect?)
    ensures Restorable(s, job, ok)
    ensures Unlisted(s, job) ==> Roomy(s, job, ok) && Unlisted(Book(s, job, ok), Then(job, ok))
  {
  }

  lemma TurnIsFresh(s: State, job: Job, now: nat)
    ensures TurnOf(s, job, now).Waits? ==> !TurnOf(s, job, now).stage.Answered?
  {
  }

  lemma WaitOwes(s: State, id: nat, job: Job, stage: Stage, token: Token)
    requires !stage.Answered?
    ensures Load(Wait(s, id, job, stage), token)
         == Stock(s, token) + Sum(s.calls - {id}, TaskOwes(token)) + Owes(job, false, token)
  {
    SumUpdate(s.calls, id, Busy(job, stage), TaskOwes(token));
    hide Sum, Claimed, Owes;
  }

  /** A job started or picked up keeps the cover if the step that leads to it adds no load. */
  lemma WorkCovers(s: State, s1: State, id: nat, job: Job, now: nat, token: Token)
    requires Covered(s, token) && JobOk(job) && JobBacked(s1, job)
    requires s1.calls == s.calls && s1.self == s.self && s1.ledgers == s.ledgers
    requires Stock(s1, token) + Owes(job, false, token)
          <= Stock(s, token) + if id in s.calls then TaskOwes(token)(s.calls[id]) else 0
    ensures Covered(Work(s1, id, job, now), token)
  {
    WorkFrame(s1, id, job, now);
    WorkOwes(s1, id, job, now, token);
    SumRemove(s.calls, id, TaskOwes(token));
    hide Work, Sum, Stock, Owes, TaskOwes;
  }

  // ---- Swaps in flight stay backed ----

  /** Guarded work meets only recoveries beside it, which swap nothing; a recovery touches no balance. */
  lemma WorkBacks(s: State, s1: State, id: nat, job: Job, now: nat)
    requires LockOk(s) && SwapsBacked(s) && JobBacked(s1, job) && s1.calls == s.calls
    requires Guarded(job) ==> !s.lock || (id in s.calls && GuardedTask(s.calls[id]))
    requires !Guarded(job) ==> s1.balances == s.balances
    ensures SwapsBacked(Work(s1, id, job, now))
  {
    WorkFrame(s1, id, job, now);
    WorkBacksOwn(s1, id, job, now);
    var after := Work(s1, id, job, now);
    hide Work;
    forall i | i in after.calls && i != id ensures TaskBacked(after, after.calls[i]) {
      assert TaskBacked(s, s.calls[i]);
      if Guarded(job) {
        assert !GuardedTask(s.calls[i]);
      }
    }
  }

  lemma {:induction false} WorkBacksOwn(s: State, id: nat, job: Job, now: nat)
    requires JobBacked(s, job)
    ensures var after := Work(s, id, job, now);
            id in after.calls ==> TaskBacked(after, after.calls[id])
    decreases Rank(job)
  {
    var turn := TurnOf(s, job, now);
    hide TurnOf;
    if turn.Passes? {
      ThenBacked(s, job, turn.ok);
      hide Book, Then;
      WorkBacksOwn(Book(s, job, turn.ok), id, Then(job, turn.ok), now);
    }
  }

  lemma SetBacks(s: State, after: State, id: nat)
    requires SwapsBacked(s) && after.balances == s.balances
    requires forall i :: i in after.calls && i != id ==> i in s.calls && after.calls[i] == s.calls[i]
    requires id in after.calls && after.calls[id].Busy? ==> id in s.calls && s.calls[id].Busy? && s.calls[id].job == after.calls[id].job
    ensures SwapsBacked(after)
  {
    forall i | i in after.calls ensures TaskBacked(after, after.calls[i]) {
      assert i in s.calls ==> TaskBacked(s, s.calls[i]);
    }
  }

  lemma NextBacks(s: State, ev: Event)
    requires LockOk(s) && TasksOk(s) && SwapsBacked(s)
    ensures SwapsBacked(Next(s, ev))
  {
    match ev
    case StartWithdraw(_, _, _) => StartBacks(s, ev);
    case StartSwap(_, _, _, _, _, _, _, _) => StartBacks(s, ev);
    case StartAdd(_, _, _, _) => StartBacks(s, ev);
    case StartRemove(_, _, _, _, _) => StartBacks(s, ev);
    case StartClaim(_, _, _, _) => StartBacks(s, ev);
    case FeeReply(id, fee, now) => ReplyBacks(s, ev);
    case Deliver(id, now) => ReplyBacks(s, ev);
    case Execute(id) =>
      hide L.Next, L.ReplyOf, L.BalanceOf, LockOk, TasksOk;
      SetBacks(s, Next(s, ev), id);
    case Reject(id) => SetBacks(s, Next(s, ev), id);
    case StartReceive(id, _, _) => SetBacks(s, Next(s, ev), id);
    case StartOther(id) => SetBacks(s, Next(s, ev), id);
    case EndOther(id) => SetBacks(s, Next(s, ev), id);
    case LedgerCall(_, _) =>
      hide L.Next;
      SetBacks(s, Next(s, ev), 0);
    case CacheFee(_, _) => SetBacks(s, Next(s, ev), 0);
    case Accrue(_, _) =>
  }

  lemma StartBacks(s: State, ev: Event)
    requires LockOk(s) && SwapsBacked(s)
    requires ev.StartWithdraw? || ev.StartSwap? || ev.StartAdd? || ev.StartRemove? || ev.StartClaim?
    ensures SwapsBacked(Next(s, ev))
  {
    match ev
    case StartWithdraw(id, caller, now) =>
      if Free(s, id) {
        WorkBacks(s, s.(lock := true, adminFees := ZEROS), id, Withdraw(s.adminFees, ZEROS, 0), now);
      }
      hide Work, SwapsBacked;
    case StartSwap(id, user, i, j, dx, output, share, now) =>
      if SwapAllowed(s, id, i, j, dx, output, share) {
        WorkBacks(s, s.(lock := true), id, SwapIn(user, i, j, dx, output, share), now);
      }
      hide Work, SwapsBacked;
    case StartAdd(id, user, inputs, now) =>
      if Free(s, id) {
        WorkBacks(s, s.(lock := true), id, AddIn(user, inputs, 0), now);
      }
      hide Work, SwapsBacked;
    case StartRemove(id, user, amounts, shares, now) =>
      if Free(s, id) && Withdrawable(s, amounts, shares) {
        WorkBacks(s, Debited(s.(lock := true), amounts, shares), id, Payout(user, amounts, 0), now);
      }
      hide Work, SwapsBacked;
    case StartClaim(id, caller, cid, now) =>
      if MayCollect(s, id, caller, cid) {
        WorkBacks(s, s.(claims := s.claims - {cid}), id, Collect(cid, s.claims[cid]), now);
      }
      hide Work, SwapsBacked;
  }

  lemma ReplyBacks(s: State, ev: Event)
    requires LockOk(s) && TasksOk(s) && SwapsBacked(s) && (ev.FeeReply? || ev.Deliver?)
    ensures SwapsBacked(Next(s, ev))
  {
    if ev.id in s.calls {
      var t := s.calls[ev.id];
      assert TaskOk(s, t) && TaskBacked(s, t);
      if ev.FeeReply? && t.Busy? && t.stage.AskFee? && !Over(t.job) {
        WorkBacks(s, s.(feeCache := s.feeCache[LegOf(s, t.job).token := CachedFee(ev.fee)]), ev.id, t.job, ev.now);
      } else if ev.Deliver? && t.Busy? && t.stage.Answered? && !Over(t.job) {
        BookFrame(s, t.job, t.stage.ok);
        ThenBacked(s, t.job, t.stage.ok);
        WorkBacks(s, Book(s, t.job, t.stage.ok), ev.id, Then(t.job, t.stage.ok), ev.now);
      } else if ev.Deliver? && t.Receiving? && t.seen.Some? {
        forall i | i in Next(s, ev).calls ensures TaskBacked(Next(s, ev), s.calls[i]) {
          assert TaskBacked(s, s.calls[i]);
        }
      }
    }
    hide Work, Book, Then, TaskBacked, LockOk, TasksOk;
  }

  // ---- The environment ----

  /** No sum in the ledger overflows. A send is priced with at least the ledger's fee and its reply is
      not lost; a pull draws on someone else and is not taken for an earlier one. */
  ghost predicate FairSend(s: State, job: Job, call: L.Call, fee: nat)
    requires !Over(job)
  {
    var ledger := s.ledgers[TokenOf(job)];
    && R.Exact(ledger, call)
    && (call.Transfer? ==> ledger.fee <= fee && ledger.phantomFailures == 0)
    && (call.TransferFrom? ==> R.PayerOf(call) != Account(s) && !L.Seen(ledger, R.KeyOf(call)))
  }

  /** Nobody else draws on the pool's account, sends and pulls are executed on fair terms, and what the
      admin declares to be a donation is really spare. */
  ghost predicate Fair(s: State, ev: Event)
    requires TasksOk(s)
  {
    && (ev.LedgerCall? ==>
          && R.Exact(s.ledgers[ev.token], ev.call)
          && (ev.call.Transfer? || ev.call.TransferFrom? ==> R.PayerOf(ev.call) != Account(s)))
    && (ev.Execute? && ev.id in s.calls ==>
          var t := s.calls[ev.id];
          assert TaskOk(s, t);
          t.Busy? && t.stage.Sent? ==> FairSend(s, t.job, t.stage.call, t.stage.fee))
    && (ev.Deliver? && ev.id in s.calls && DonationAccepted(s, s.calls[ev.id]) ==>
          Load(s, s.calls[ev.id].token) + s.calls[ev.id].amount <= Held(s, s.calls[ev.id].token))
  }

  // ---- One send, exactly ----

  /** The state in which a call has its transfer on the wire. */
  ghost predicate OnWire(s: State, id: nat) {
    id in s.calls && s.calls[id].Busy? && s.calls[id].stage.Sent? && TaskOk(s, s.calls[id])
  }

  function Wire(s: State, id: nat): L.Call
    requires OnWire(s, id)
  {
    s.calls[id].stage.call
  }

  function WireToken(s: State, id: nat): Token
    requires OnWire(s, id)
  {
    TokenOf(s.calls[id].job)
  }

  function WireLedger(s: State, id: nat): L.LedgerState
    requires OnWire(s, id)
  {
    s.ledgers[WireToken(s, id)]
  }

  /** What execution changes: this token's ledger, and the call's stage. */
  lemma ExecuteFrame(s: State, id: nat)
    requires OnWire(s, id)
    ensures var ledger, call := WireLedger(s, id), Wire(s, id);
            && (call.Transfer? || call.TransferFrom?)
            && Next(s, Execute(id)) ==
               s.(ledgers := s.ledgers[WireToken(s, id) := L.Next(ledger, call)],
                  calls := s.calls[id := Busy(s.calls[id].job, Answered(Replied(L.ReplyOf(ledger, call))))])
  {
    LegIs(s, s.calls[id].job);
    hide L.Next, L.ReplyOf, LegOf;
  }

  /** How the load moves when the reply is in. */
  lemma ExecuteLoad(s: State, id: nat, token: Token)
    requires OnWire(s, id)
    ensures var job := s.calls[id].job;
            var call := Wire(s, id);
            && (call.Transfer? || call.TransferFrom?)
            && Load(Next(s, Execute(id)), token)
               == Load(s, token) - Owes(job, false, token)
                  + Owes(job, Replied(L.ReplyOf(WireLedger(s, id), call)), token)
  {
    ExecuteFrame(s, id);
    var after := Next(s, Execute(id));
    SumRemove(s.calls, id, TaskOwes(token));
    SumUpdate(s.calls, id, after.calls[id], TaskOwes(token));
    hide Next, L.Next, L.ReplyOf, Sum, Claimed, Owes;
  }

  /** What the current transfer is worth to the load: a send answered with success takes its amount off,
      a pull answered with success puts its amount on, for its own token only. */
  lemma LegOwes(job: Job, token: Token)
    requires !Over(job) && JobOk(job)
    ensures Owes(job, true, token) - Owes(job, false, token)
         == if token != TokenOf(job) then 0 else if Sends(job) then -(GrossOf(job) as int) else GrossOf(job)
  {
  }

  /** Did the transfer on the wire land? */
  ghost predicate Lands(s: State, id: nat)
    requires OnWire(s, id)
  {
    R.Commits(WireLedger(s, id), Wire(s, id))
  }

  /** The effect of a send to someone else, at the ledger of its own token and nowhere else. Landed: the
      one it is owed to, the user, claimant or admin, has the whole amount less the fee the send was priced
      with, and the pool's account has dropped by that and the real fee, so with equal fees by exactly the
      whole amount. Not landed, Duplicate included: nothing has moved. */
  lemma SendExact(s: State, id: nat)
    requires OnWire(s, id) && Wire(s, id).Transfer? && R.Exact(WireLedger(s, id), Wire(s, id))
    requires PartyOf(s, s.calls[id].job) != s.self && GrossOf(s.calls[id].job) <= U128_MAX
    ensures var job, fee := s.calls[id].job, s.calls[id].stage.fee;
            var token, ledger := TokenOf(job), s.ledgers[TokenOf(job)];
            var party := L.Account(PartyOf(s, job), None);
            var after := Next(s, Execute(id));
            && fee <= GrossOf(job)
            && L.Funds(after.ledgers[token].balances, party)
               == L.Funds(ledger.balances, party) + (if Lands(s, id) then GrossOf(job) - fee else 0)
            && Held(after, token) == Held(s, token) - (if Lands(s, id) then GrossOf(job) - fee + ledger.fee else 0)
            && (Lands(s, id) && ledger.fee == fee ==> Held(after, token) == Held(s, token) - GrossOf(job))
            && (Lands(s, id) ==> (after.calls[id].stage == Answered(false) <==> ledger.phantomFailures > 0))
            && forall other: Token :: other != token ==> after.ledgers[other] == s.ledgers[other]
  {
    var ledger, call := WireLedger(s, id), Wire(s, id);
    ExecuteFrame(s, id);
    assert Wired(s, s.calls[id].job, call, s.calls[id].stage.fee);
    R.TransferMoves(ledger, call, Account(s));
    R.TransferMoves(ledger, call, call.arg.to);
    if Lands(s, id) {
      R.ExactMoves(ledger, call);
      R.CommitCases(ledger, call);
    }
    hide Next, L.Next, L.ReplyOf, R.Commits, R.Exact;
  }

  /** The exact price of a lost reply: a send that landed but is reported failed leaves the pool covered
      if and only if its spare holdings reach what was sent and the real fee, since the debit will be
      put back, or promised again, although the money is gone. */
  lemma LostReplyCoveredIff(s: State, id: nat)
    requires OnWire(s, id) && Wire(s, id).Transfer? && R.Exact(WireLedger(s, id), Wire(s, id))
    requires PartyOf(s, s.calls[id].job) != s.self && GrossOf(s.calls[id].job) <= U128_MAX
    requires Lands(s, id) && WireLedger(s, id).phantomFailures > 0
    ensures var token := WireToken(s, id);
            Covered(Next(s, Execute(id)), token)
            <==> Load(s, token) + Wire(s, id).arg.amount + WireLedger(s, id).fee <= Held(s, token)
  {
    SendExact(s, id);
    ExecuteLoad(s, id, WireToken(s, id));
    ExecuteFrame(s, id);
    assert Wired(s, s.calls[id].job, Wire(s, id), s.calls[id].stage.fee);
    hide Next, L.Next, Load, R.Commits, R.Exact;
  }

  /** The exact price of taking a pull's Duplicate for success: nothing came in, yet the amount will be
      credited, so the pool stays covered if and only if its spare holdings reach it. */
  lemma DuplicatePullCoveredIff(s: State, id: nat)
    requires OnWire(s, id) && Wire(s, id).TransferFrom? && L.Seen(WireLedger(s, id), R.KeyOf(Wire(s, id)))
    requires R.ReachesDedup(WireLedger(s, id), Wire(s, id))
    ensures var token := WireToken(s, id);
            Covered(Next(s, Execute(id)), token)
            <==> Load(s, token) + GrossOf(s.calls[id].job) <= Held(s, token)
  {
    var ledger, call := WireLedger(s, id), Wire(s, id);
    ExecuteFrame(s, id);
    R.SeenBlocks(ledger, call);
    ExecuteLoad(s, id, WireToken(s, id));
    LegOwes(s.calls[id].job, WireToken(s, id));
    hide Next, L.Next, Load, L.ReplyOf, Owes;
  }

  /** The exact price of an accepted donation: the pool stays covered if and only if its spare holdings
      reach the amount. */
  lemma DonationCoveredIff(s: State, id: nat, now: nat)
    requires id in s.calls && DonationAccepted(s, s.calls[id])
    ensures var t := s.calls[id];
            Covered(Next(s, Deliver(id, now)), t.token) <==> Load(s, t.token) + t.amount <= Held(s, t.token)
  {
    var t := s.calls[id];
    SumRemove(s.calls, id, TaskOwes(t.token));
    hide Sum, Claimed;
  }

  /** The check it must pass looks at the balance alone, so the pool's own unpaid fees can be donated to
      it: with holdings just covering what is owed, any amount up to those fees is accepted, and the pool
      then owes more than it holds. */
  lemma FeesDonatedTwice(s: State, id: nat, now: nat)
    requires LockOk(s) && TasksOk(s) && id in s.calls && s.calls[id].Receiving? && s.calls[id].seen.Some?
    requires var t := s.calls[id];
             t.seen.value == Held(s, t.token) == Load(s, t.token) && 0 < t.amount <= s.adminFees[t.token]
    ensures DonationAccepted(s, s.calls[id]) && !Covered(Next(s, Deliver(id, now)), s.calls[id].token)
  {
    var t := s.calls[id];
    assert Claimed(s.claims, t.token) >= 0 by {
      TotalBounds(ClaimValues(s.claims, t.token), 0);
    }
    assert Sum(s.calls, TaskOwes(t.token)) >= 0 by {
      assert GuardedTask(t);
      assert forall i :: i in s.calls && i != id ==> !GuardedTask(s.calls[i]) && TaskOk(s, s.calls[i]);
      SumNonNegative(s.calls, TaskOwes(t.token));
    }
    assert DonationAccepted(s, t);
    DonationCoveredIff(s, id, now);
  }

  // ---- Every step ----

  lemma ExecuteCovers(s: State, id: nat, token: Token)
    requires Covered(s, token) && OnWire(s, id) && FairSend(s, s.calls[id].job, Wire(s, id), s.calls[id].stage.fee)
    ensures Covered(Next(s, Execute(id)), token)
  {
    var job, ledger, call := s.calls[id].job, WireLedger(s, id), Wire(s, id);
    ExecuteFrame(s, id);
    ExecuteLoad(s, id, token);
    LegOwes(job, token);
    hide Next, L.Next, L.ReplyOf, Load, Owes;
    if token == WireToken(s, id) {
      LedgerSide(s, id);
    }
  }

  /** A fair transfer lowers the account by no more than its success takes off the load, and raises it
      by no less than its success puts on. */
  lemma LedgerSide(s: State, id: nat)
    requires OnWire(s, id) && FairSend(s, s.calls[id].job, Wire(s, id), s.calls[id].stage.fee)
    ensures var ledger, call, job := WireLedger(s, id), Wire(s, id), s.calls[id].job;
            && (call.Transfer? || call.TransferFrom?)
            && var after := L.Funds(L.Next(ledger, call).balances, Account(s));
               var moved := if Replied(L.ReplyOf(ledger, call)) then GrossOf(job) else 0;
               && (Sends(job) ==> after >= Held(s, TokenOf(job)) - moved)
               && (!Sends(job) ==> after >= Held(s, TokenOf(job)) + moved)
  {
    var ledger, call := WireLedger(s, id), Wire(s, id);
    R.TransferMoves(ledger, call, Account(s));
    R.CommitCases(ledger, call);
    if R.Commits(ledger, call) {
      R.ExactMoves(ledger, call);
    } else if call.TransferFrom? {
      UnseenNotDuplicate(ledger, call);
    }
    assert call.TransferFrom? ==> GrossOf(s.calls[id].job) <= U128_MAX;
    hide L.Next, L.ReplyOf, R.Commits, R.Exact;
  }

  lemma UnseenNotDuplicate(ledger: L.LedgerState, call: L.Call)
    requires call.TransferFrom? && !L.Seen(ledger, R.KeyOf(call)) && !R.Commits(ledger, call)
    ensures L.ReplyOf(ledger, call).Err? && !L.ReplyOf(ledger, call).error.Duplicate?
  {
  }

  /** A ledger call that does not draw on an account cannot lower it. */
  lemma OthersOnlyAdd(ledger: L.LedgerState, call: L.Call, account: L.Account)
    requires call.Transfer? || call.TransferFrom? ==> R.PayerOf(call) != account
    requires R.Exact(ledger, call)
    ensures L.Funds(L.Next(ledger, call).balances, account) >= L.Funds(ledger.balances, account)
  {
    if call.Transfer? || call.TransferFrom? {
      R.TransferMoves(ledger, call, account);
      if R.Commits(ledger, call) {
        R.ExactMoves(ledger, call);
      }
      hide L.Next, R.Commits, R.Exact;
    }
  }

  lemma StartCovers(s: State, ev: Event, token: Token)
    requires Covered(s, token)
    requires ev.StartWithdraw? || ev.StartSwap? || ev.StartAdd? || ev.StartRemove? || ev.StartClaim?
    ensures Covered(Next(s, ev), token)
  {
    hide Claimed;
    match ev
    case StartWithdraw(id, caller, now) =>
      if Free(s, id) {
        WorkCovers(s, s.(lock := true, adminFees := ZEROS), id, Withdraw(s.adminFees, ZEROS, 0), now, token);
      }
      hide Work, Covered;
    case StartSwap(id, user, i, j, dx, output, share, now) =>
      if SwapAllowed(s, id, i, j, dx, output, share) {
        WorkCovers(s, s.(lock := true), id, SwapIn(user, i, j, dx, output, share), now, token);
      }
      hide Work, Covered;
    case StartAdd(id, user, inputs, now) =>
      if Free(s, id) {
        WorkCovers(s, s.(lock := true), id, AddIn(user, inputs, 0), now, token);
      }
      hide Work, Covered;
    case StartRemove(id, user, amounts, shares, now) =>
      if Free(s, id) && Withdrawable(s, amounts, shares) {
        WorkCovers(s, Debited(s.(lock := true), amounts, shares), id, Payout(user, amounts, 0), now, token);
      }
      hide Work, Covered;
    case StartClaim(id, caller, cid, now) =>
      if MayCollect(s, id, caller, cid) {
        ClaimedRemove(s.claims, cid, token);
        WorkCovers(s, s.(claims := s.claims - {cid}), id, Collect(cid, s.claims[cid]), now, token);
      }
      hide Work, Covered;
  }

  lemma ReplyCovers(s: State, ev: Event, token: Token)
    requires TasksOk(s) && SwapsBacked(s) && Covered(s, token) && Fair(s, ev) && (ev.FeeReply? || ev.Deliver?)
    ensures Covered(Next(s, ev), token)
  {
    if ev.id in s.calls {
      var t := s.calls[ev.id];
      assert TaskOk(s, t) && TaskBacked(s, t);
      if ev.FeeReply? && t.Busy? && t.stage.AskFee? && !Over(t.job) {
        WorkCovers(s, s.(feeCache := s.feeCache[LegOf(s, t.job).token := CachedFee(ev.fee)]), ev.id, t.job, ev.now, token);
      } else if ev.Deliver? && t.Busy? && t.stage.Answered? && !Over(t.job) {
        BookFrame(s, t.job, t.stage.ok);
        ThenBacked(s, t.job, t.stage.ok);
        ThenOk(t.job, t.stage.ok);
        BookOwes(s, t.job, t.stage.ok, token);
        hide Stock, Owes, Book, Then;
        WorkCovers(s, Book(s, t.job, t.stage.ok), ev.id, Then(t.job, t.stage.ok), ev.now, token);
      } else if ev.Deliver? && t.Receiving? && t.seen.Some? {
        DonationCovers(s, ev.id, ev.now, token);
      }
    }
    hide Work, Covered, Book, Then, TasksOk, SwapsBacked;
  }

  lemma DonationCovers(s: State, id: nat, now: nat, token: Token)
    requires TasksOk(s) && Covered(s, token) && id in s.calls && s.calls[id].Receiving? && s.calls[id].seen.Some?
    requires Fair(s, Deliver(id, now))
    ensures Covered(Next(s, Deliver(id, now)), token)
  {
    SumRemove(s.calls, id, TaskOwes(token));
    hide Sum, Claimed;
  }

  lemma NextCovers(s: State, ev: Event, token: Token)
    requires TasksOk(s) && SwapsBacked(s) && Covered(s, token) && Fair(s, ev)
    ensures Covered(Next(s, ev), token)
  {
    match ev
    case StartWithdraw(_, _, _) => StartCovers(s, ev, token);
    case StartSwap(_, _, _, _, _, _, _, _) => StartCovers(s, ev, token);
    case StartAdd(_, _, _, _) => StartCovers(s, ev, token);
    case StartRemove(_, _, _, _, _) => StartCovers(s, ev, token);
    case StartClaim(_, _, _, _) => StartCovers(s, ev, token);
    case FeeReply(_, _, _) => ReplyCovers(s, ev, token);
    case Deliver(_, _) => ReplyCovers(s, ev, token);
    case Execute(id) =>
      if OnWire(s, id) {
        ExecuteCovers(s, id, token);
      } else {
        TouchCovers(s, ev, token);
      }
    case Reject(_) => TouchCovers(s, ev, token);
    case StartReceive(_, _, _) => TouchCovers(s, ev, token);
    case StartOther(_) => TouchCovers(s, ev, token);
    case EndOther(_) => TouchCovers(s, ev, token);
    case CacheFee(_, _) => hide Sum, Claimed;
    case Accrue(_, _) => hide Sum, Claimed, SwapsBacked;
    case LedgerCall(t, call) =>
      OthersOnlyAdd(s.ledgers[t], call, Account(s));
      hide Sum, Claimed, L.Next;
  }

  /** Events that change at most one call, and that call only between states that owe the same. */
  lemma TouchCovers(s: State, ev: Event, token: Token)
    requires TasksOk(s) && Covered(s, token)
    requires ev.Reject? || ev.StartReceive? || ev.StartOther? || ev.EndOther? || (ev.Execute? && !OnWire(s, ev.id))
    ensures Covered(Next(s, ev), token)
  {
    TouchFrame(s, ev, token);
    var after := Next(s, ev);
    SumRemove(s.calls, ev.id, TaskOwes(token));
    if ev.id in after.calls {
      SumUpdate(s.calls, ev.id, after.calls[ev.id], TaskOwes(token));
    }
    hide Next, Sum, Claimed, TaskOwes, TasksOk;
  }

  lemma TouchFrame(s: State, ev: Event, token: Token)
    requires TasksOk(s)
    requires ev.Reject? || ev.StartReceive? || ev.StartOther? || ev.EndOther? || (ev.Execute? && !OnWire(s, ev.id))
    ensures var after := Next(s, ev);
            && after.balances == s.balances && after.adminFees == s.adminFees && after.claims == s.claims
            && after.ledgers == s.ledgers && after.self == s.self && after.accrued == s.accrued
            && (after.calls == s.calls
                || after.calls == s.calls - {ev.id} || (ev.id in after.calls && after.calls == s.calls[ev.id := after.calls[ev.id]]))
            && (if ev.id in after.calls then TaskOwes(token)(after.calls[ev.id]) else 0)
               == if ev.id in s.calls then TaskOwes(token)(s.calls[ev.id]) else 0
  {
    hide L.Next, L.ReplyOf, L.BalanceOf, Owes;
    assert ev.id in s.calls ==> TaskOk(s, s.calls[ev.id]);
  }

  // ---- Every run ----

  ghost predicate Solvent(s: State) {
    LockOk(s) && TasksOk(s) && SwapsBacked(s) && forall token: Token :: Covered(s, token)
  }

  ghost predicate FairRun(s: State, evs: seq<Event>) {
    forall i :: 0 <= i < |evs| ==> TasksOk(Run(s, evs[..i])) ==> Fair(Run(s, evs[..i]), evs[i])
  }

  lemma NextSolvent(s: State, ev: Event)
    requires Solvent(s) && Fair(s, ev)
    ensures Solvent(Next(s, ev))
  {
    hide Next, Covered, Fair, LockOk, TasksOk, SwapsBacked;
    NextKeepsLock(s, ev);
    NextKeepsTasks(s, ev);
    NextBacks(s, ev);
    forall token: Token ensures Covered(Next(s, ev), token) {
      NextCovers(s, ev, token);
    }
  }

  /** Whatever interleaves - swaps, deposits, removals, withdrawals, refunds, recoveries - and through
      success, Duplicate, refusal and dust alike, what the pool tracks and owes never exceeds what it
      really holds, as long as the ledgers treat it fairly. */
  lemma {:induction false} SolventOnRuns(s: State, evs: seq<Event>)
    requires Solvent(s) && FairRun(s, evs)
    ensures Solvent(Run(s, evs))
  {
    if evs != [] {
      var init := evs[..|evs| - 1];
      forall i | 0 <= i < |init| && TasksOk(Run(s, init[..i])) ensures Fair(Run(s, init[..i]), init[i]) {
        assert init[..i] == evs[..i];
      }
      SolventOnRuns(s, init);
      assert evs[..|evs| - 1] == init;
      NextSolvent(Run(s, init), evs[|evs| - 1]);
    }
  }

  /** Whenever the lock is free this is the plain statement: balances, unpaid fees and claims together
      are in the pool's account, whatever recoveries are under way. */
  lemma UnlockedMeansFunded(s: State, token: Token)
    requires Solvent(s) && !s.lock
    ensures s.balances[token] + s.adminFees[token] + Claimed(s.claims, token) <= Held(s, token)
    ensures s.balances[token] <= Held(s, token)
  {
    assert Covered(s, token);
    assert forall id :: id in s.calls ==> !GuardedTask(s.calls[id]) && TaskOk(s, s.calls[id]);
    SumNonNegative(s.calls, TaskOwes(token));
    TotalBounds(ClaimValues(s.claims, token), 0);
    hide Sum;
  }

  lemma FreshIsSolvent(self: Principal, admin: Principal, ledgers: Ledgers)
    ensures Solvent(Fresh(self, admin, ledgers))
  {
    var s := Fresh(self, admin, ledgers);
    forall token: Token ensures Covered(s, token) {
      assert Values(s.calls, TaskOwes(token)) == map[];
      assert ClaimValues(s.claims, token) == map[];
    }
  }
}
