/** `process_pending` in its own form: one method that runs from the guard to the record, awaiting
    its replies one after the other and updating the canister's fields in between. Every way it can
    run is shown to be a run of the step machine, so all that is proved there holds of it. */
module BotProcess {
  import opened Prelude
  import opened BotTypes
  import opened BotMath
  import opened History
  import opened BotMachine
  import opened BotInvariant

  /** What happens at one await: other messages the canister takes meanwhile, then the reply. */
  datatype Answer = Answer(meanwhile: seq<Event>, reply: Reply, landed: bool, delivered: nat)

  /** Anything but a reply to the awaiting task itself. */
  predicate Foreign(ev: Event, task: nat) {
    !(ev.Resumed? && ev.task == task)
  }

  predicate NotOurs(a: Answer, task: nat) {
    forall i :: 0 <= i < |a.meanwhile| ==> Foreign(a.meanwhile[i], task)
  }

  ghost predicate Script(answers: nat -> Answer, task: nat) {
    forall k: nat :: NotOurs(answers(k), task)
  }

  /** The machine's state right after a claimed run has decided. */
  function After(core: Core, task: nat, v: Verdict): Sys {
    match v
    case Wait(pc) => Sys(core, true, map[task := pc])
    case File(r) => Sys(FileRecord(core, r), false, map[])
  }

  function AfterOutcome(task: nat, o: Outcome): Sys {
    match o
    case Suspend(core, pc) => Sys(core, true, map[task := pc])
    case Finish(core) => Sys(core, false, map[])
  }

  lemma RunAppend(s: Sys, evs: seq<Event>, ev: Event)
    ensures Run(s, evs + [ev]) == Next(Run(s, evs), ev)
  {
    assert (evs + [ev])[..|evs|] == evs;
  }

  lemma ResumedStep(core: Core, task: nat, pc: Pc, ev: Event)
    requires ev.Resumed? && ev.task == task
    ensures Next(Sys(core, true, map[task := pc]), ev) == AfterOutcome(task, Advance(core, pc, ev))
  {
    hide Advance;
    assert map[task := pc] - {task} == map[];
  }

  /** `later` goes on from a nonempty `evs` without changing where it began. */
  predicate Continues(evs: seq<Event>, later: seq<Event>) {
    |evs| > 0 ==> |later| > 0 && later[0] == evs[0]
  }

  class Bot {
    var config: Option<Config>
    var stats: Stats
    var pending: seq<Vault>
    var retryCounts: map<nat, nat>
    var records: map<nat, Record>
    var nextId: nat
    var processing: bool
    ghost var runs: map<nat, RunLog>
    ghost var world: World

    ghost function View(): Core
      reads this
    {
      Core(config, stats, pending, retryCounts, Hist(records, nextId), runs, world)
    }

    /** The events so far have brought the machine to this task's suspension point. */
    ghost predicate At(s: Sys, evs: seq<Event>, task: nat, pc: Pc)
      reads this
    {
      Run(s, evs) == Sys(View(), true, map[task := pc]) && !IsSweep(pc) && RecordIdOf(pc) in runs
    }

    /** The events so far have brought the machine to the end of this run. */
    ghost predicate Over(s: Sys, evs: seq<Event>)
      reads this
    {
      Run(s, evs) == Sys(View(), false, map[])
    }

    method WriteRecord(r: Record)
      modifies this`records
      ensures records == old(records)[r.id := r]
    {
      records := records[r.id := r];
    }

    /** A message that arrives while a task is suspended. The guard turns away ticks and sweeps. */
    method Meanwhile(ev: Event, ghost task: nat, ghost pc: Pc)
      requires Foreign(ev, task)
      modifies this`config, this`pending, this`world
      ensures Sys(View(), true, map[task := pc]) == Next(Sys(old(View()), true, map[task := pc]), ev)
    {
      match ev
      case Notify(caller, vaults) =>
        if config.Some? && config.value.backend == caller {
          pending := vaults;
        }
      case SetConfig(cfg) => config := Some(cfg);
      case Deposit(amount) => world := world.(wallet := world.wallet + amount);
      case FeeChange(fee) => world := world.(ledgerFee := fee);
      case _ =>
    }

    /** One await: let the other messages through, then take the reply. */
    method Await(a: Answer, ghost task: nat, ghost pc: Pc, ghost s: Sys, ghost evs: seq<Event>)
      returns (reply: Reply, ghost evs': seq<Event>)
      requires At(s, evs, task, pc)
      requires NotOurs(a, task)
      modifies this`config, this`pending, this`world, this`runs
      ensures reply == a.reply && RecordIdOf(pc) in runs && Continues(evs, evs')
      ensures Run(s, evs') == AfterOutcome(task, Resume(View(), pc, reply))
    {
      hide Run, Next, Resume, Effect;
      evs' := evs;
      for i := 0 to |a.meanwhile|
        invariant At(s, evs', task, pc) && Continues(evs, evs')
        invariant runs == old(runs)
      {
        Meanwhile(a.meanwhile[i], task, pc);
        RunAppend(s, evs', a.meanwhile[i]);
        evs' := evs' + [a.meanwhile[i]];
      }
      ghost var before := View();
      ghost var ev := Resumed(task, a.reply, a.landed, a.delivered);
      world := Effect(world, pc, a.landed, a.delivered);
      runs := Observe(View(), pc, a.reply).runs;
      RunAppend(s, evs', ev);
      evs' := evs' + [ev];
      reply := a.reply;
      assert View() == Observe(before.(world := Effect(before.world, pc, a.landed, a.delivered)), pc, a.reply);
      ResumedStep(before, task, pc, ev);
    }

    /** The swap did not happen: return the collateral, then cancel the claim, with retries. */
    method CleanUp(job: Job, answers: nat -> Answer, k: nat, ghost task: nat, ghost s: Sys, ghost evs: seq<Event>)
      returns (ghost evs': seq<Event>)
      requires Script(answers, task)
      requires Run(s, evs) == After(View(), task, SwapAborted(job)) && job.recordId in runs
      modifies this`config, this`pending, this`world, this`runs, this`records
      ensures Continues(evs, evs') && Over(s, evs')
    {
      hide Run, Next, Effect, Observe, NotOurs;
      evs' := evs;
      var send := SatSub(job.collateral, FeeOr(job.cfg.icpFee));
      if send == 0 {
        WriteRecord(SwapFailedRecord(job, true, None));
        return;
      }
      var returned;
      returned, evs' := Await(answers(k), task, AwaitReturn(job), s, evs');
      if !returned.Done? {
        WriteRecord(SwapFailedRecord(job, true, None));
        return;
      }
      var succeeded, attempts;
      succeeded, attempts, evs' := CancelClaim(job, answers, k + 1, task, s, evs');
      WriteRecord(SwapFailedRecord(job, false, if succeeded then None else Some(attempts)));
    }

    /** Ask for the cancellation, up to three times. */
    method CancelClaim(job: Job, answers: nat -> Answer, k: nat, ghost task: nat, ghost s: Sys, ghost evs: seq<Event>)
      returns (succeeded: bool, attempts: nat, ghost evs': seq<Event>)
      requires Script(answers, task) && At(s, evs, task, AwaitCancel(job, 0))
      modifies this`config, this`pending, this`world, this`runs
      ensures Continues(evs, evs') && job.recordId in runs
      ensures Run(s, evs') == After(View(), task, File(SwapFailedRecord(job, false, if succeeded then None else Some(attempts))))
    {
      hide Run, Next, Effect, Observe, NotOurs;
      succeeded, attempts, evs' := false, 0, evs;
      while attempts < CANCEL_ATTEMPTS && !succeeded
        invariant attempts <= CANCEL_ATTEMPTS && job.recordId in runs && Continues(evs, evs')
        invariant !succeeded && attempts < CANCEL_ATTEMPTS ==> At(s, evs', task, AwaitCancel(job, attempts))
        invariant succeeded || attempts == CANCEL_ATTEMPTS ==>
                    Run(s, evs') == After(View(), task, File(SwapFailedRecord(job, false, if succeeded then None else Some(attempts))))
        decreases CANCEL_ATTEMPTS - attempts, !succeeded
      {
        var reply;
        reply, evs' := Await(answers(k + attempts), task, AwaitCancel(job, attempts), s, evs');
        attempts := attempts + 1;
        succeeded := reply.Done?;
      }
    }

    /** Ask for the confirmation, up to five times. */
    method ConfirmClaim(job: Job, res: Reservation, answers: nat -> Answer, k: nat,
                        ghost task: nat, ghost s: Sys, ghost evs: seq<Event>)
      returns (confirmed: bool, retries: nat, ghost evs': seq<Event>)
      requires Script(answers, task) && At(s, evs, task, AwaitConfirm(job, res, 0))
      modifies this`config, this`pending, this`world, this`runs
      ensures Continues(evs, evs') && job.recordId in runs && 1 <= retries <= CONFIRM_ATTEMPTS
      ensures confirmed ==> Run(s, evs') == After(View(), task, Decide(AwaitConfirm(job, res, retries - 1), Done))
      ensures !confirmed ==> Run(s, evs') == After(View(), task, File(ConfirmFailedRecord(job, res, retries)))
    {
      hide Run, Next, Effect, Observe, NotOurs;
      confirmed, retries, evs' := false, 0, evs;
      while retries < CONFIRM_ATTEMPTS && !confirmed
        invariant retries <= CONFIRM_ATTEMPTS && job.recordId in runs && Continues(evs, evs')
        invariant confirmed ==> retries > 0
        invariant !confirmed && retries < CONFIRM_ATTEMPTS ==> At(s, evs', task, AwaitConfirm(job, res, retries))
        invariant confirmed ==> Run(s, evs') == After(View(), task, Decide(AwaitConfirm(job, res, retries - 1), Done))
        invariant !confirmed && retries == CONFIRM_ATTEMPTS ==>
                    Run(s, evs') == After(View(), task, File(ConfirmFailedRecord(job, res, retries)))
        decreases CONFIRM_ATTEMPTS - retries, !confirmed
      {
        var reply;
        reply, evs' := Await(answers(k + retries), task, AwaitConfirm(job, res, retries), s, evs');
        retries := retries + 1;
        confirmed := reply.Done?;
      }
    }

    /** Transfer once, confirm with retries, pay the bonus, count the success. */
    method PayOut(job: Job, res: Reservation, answers: nat -> Answer, k: nat,
                  ghost task: nat, ghost s: Sys, ghost evs: seq<Event>)
      returns (ghost evs': seq<Event>)
      requires Script(answers, task)
      requires job.recordId in runs
      requires Run(s, evs) == After(View(), task,
                 if SendAmount(job, res) == 0 then File(TransferFailedRecord(job, res)) else Wait(AwaitTransfer(job, res)))
      modifies this`config, this`pending, this`world, this`runs, this`records, this`stats
      ensures Continues(evs, evs') && Over(s, evs')
    {
      hide Run, Next, Effect, Observe, NotOurs;
      evs' := evs;
      var send := SatSub(res.toTransfer, FeeOr(job.cfg.ckusdcFee));
      if send == 0 {
        WriteRecord(TransferFailedRecord(job, res));
        return;
      }
      var sent;
      sent, evs' := Await(answers(k), task, AwaitTransfer(job, res), s, evs');
      if !sent.Done? {
        WriteRecord(TransferFailedRecord(job, res));
        return;
      }
      var confirmed, retries;
      confirmed, retries, evs' := ConfirmClaim(job, res, answers, k + 1, task, s, evs');
      if !confirmed {
        WriteRecord(ConfirmFailedRecord(job, res, retries));
        return;
      }
      evs' := PayBonus(job, res, retries, answers(k + 1 + retries), task, s, evs');
    }

    /** The claim is confirmed: what is left of the collateral goes to the treasury, sent or not. */
    method PayBonus(job: Job, res: Reservation, retries: nat, a: Answer, ghost task: nat, ghost s: Sys, ghost evs: seq<Event>)
      returns (ghost evs': seq<Event>)
      requires NotOurs(a, task) && job.recordId in runs && retries > 0
      requires Run(s, evs) == After(View(), task, Decide(AwaitConfirm(job, res, retries - 1), Done))
      modifies this`config, this`pending, this`world, this`runs, this`records, this`stats
      ensures Continues(evs, evs') && Over(s, evs')
    {
      hide Run, Next, Effect, Observe, NotOurs;
      evs' := evs;
      var bonus := SatSub(job.collateral, job.swapAmount);
      if bonus > 0 && SatSub(bonus, FeeOr(job.cfg.icpFee)) > 0 {
        var ignored;
        ignored, evs' := Await(a, task, AwaitTreasury(job, res, retries), s, evs');
      }
      WriteRecord(CompletedRecord(job, res, retries));
      stats := Stats(stats.debtCovered + job.debt, stats.collateralReceived + job.collateral,
                     stats.toTreasury + bonus, stats.eventsCount + 1);
    }

    /** Everything after the claim was granted. */
    method Liquidate(job: Job, answers: nat -> Answer, k: nat, ghost task: nat, ghost s: Sys, ghost evs: seq<Event>)
      returns (ghost evs': seq<Event>)
      requires Script(answers, task) && At(s, evs, task, AwaitBalanceBefore(job))
      modifies this`config, this`pending, this`world, this`runs, this`records, this`stats
      ensures Continues(evs, evs') && Over(s, evs')
    {
      hide Run, Next, Effect, Observe, NotOurs;
      var reply;
      reply, evs' := Await(answers(k), task, AwaitBalanceBefore(job), s, evs);
      var before := BeforeOf(reply);
      if !job.cfg.poolSet || job.cfg.zeroForOne.None? {
        evs' := CleanUp(job, answers, k + 1, task, s, evs');
        return;
      }
      reply, evs' := Await(answers(k + 1), task, AwaitQuote(job, before), s, evs');
      if !reply.Value? || ClampU64(reply.n) == 0 {
        evs' := CleanUp(job, answers, k + 2, task, s, evs');
        return;
      }
      var minOutput := ApplySlippage(ClampU64(reply.n), job.cfg.maxSlippageBps);
      evs' := SwapAndPay(job, before, minOutput, answers, k, task, s, evs');
    }

    /** The quote is in: swap, read the balance again, and spend what this claim earned. */
    method SwapAndPay(job: Job, before: nat, minOutput: nat, answers: nat -> Answer, k: nat,
                      ghost task: nat, ghost s: Sys, ghost evs: seq<Event>)
      returns (ghost evs': seq<Event>)
      requires Script(answers, task) && At(s, evs, task, AwaitSwap(job, before, minOutput))
      modifies this`config, this`pending, this`world, this`runs, this`records, this`stats
      ensures Continues(evs, evs') && Over(s, evs')
    {
      hide Run, Next, Effect, Observe, NotOurs;
      evs' := evs;
      var reply;
      reply, evs' := Await(answers(k + 2), task, AwaitSwap(job, before, minOutput), s, evs');
      if !reply.Value? {
        evs' := CleanUp(job, answers, k + 3, task, s, evs');
        return;
      }
      var router := ClampU64(reply.n);
      reply, evs' := Await(answers(k + 3), task, AwaitBalanceAfter(job, before, router), s, evs');
      var res := ComputeReservation(router, before, AfterOf(reply, before, router));
      evs' := PayOut(job, res, answers, k + 4, task, s, evs');
    }

    /** One timer tick. `evs'` is the run of the machine that this call carries out. */
    method ProcessPending(now: nat, answers: nat -> Answer, ghost task: nat) returns (ghost evs': seq<Event>)
      requires Script(answers, task)
      modifies this
      ensures |evs'| > 0 && evs'[0] == Tick(task, now)
      ensures Sys(View(), processing, map[]) == Run(Sys(old(View()), old(processing), map[]), evs')
      // An idle bot with everything on file is left idle with everything on file.
      ensures !old(processing) && Filed(old(View()), old(nextId)) ==> !processing && Filed(View(), nextId)
    {
      hide Filed;
      ghost var s := Sys(View(), processing, map[]);
      evs' := [Tick(task, now)];
      assert Run(s, evs') == Next(s, Tick(task, now)) by { RunAppend(s, [], Tick(task, now)); }
      if processing {
        return;
      }
      processing := true;
      ghost var rest;
      rest := Proceed(now, answers, task, s, evs');
      evs' := rest;
      processing := false;
      if Filed(s.core, s.core.hist.nextId) {
        GoodOnRuns(s, evs');
      }
    }

    /** The claim was refused: file it, and either queue the vault again or give up on it. */
    method Refuse(vault: Vault, cfg: Config, id: nat, now: nat, prior: nat, reply: Reply, ghost task: nat)
      requires !reply.Claimed?
      modifies this`records, this`retryCounts, this`pending
      ensures AfterOutcome(task, AfterClaim(old(View()), AwaitClaim(vault, cfg, id, now, prior), reply)) == Sys(View(), false, map[])
    {
      match NextRetryAction(prior, CLAIM_RETRY_LIMIT)
      case Retry(count) =>
        WriteRecord(Record(id, vault.vaultId, now, ClaimFailed, 0, 0, 0, 0, 0, 0, 0, Some(ClaimRetrying(count)), 0));
        retryCounts := retryCounts[vault.vaultId := count];
        if !Queued(pending, vault.vaultId) {
          pending := [vault] + pending;
        }
      case GiveUp =>
        WriteRecord(Record(id, vault.vaultId, now, ClaimFailed, 0, 0, 0, 0, 0, 0, 0, Some(ClaimGaveUp), 0));
        retryCounts := retryCounts - {vault.vaultId};
    }

    /** What the guard protects. */
    method Proceed(now: nat, answers: nat -> Answer, ghost task: nat, ghost s: Sys, ghost evs: seq<Event>)
      returns (ghost evs': seq<Event>)
      requires Script(answers, task)
      requires s == Sys(View(), false, map[]) && evs == [Tick(task, now)] && Run(s, evs) == Next(s, Tick(task, now))
      modifies this`config, this`pending, this`world, this`runs, this`records, this`stats, this`nextId, this`retryCounts
      ensures Continues(evs, evs') && Over(s, evs')
    {
      evs' := evs;
      if |pending| == 0 {
        return;
      }
      var vault := pending[|pending| - 1];
      pending := pending[..|pending| - 1];
      if config.None? {
        return;
      }
      var cfg := config.value;
      var prior := Get(retryCounts, vault.vaultId);
      var id := nextId;
      nextId := id + 1;
      runs := runs[id := RunLog(cfg, vault.vaultId, now, [])];
      ghost var pc := AwaitClaim(vault, cfg, id, now, prior);
      var reply;
      reply, evs' := Await(answers(0), task, pc, s, evs');
      match reply
      case Claimed(collateral, debt, price) =>
        retryCounts := retryCounts - {vault.vaultId};
        var job := Job(cfg, vault.vaultId, id, now, collateral, debt, price, CalculateSwapAmount(collateral, debt, price));
        evs' := Liquidate(job, answers, 1, task, s, evs');
      case _ => Refuse(vault, cfg, id, now, prior, reply, task);
    }
  }
}
