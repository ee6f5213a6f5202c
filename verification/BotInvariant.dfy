/** What every step of the bot keeps: one task at a time, calls in the only legal order, one
    record per id, totals that match the records. */
module BotInvariant {
  import opened Prelude
  import opened BotTypes
  import opened BotMath
  import opened History
  import opened BotMachine

  // ---- Reading a transcript ----

  datatype Kind = KClaim | KBalance | KQuote | KSwap | KReturn | KCancel | KTransfer | KConfirm | KTreasury

  function KindOf(c: Call): Kind {
    match c
    case Claim(_) => KClaim
    case Balance => KBalance
    case Quote(_) => KQuote
    case Swap(_, _) => KSwap
    case Return(_) => KReturn
    case Cancel(_) => KCancel
    case Transfer(_) => KTransfer
    case Confirm(_) => KConfirm
    case Treasury(_) => KTreasury
  }

  ghost predicate Asked(tr: seq<Exchange>, k: Kind) {
    exists i :: 0 <= i < |tr| && KindOf(tr[i].call) == k
  }

  ghost predicate Did(tr: seq<Exchange>, k: Kind) {
    exists i :: 0 <= i < |tr| && KindOf(tr[i].call) == k && tr[i].reply.Done?
  }

  lemma AskedAppend(tr: seq<Exchange>, e: Exchange, k: Kind)
    ensures Asked(tr + [e], k) <==> Asked(tr, k) || KindOf(e.call) == k
    ensures Did(tr + [e], k) <==> Did(tr, k) || (KindOf(e.call) == k && e.reply.Done?)
  {
    var all := tr + [e];
    assert all[|tr|] == e;
    if Asked(tr, k) {
      var i :| 0 <= i < |tr| && KindOf(tr[i].call) == k;
      assert all[i] == tr[i];
    }
    if Did(tr, k) {
      var i :| 0 <= i < |tr| && KindOf(tr[i].call) == k && tr[i].reply.Done?;
      assert all[i] == tr[i];
    }
  }

  /** The claim was granted. */
  ghost predicate Won(tr: seq<Exchange>) {
    |tr| > 0 && tr[0].call.Claim? && tr[0].reply.Claimed?
  }

  /** As far as the replies tell, the backend still holds this claim open. */
  ghost predicate ClaimOpen(tr: seq<Exchange>) {
    Won(tr) && !Did(tr, KCancel) && !Did(tr, KConfirm)
  }

  /** When a run may make a call, given all it has been told: cancel only after a successful
      return, confirm only after a successful transfer, never both, treasury only after a
      confirm, and no transfer unless the pre-swap balance was read. */
  ghost predicate MayAsk(tr: seq<Exchange>, k: Kind) {
    && (k != KClaim ==> Won(tr))
    && (k == KCancel ==> Did(tr, KReturn) && !Asked(tr, KTransfer) && !Asked(tr, KConfirm))
    && (k == KConfirm ==> Did(tr, KTransfer) && !Asked(tr, KReturn) && !Asked(tr, KCancel))
    && (k == KTreasury ==> Did(tr, KConfirm))
    && (k == KTransfer ==> |tr| > 1 && tr[1].call == Balance && ReadOk(tr[1].reply))
  }

  ghost predicate Ordered(tr: seq<Exchange>) {
    forall i :: 0 <= i < |tr| ==> MayAsk(tr[..i], KindOf(tr[i].call))
  }

  lemma OrderedAppend(tr: seq<Exchange>, e: Exchange)
    requires Ordered(tr) && MayAsk(tr, KindOf(e.call))
    ensures Ordered(tr + [e])
  {
    var all := tr + [e];
    forall i | 0 <= i < |all| ensures MayAsk(all[..i], KindOf(all[i].call)) {
      if i < |tr| {
        assert all[..i] == tr[..i];
      } else {
        assert all[..i] == tr;
      }
    }
  }

  // ---- What a suspended run knows ----

  ghost predicate KnowsClaim(tr: seq<Exchange>, job: Job) {
    && |tr| >= 1
    && tr[0] == Exchange(Claim(job.vaultId), Claimed(job.collateral, job.debt, job.price))
    && job.swapAmount == CalculateSwapAmount(job.collateral, job.debt, job.price)
  }

  ghost predicate KnowsBefore(tr: seq<Exchange>, job: Job, before: nat) {
    KnowsClaim(tr, job) && |tr| >= 2 && tr[1].call == Balance && before == BeforeOf(tr[1].reply)
  }

  ghost predicate KnowsQuote(tr: seq<Exchange>, job: Job, before: nat, minOutput: nat) {
    && KnowsBefore(tr, job, before)
    && |tr| >= 3 && tr[2].call == Quote(job.swapAmount) && tr[2].reply.Value?
    && minOutput == ApplySlippage(ClampU64(tr[2].reply.n), job.cfg.maxSlippageBps)
  }

  ghost predicate KnowsSwap(tr: seq<Exchange>, job: Job, before: nat, minOutput: nat, router: nat) {
    && KnowsQuote(tr, job, before, minOutput)
    && |tr| >= 4 && tr[3].call == Swap(job.swapAmount, minOutput) && tr[3].reply.Value?
    && router == ClampU64(tr[3].reply.n)
  }

  /** The whole swap leg, as the transcript shows it. */
  ghost predicate KnowsReservation(tr: seq<Exchange>, job: Job, res: Reservation) {
    && |tr| >= 5 && tr[1].call == Balance && tr[2].reply.Value? && tr[3].reply.Value? && tr[4].call == Balance
    && var before := BeforeOf(tr[1].reply);
       var router := ClampU64(tr[3].reply.n);
       && KnowsSwap(tr, job, before, ApplySlippage(ClampU64(tr[2].reply.n), job.cfg.maxSlippageBps), router)
       && res == ComputeReservation(router, before, AfterOf(tr[4].reply, before, router))
       && SendAmount(job, res) > 0
  }

  ghost predicate KnowsTransfer(tr: seq<Exchange>, job: Job, res: Reservation) {
    KnowsReservation(tr, job, res) && |tr| >= 6 && tr[5] == Exchange(Transfer(SendAmount(job, res)), Done)
  }

  /** Replies `from..` are all refused calls of one kind. */
  ghost predicate AllRefused(tr: seq<Exchange>, from: nat, c: Call) {
    forall i :: from <= i < |tr| ==> tr[i].call == c && !tr[i].reply.Done?
  }

  /** Nothing after the swap leg has been asked yet. */
  ghost predicate NoOutcomeAsked(tr: seq<Exchange>) {
    !Asked(tr, KReturn) && !Asked(tr, KCancel) && !Asked(tr, KTransfer) && !Asked(tr, KConfirm)
  }

  ghost predicate NoReturnAsked(tr: seq<Exchange>) {
    !Asked(tr, KReturn) && !Asked(tr, KCancel)
  }

  ghost predicate CancelPhase(tr: seq<Exchange>, attempt: nat) {
    attempt < CANCEL_ATTEMPTS && Did(tr, KReturn) && !Did(tr, KCancel) && !Asked(tr, KTransfer) && !Asked(tr, KConfirm)
  }

  ghost predicate ConfirmPhase(tr: seq<Exchange>, job: Job, res: Reservation, attempt: nat) {
    && attempt < CONFIRM_ATTEMPTS && |tr| == 6 + attempt && KnowsTransfer(tr, job, res)
    && AllRefused(tr, 6, Confirm(job.vaultId)) && NoReturnAsked(tr) && !Did(tr, KConfirm) && Did(tr, KTransfer)
  }

  ghost predicate TreasuryPhase(tr: seq<Exchange>, job: Job, res: Reservation, confirms: nat) {
    && 1 <= confirms <= CONFIRM_ATTEMPTS && |tr| == 6 + confirms && KnowsTransfer(tr, job, res)
    && (forall i :: 6 <= i < 5 + confirms ==> tr[i].call == Confirm(job.vaultId) && !tr[i].reply.Done?)
    && tr[5 + confirms] == Exchange(Confirm(job.vaultId), Done)
    && NoReturnAsked(tr) && Did(tr, KConfirm)
  }

  /** Where a claimed run stands, read off its transcript. */
  ghost predicate Phase(pc: Pc, tr: seq<Exchange>)
    requires !IsSweep(pc) && !pc.AwaitClaim?
  {
    && KnowsClaim(tr, pc.job)
    && match pc
       case AwaitBalanceBefore(_) => |tr| == 1
       case AwaitQuote(job, before) => |tr| == 2 && KnowsBefore(tr, job, before)
       case AwaitSwap(job, before, minOutput) => |tr| == 3 && KnowsQuote(tr, job, before, minOutput)
       case AwaitReturn(_) => |tr| >= 2 && NoOutcomeAsked(tr)
       case AwaitCancel(_, attempt) => |tr| >= 2 && CancelPhase(tr, attempt)
       case AwaitBalanceAfter(job, before, router) =>
         && |tr| == 4 && tr[2].reply.Value?
         && KnowsSwap(tr, job, before, ApplySlippage(ClampU64(tr[2].reply.n), job.cfg.maxSlippageBps), router)
       case AwaitTransfer(job, res) => |tr| == 5 && KnowsReservation(tr, job, res)
       case AwaitConfirm(job, res, attempt) => ConfirmPhase(tr, job, res, attempt)
       case AwaitTreasury(job, res, confirms) => TreasuryPhase(tr, job, res, confirms)
  }

  ghost predicate TaskOk(pc: Pc, run: RunLog)
    requires !IsSweep(pc)
  {
    && Ordered(run.transcript)
    && if pc.AwaitClaim? then run == RunLog(pc.cfg, pc.vault.vaultId, pc.timestamp, [])
       else pc.job.cfg == run.cfg && pc.job.vaultId == run.vaultId && Phase(pc, run.transcript)
  }

  // ---- What a finished run leaves ----

  /** A completed record is the transcript's own arithmetic. */
  ghost predicate CompletedOk(r: Record, run: RunLog) {
    var tr := run.transcript;
    && |tr| >= 7
    && tr[0] == Exchange(Claim(r.vaultId), Claimed(r.collateralClaimed, r.debtToCover, r.oraclePrice))
    && tr[1].call == Balance && ReadOk(tr[1].reply)
    && tr[2].call == Quote(r.icpSwapped) && tr[2].reply.Value?
    && tr[3].call == Swap(r.icpSwapped, ApplySlippage(ClampU64(tr[2].reply.n), run.cfg.maxSlippageBps)) && tr[3].reply.Value?
    && tr[4].call == Balance
    && var before, router := tr[1].reply.n, ClampU64(tr[3].reply.n);
       && r.ckusdcReceived == Min(router, SatSub(AfterOf(tr[4].reply, before, router), before))
       && r.ckusdcTransferred + FeeOr(run.cfg.ckusdcFee) == r.ckusdcReceived
       && r.ckusdcTransferred > 0
       && tr[5] == Exchange(Transfer(r.ckusdcTransferred), Done)
       && r.icpSwapped + r.icpToTreasury == r.collateralClaimed
       && 1 <= r.confirmRetries <= CONFIRM_ATTEMPTS && |tr| >= 6 + r.confirmRetries
       && (forall i :: 6 <= i < 5 + r.confirmRetries ==> tr[i].call == Confirm(r.vaultId) && !tr[i].reply.Done?)
       && tr[5 + r.confirmRetries] == Exchange(Confirm(r.vaultId), Done)
  }

  /** The status says exactly what the replies said. */
  ghost predicate StatusOk(status: Status, tr: seq<Exchange>) {
    && (status in {TransferFailed, ConfirmFailed} <==> ClaimOpen(tr))
    && (status == ClaimFailed <==> !Won(tr))
    && (status == Completed <==> Did(tr, KConfirm))
    && (status == SwapFailed <==> Did(tr, KCancel))
  }

  ghost predicate RecordOk(r: Record, run: RunLog) {
    && r.vaultId == run.vaultId
    && Ordered(run.transcript)
    && StatusOk(r.status, run.transcript)
    && (r.status == Completed ==> CompletedOk(r, run))
  }

  /** The totals, as a fold over the completed records below `n`. */
  function CompletedTotals(records: map<nat, Record>, n: nat): Stats {
    if n == 0 then Stats(0, 0, 0, 0)
    else
      var rest := CompletedTotals(records, n - 1);
      if n - 1 in records && records[n - 1].status == Completed then AddStats(rest, records[n - 1]) else rest
  }

  /** All runs below `n` are finished and filed. */
  ghost predicate Filed(core: Core, n: nat) {
    && n <= core.hist.nextId
    && Dense(Hist(core.hist.records, n))
    && (forall id :: id in core.runs <==> 0 <= id < core.hist.nextId)
    && (forall id :: 0 <= id < n ==> RecordOk(core.hist.records[id], core.runs[id]))
    && core.stats == CompletedTotals(core.hist.records, n)
  }

  ghost predicate InFlight(core: Core, pc: Pc) {
    if IsSweep(pc) then Filed(core, core.hist.nextId)
    else
      && core.hist.nextId > 0
      && RecordIdOf(pc) == core.hist.nextId - 1
      && Filed(core, core.hist.nextId - 1)
      && TaskOk(pc, core.runs[core.hist.nextId - 1])
  }

  ghost predicate GoodOutcome(o: Outcome) {
    match o
    case Finish(core) => Filed(core, core.hist.nextId)
    case Suspend(core, pc) => InFlight(core, pc)
  }

  /** At most one task, the flag says whether there is one, and everything else is filed. */
  ghost predicate Good(s: Sys) {
    && (s.processing <==> s.tasks != map[])
    && (forall t, u :: t in s.tasks && u in s.tasks ==> t == u)
    && (s.tasks == map[] ==> Filed(s.core, s.core.hist.nextId))
    && (forall t :: t in s.tasks ==> InFlight(s.core, s.tasks[t]))
  }

  // ---- Filing a record ----

  lemma {:induction false} TotalsFrame(a: map<nat, Record>, b: map<nat, Record>, n: nat)
    requires forall id :: 0 <= id < n ==> (id in a <==> id in b) && (id in a ==> a[id] == b[id])
    ensures CompletedTotals(a, n) == CompletedTotals(b, n)
  {
    if n > 0 {
      TotalsFrame(a, b, n - 1);
    }
  }

  /** Writing the in-flight run's record files everything. */
  lemma WriteFiles(core: Core, r: Record)
    requires core.hist.nextId > 0 && r.id == core.hist.nextId - 1
    requires Filed(core, core.hist.nextId - 1)
    requires RecordOk(r, core.runs[r.id])
    ensures Filed(FileRecord(core, r), core.hist.nextId)
  {
    hide RecordOk;
    TotalsFrame(core.hist.records, core.hist.records[r.id := r], core.hist.nextId - 1);
  }

  /** Recording one more exchange of the in-flight run disturbs nothing that is filed. */
  lemma ObserveKeepsFiled(core: Core, pc: Pc, reply: Reply, w: World)
    requires !IsSweep(pc) && InFlight(core, pc)
    ensures var seen := Observe(core.(world := w), pc, reply);
            && Filed(seen, core.hist.nextId - 1)
            && seen == core.(world := w, runs := seen.runs)
            && seen.runs == core.runs[RecordIdOf(pc) := Extended(core.runs[RecordIdOf(pc)], pc, reply)]
  {
  }

  function Extended(run: RunLog, pc: Pc, reply: Reply): RunLog
    requires !IsSweep(pc)
  {
    run.(transcript := run.transcript + [Exchange(Outgoing(pc), reply)])
  }

  // ---- Steps ----

  lemma BeginKeeps(core: Core, now: nat)
    requires Filed(core, core.hist.nextId)
    ensures GoodOutcome(Begin(core, now))
  {
    hide RecordOk;
  }

  /** All the kinds a step's bookkeeping looks at. */
  lemma AppendFacts(tr: seq<Exchange>, e: Exchange)
    ensures forall k :: Asked(tr + [e], k) <==> Asked(tr, k) || KindOf(e.call) == k
    ensures forall k :: Did(tr + [e], k) <==> Did(tr, k) || (KindOf(e.call) == k && e.reply.Done?)
    ensures forall k :: Did(tr, k) ==> Asked(tr, k)
  {
    forall k
      ensures Asked(tr + [e], k) <==> Asked(tr, k) || KindOf(e.call) == k
      ensures Did(tr + [e], k) <==> Did(tr, k) || (KindOf(e.call) == k && e.reply.Done?)
    {
      AskedAppend(tr, e, k);
    }
  }

  lemma EmptyFacts()
    ensures forall k :: !Asked([], k) && !Did([], k)
  {
  }

  /** An answered swap leg has asked for nothing but claim, balances, quote and swap. */
  lemma ShortFacts(tr: seq<Exchange>)
    requires forall i :: 0 <= i < |tr| ==> KindOf(tr[i].call) in {KClaim, KBalance, KQuote, KSwap}
    ensures NoOutcomeAsked(tr) && !Did(tr, KCancel) && !Did(tr, KConfirm) && !Did(tr, KTransfer)
  {
  }

  lemma ReservationNeedsRead(tr: seq<Exchange>, job: Job, res: Reservation)
    requires KnowsReservation(tr, job, res)
    ensures ReadOk(tr[1].reply)
  {
  }

  /** Whatever a run is waiting on, it was allowed to ask. */
  lemma OutgoingIsLegal(pc: Pc, tr: seq<Exchange>)
    requires !IsSweep(pc) && !pc.AwaitClaim? && Phase(pc, tr)
    ensures MayAsk(tr, KindOf(Outgoing(pc)))
  {
    hide Asked, Did;
    if pc.AwaitTransfer? {
      ReservationNeedsRead(tr, pc.job, pc.res);
    }
  }

  lemma KnowsTransferAppend(tr: seq<Exchange>, e: Exchange, job: Job, res: Reservation)
    requires KnowsTransfer(tr, job, res)
    ensures KnowsTransfer(tr + [e], job, res)
  {
  }

  /** Confirm and treasury: a run past its transfer. */
  lemma PhaseStepConfirm(tr: seq<Exchange>, job: Job, res: Reservation, attempt: nat, reply: Reply)
    requires ConfirmPhase(tr, job, res, attempt)
    ensures var tr' := tr + [Exchange(Confirm(job.vaultId), reply)];
            && (!reply.Done? && attempt + 1 < CONFIRM_ATTEMPTS ==> ConfirmPhase(tr', job, res, attempt + 1))
            && (!reply.Done? ==> !Did(tr', KConfirm) && NoReturnAsked(tr'))
            && (reply.Done? ==> TreasuryPhase(tr', job, res, attempt + 1))
  {
    var e := Exchange(Confirm(job.vaultId), reply);
    AppendFacts(tr, e);
    assert KnowsTransfer(tr + [e], job, res) by {
      KnowsTransferAppend(tr, e, job, res);
    }
    hide Asked, Did, KnowsTransfer;
  }

  lemma PhaseStepCancel(tr: seq<Exchange>, vaultId: nat, attempt: nat, reply: Reply)
    requires CancelPhase(tr, attempt)
    ensures var tr' := tr + [Exchange(Cancel(vaultId), reply)];
            && (!reply.Done? && attempt + 1 < CANCEL_ATTEMPTS ==> CancelPhase(tr', attempt + 1))
            && (Did(tr', KCancel) <==> reply.Done?) && !Did(tr', KConfirm)
  {
    AppendFacts(tr, Exchange(Cancel(vaultId), reply));
    hide Asked, Did;
  }

  /** A run still on its swap leg. */
  predicate OnSwapLeg(pc: Pc) {
    pc.AwaitBalanceBefore? || pc.AwaitQuote? || pc.AwaitSwap? || pc.AwaitBalanceAfter?
  }

  lemma SwapLegShort(pc: Pc, tr: seq<Exchange>, reply: Reply)
    requires OnSwapLeg(pc) && Phase(pc, tr)
    ensures var tr' := tr + [Exchange(Outgoing(pc), reply)];
            NoOutcomeAsked(tr') && !Did(tr', KCancel) && !Did(tr', KConfirm) && Won(tr')
  {
    ShortFacts(tr + [Exchange(Outgoing(pc), reply)]);
    hide Asked, Did;
  }

  lemma PhaseStepSwapLeg(pc: Pc, tr: seq<Exchange>, reply: Reply)
    requires OnSwapLeg(pc) && Phase(pc, tr) && Decide(pc, reply).Wait?
    ensures Phase(Decide(pc, reply).pc, tr + [Exchange(Outgoing(pc), reply)])
  {
    SwapLegShort(pc, tr, reply);
    hide Asked, Did, ApplySlippage, ComputeReservation, CalculateSwapAmount;
  }

  /** A claimed run that keeps waiting stands where it should. */
  lemma PhaseStep(pc: Pc, tr: seq<Exchange>, reply: Reply)
    requires !IsSweep(pc) && !pc.AwaitClaim? && Phase(pc, tr) && Decide(pc, reply).Wait?
    ensures Phase(Decide(pc, reply).pc, tr + [Exchange(Outgoing(pc), reply)])
  {
    var e := Exchange(Outgoing(pc), reply);
    match pc
    case AwaitReturn(job) =>
      AppendFacts(tr, e);
      hide Asked, Did;
    case AwaitCancel(job, attempt) =>
      PhaseStepCancel(tr, job.vaultId, attempt, reply);
      hide CancelPhase;
    case AwaitTransfer(job, res) => PhaseStepTransfer(tr, job, res);
    case AwaitConfirm(job, res, attempt) =>
      PhaseStepConfirm(tr, job, res, attempt, reply);
      hide ConfirmPhase, TreasuryPhase;
    case _ =>
      hide Phase, Decide;
      PhaseStepSwapLeg(pc, tr, reply);
  }

  lemma PhaseStepTransfer(tr: seq<Exchange>, job: Job, res: Reservation)
    requires |tr| == 5 && KnowsReservation(tr, job, res)
    ensures ConfirmPhase(tr + [Exchange(Transfer(SendAmount(job, res)), Done)], job, res, 0)
  {
    AppendFacts(tr, Exchange(Transfer(SendAmount(job, res)), Done));
    ShortFacts(tr);
    hide Asked, Did;
  }

  /** A claimed run that ends leaves a status that tells what its replies told. */
  lemma PhaseEnds(pc: Pc, tr: seq<Exchange>, reply: Reply)
    requires !IsSweep(pc) && !pc.AwaitClaim? && Phase(pc, tr) && Decide(pc, reply).File?
    ensures StatusOk(Decide(pc, reply).record.status, tr + [Exchange(Outgoing(pc), reply)])
  {
    var e := Exchange(Outgoing(pc), reply);
    if OnSwapLeg(pc) {
      SwapLegShort(pc, tr, reply);
      hide Asked, Did, Phase;
    } else if pc.AwaitCancel? {
      PhaseStepCancel(tr, pc.job.vaultId, pc.attempt, reply);
      hide Asked, Did;
    } else {
      AppendFacts(tr, e);
      if pc.AwaitTransfer? {
        ShortFacts(tr);
      }
      hide Asked, Did, KnowsTransfer, KnowsReservation, AllRefused;
    }
  }

  /** The completed record's figures follow from the swap leg. */
  lemma CompletedFigures(run: RunLog, job: Job, res: Reservation, confirms: nat)
    requires job.cfg == run.cfg && KnowsTransfer(run.transcript, job, res)
    requires 1 <= confirms <= CONFIRM_ATTEMPTS && |run.transcript| >= 6 + confirms
    requires forall i :: 6 <= i < 5 + confirms ==>
               run.transcript[i].call == Confirm(job.vaultId) && !run.transcript[i].reply.Done?
    requires run.transcript[5 + confirms] == Exchange(Confirm(job.vaultId), Done)
    ensures CompletedOk(CompletedRecord(job, res, confirms), run)
  {
    ReservationNeedsRead(run.transcript, job, res);
    SwapAmountIsBounded(job.collateral, job.debt, job.price);
  }

  lemma PhaseCompletes(pc: Pc, run: RunLog, reply: Reply)
    requires !IsSweep(pc) && !pc.AwaitClaim? && pc.job.cfg == run.cfg && Phase(pc, run.transcript)
    requires Decide(pc, reply).File? && Decide(pc, reply).record.status == Completed
    ensures CompletedOk(Decide(pc, reply).record, Extended(run, pc, reply))
  {
    hide CompletedOk, KnowsTransfer, Asked, Did;
    if pc.AwaitConfirm? {
      PhaseStepConfirm(run.transcript, pc.job, pc.res, pc.attempt, reply);
      CompletedFigures(Extended(run, pc, reply), pc.job, pc.res, pc.attempt + 1);
    } else {
      KnowsTransferAppend(run.transcript, Exchange(Outgoing(pc), reply), pc.job, pc.res);
      CompletedFigures(Extended(run, pc, reply), pc.job, pc.res, pc.confirms);
    }
  }

  // ---- One step of the whole ----

  lemma OrderedStep(pc: Pc, run: RunLog, reply: Reply)
    requires !IsSweep(pc) && TaskOk(pc, run)
    ensures Ordered(Extended(run, pc, reply).transcript)
  {
    assert MayAsk(run.transcript, KindOf(Outgoing(pc))) by {
      if !pc.AwaitClaim? {
        hide Phase, Ordered;
        OutgoingIsLegal(pc, run.transcript);
      }
    }
    hide MayAsk;
    OrderedAppend(run.transcript, Exchange(Outgoing(pc), reply));
  }

  lemma TaskStep(pc: Pc, run: RunLog, reply: Reply)
    requires !IsSweep(pc) && !pc.AwaitClaim? && TaskOk(pc, run)
    ensures var run' := Extended(run, pc, reply);
            match Decide(pc, reply)
            case Wait(pc') => !IsSweep(pc') && !pc'.AwaitClaim? && pc'.job == pc.job && TaskOk(pc', run')
            case File(r) => r.id == pc.job.recordId && RecordOk(r, run')
  {
    hide Ordered, Phase, StatusOk, CompletedOk;
    OrderedStep(pc, run, reply);
    if Decide(pc, reply).Wait? {
      PhaseStep(pc, run.transcript, reply);
    } else {
      PhaseEnds(pc, run.transcript, reply);
      if Decide(pc, reply).record.status == Completed {
        PhaseCompletes(pc, run, reply);
      }
    }
  }

  /** The claim reply: granted, or one more refusal on file. */
  lemma ClaimStep(pc: Pc, run: RunLog, reply: Reply)
    requires pc.AwaitClaim? && TaskOk(pc, run)
    ensures var run' := Extended(run, pc, reply);
            var job := Job(pc.cfg, pc.vault.vaultId, pc.recordId, pc.timestamp, 0, 0, 0, 0);
            && Ordered(run'.transcript)
            && (reply.Claimed? ==>
                  TaskOk(AwaitBalanceBefore(job.(collateral := reply.collateral, debt := reply.debt, price := reply.price,
                           swapAmount := CalculateSwapAmount(reply.collateral, reply.debt, reply.price))), run'))
            && (!reply.Claimed? ==> forall note :: RecordOk(ClaimRecord(pc, note), run'))
  {
    OrderedStep(pc, run, reply);
    hide Ordered;
    ShortFacts(Extended(run, pc, reply).transcript);
    hide Asked, Did;
  }

  /** Fields the filing invariant does not look at may change freely. */
  lemma FiledFrame(core: Core, n: nat, config: Option<Config>, pending: seq<Vault>, counts: map<nat, nat>, w: World)
    requires Filed(core, n)
    ensures Filed(core.(config := config, pending := pending, retryCounts := counts, world := w), n)
  {
    hide RecordOk;
  }

  lemma InFlightFrame(core: Core, pc: Pc, config: Option<Config>, pending: seq<Vault>, counts: map<nat, nat>, w: World)
    requires InFlight(core, pc)
    ensures InFlight(core.(config := config, pending := pending, retryCounts := counts, world := w), pc)
  {
    hide RecordOk, TaskOk;
  }

  /** `seen` is the core with the reply already on the transcript. */
  lemma ClaimKeeps(seen: Core, pc: Pc, run: RunLog, reply: Reply)
    requires pc.AwaitClaim? && TaskOk(pc, run)
    requires seen.hist.nextId > 0 && pc.recordId == seen.hist.nextId - 1 && Filed(seen, pc.recordId)
    requires seen.runs[pc.recordId] == Extended(run, pc, reply)
    ensures GoodOutcome(AfterClaim(seen, pc, reply))
  {
    hide RecordOk, TaskOk, Dense, Ordered;
    ClaimStep(pc, run, reply);
    var v := pc.vault.vaultId;
    if reply.Claimed? {
      FiledFrame(seen, pc.recordId, seen.config, seen.pending, seen.retryCounts - {v}, seen.world);
    } else {
      var action := NextRetryAction(pc.prior, CLAIM_RETRY_LIMIT);
      var r := ClaimRecord(pc, if action.Retry? then ClaimRetrying(action.newCount) else ClaimGaveUp);
      WriteFiles(seen, r);
      hide Filed;
      var filed := FileRecord(seen, r);
      var core := AfterClaim(seen, pc, reply).core;
      FiledFrame(filed, filed.hist.nextId, filed.config, core.pending, core.retryCounts, filed.world);
    }
  }

  lemma JobKeeps(seen: Core, pc: Pc, run: RunLog, reply: Reply)
    requires !pc.AwaitClaim? && !IsSweep(pc) && TaskOk(pc, run)
    requires seen.hist.nextId > 0 && pc.job.recordId == seen.hist.nextId - 1 && Filed(seen, pc.job.recordId)
    requires seen.runs[pc.job.recordId] == Extended(run, pc, reply)
    ensures GoodOutcome(Resume(seen, pc, reply))
  {
    hide RecordOk, TaskOk, Dense;
    TaskStep(pc, run, reply);
    hide Decide;
    if Decide(pc, reply).File? {
      WriteFiles(seen, Decide(pc, reply).record);
    }
  }

  lemma AdvanceKeeps(core: Core, pc: Pc, ev: Event)
    requires ev.Resumed? && InFlight(core, pc)
    ensures GoodOutcome(Advance(core, pc, ev))
  {
    hide TaskOk, Decide, AfterClaim, RecordOk, Effect, CompletedTotals, Dense;
    var w := Effect(core.world, pc, ev.landed, ev.delivered);
    if IsSweep(pc) {
      FiledFrame(core, core.hist.nextId, core.config, core.pending, core.retryCounts, w);
      hide Filed;
    } else {
      var seen := Observe(core.(world := w), pc, ev.reply);
      var id := RecordIdOf(pc);
      ObserveKeepsFiled(core, pc, ev.reply, w);
      hide Filed, GoodOutcome;
      if pc.AwaitClaim? {
        ClaimKeeps(seen, pc, core.runs[id], ev.reply);
      } else {
        JobKeeps(seen, pc, core.runs[id], ev.reply);
      }
    }
  }

  /** Every event keeps the system good. */
  lemma NextKeeps(s: Sys, ev: Event)
    requires Good(s)
    ensures Good(Next(s, ev))
  {
    hide Filed, InFlight, Begin, Advance;
    match ev
    case Tick(task, now) =>
      if !s.processing && task !in s.tasks {
        BeginKeeps(s.core, now);
      }
    case StartSweep(task) =>
      assert Filed(s.core, s.core.hist.nextId) ==> InFlight(s.core, SweepBalance) by { SweepStarts(s.core); }
    case Resumed(task, _, _, _) =>
      if task in s.tasks {
        AdvanceKeeps(s.core, s.tasks[task], ev);
        assert s.tasks - {task} == map[];
      }
    case _ =>
      var core := Next(s, ev).core;
      assert core == s.core.(config := core.config, pending := core.pending, retryCounts := core.retryCounts, world := core.world);
      if s.tasks == map[] {
        FiledFrame(s.core, s.core.hist.nextId, core.config, core.pending, core.retryCounts, core.world);
      }
      forall t | t in s.tasks ensures InFlight(core, s.tasks[t]) {
        InFlightFrame(s.core, s.tasks[t], core.config, core.pending, core.retryCounts, core.world);
      }
  }

  lemma SweepStarts(core: Core)
    ensures Filed(core, core.hist.nextId) ==> InFlight(core, SweepBalance)
  {
  }

  lemma {:induction false} GoodOnRuns(s: Sys, evs: seq<Event>)
    requires Good(s)
    ensures Good(Run(s, evs))
  {
    if evs != [] {
      GoodOnRuns(s, evs[..|evs| - 1]);
      NextKeeps(Run(s, evs[..|evs| - 1]), evs[|evs| - 1]);
    }
  }

  /** From installation on, whatever happens, the system is good: the lock flag is set exactly
      while a task is suspended, there is never more than one task, and all else is on file. */
  lemma AlwaysGood(cfg: Config, wallet: nat, fee: nat, evs: seq<Event>)
    ensures Good(Run(Init(cfg, wallet, fee), evs))
  {
    GoodOnRuns(Init(cfg, wallet, fee), evs);
  }
}
