/** The protocol told as a story. Here a run's next call, and the record it leaves, are read off what it
    has been told so far, with no program counter and no local variables. The step machine is shown to
    follow this script in every reachable state. */
module BotScript {
  import opened Prelude
  import opened BotTypes
  import opened BotMath
  import opened History
  import opened BotMachine
  import opened BotInvariant

  // ---- The script ----

  /** How often a call of a kind was made. */
  function Times(tr: seq<Exchange>, k: Kind): nat {
    if tr == [] then 0
    else Times(tr[..|tr| - 1], k) + if KindOf(tr[|tr| - 1].call) == k then 1 else 0
  }

  function LedgerFee(configured: Option<nat>): nat {
    if configured.Some? then configured.value else 10_000
  }

  /** A balance answer that fits 64 bits. */
  predicate Readable(reply: Reply) {
    reply.Value? && reply.n < 0x1_0000_0000_0000_0000
  }

  function Cut(n: nat): nat {
    if n < 0x1_0000_0000_0000_0000 then n else 0xFFFF_FFFF_FFFF_FFFF
  }

  /** The run got as far as its second balance reading: the swap was made. */
  predicate Swapped(tr: seq<Exchange>) {
    |tr| >= 5 && tr[4].call == Balance && tr[3].reply.Value?
  }

  /** What the claim may spend: no more than the router reported, no more than the wallet gained; nothing
      without the first reading; and without the second, whatever the router reported. */
  function Spendable(tr: seq<Exchange>): nat
    requires Swapped(tr)
  {
    var router := Cut(tr[3].reply.n);
    if !Readable(tr[1].reply) then 0
    else if Readable(tr[4].reply) then Min(router, SatSub(tr[4].reply.n, tr[1].reply.n))
    else Min(router, 0xFFFF_FFFF_FFFF_FFFF - tr[1].reply.n)
  }

  function SwapAmountOf(granted: Reply): nat
    requires granted.Claimed?
  {
    CalculateSwapAmount(granted.collateral, granted.debt, granted.price)
  }

  /** Give the collateral back, if anything is left of it after the ledger's fee. */
  function SendBack(run: RunLog, granted: Reply): Option<Call>
    requires granted.Claimed?
  {
    var fee := LedgerFee(run.cfg.icpFee);
    if granted.collateral > fee then Some(Return(granted.collateral - fee)) else None
  }

  function SendProceeds(run: RunLog): Option<Call>
    requires Swapped(run.transcript)
  {
    var fee := LedgerFee(run.cfg.ckusdcFee);
    if Spendable(run.transcript) > fee then Some(Transfer(Spendable(run.transcript) - fee)) else None
  }

  /** What was not swapped is the bonus. */
  function SendBonus(run: RunLog, granted: Reply): Option<Call>
    requires granted.Claimed?
  {
    var fee := LedgerFee(run.cfg.icpFee);
    if granted.collateral > SwapAmountOf(granted) + fee then Some(Treasury(granted.collateral - SwapAmountOf(granted) - fee))
    else None
  }

  /** The next call, or none if the run is over. */
  function Planned(run: RunLog): Option<Call> {
    var tr := run.transcript;
    if tr == [] then Some(Claim(run.vaultId))
    else if !tr[0].reply.Claimed? then None
    else
      var granted, reply := tr[0].reply, tr[|tr| - 1].reply;
      match tr[|tr| - 1].call
      case Claim(_) => Some(Balance)
      case Balance =>
        if |tr| == 2 then
          if run.cfg.poolSet && run.cfg.zeroForOne.Some? then Some(Quote(SwapAmountOf(granted))) else SendBack(run, granted)
        else if Swapped(tr) then SendProceeds(run)
        else None
      case Quote(_) =>
        if reply.Value? && reply.n > 0 then
          Some(Swap(SwapAmountOf(granted), ApplySlippage(Cut(reply.n), run.cfg.maxSlippageBps)))
        else SendBack(run, granted)
      case Swap(_, _) => if reply.Value? then Some(Balance) else SendBack(run, granted)
      case Return(_) => if reply.Done? then Some(Cancel(run.vaultId)) else None
      case Cancel(_) => if !reply.Done? && Times(tr, KCancel) < 3 then Some(Cancel(run.vaultId)) else None
      case Transfer(_) => if reply.Done? then Some(Confirm(run.vaultId)) else None
      case Confirm(_) =>
        if reply.Done? then SendBonus(run, granted)
        else if Times(tr, KConfirm) < 5 then Some(Confirm(run.vaultId))
        else None
      case Treasury(_) => None
  }

  /** The status a finished, granted run deserves. */
  ghost function StatusOf(tr: seq<Exchange>): Status {
    if Did(tr, KConfirm) then Completed
    else if Did(tr, KCancel) then SwapFailed
    else if Asked(tr, KCancel) || Asked(tr, KConfirm) then ConfirmFailed
    else TransferFailed
  }

  /** Which case its note names. */
  ghost function NoteOf(tr: seq<Exchange>): Option<Note> {
    var status := StatusOf(tr);
    if status == Completed then None
    else if status == SwapFailed then Some(SwapError)
    else if status == ConfirmFailed then Some(if Asked(tr, KCancel) then CancelError(Times(tr, KCancel)) else ConfirmError)
    else Some(if Swapped(tr) then TransferError(Spendable(tr) < Cut(tr[3].reply.n)) else ReturnError)
  }

  /** Every figure of a record, from what the run was told. */
  ghost predicate FiledAs(r: Record, run: RunLog) {
    var tr := run.transcript;
    && tr != [] && r.vaultId == run.vaultId && r.timestamp == run.startedAt
    && if !tr[0].reply.Claimed? then
         && r.status == ClaimFailed && r.note.Some? && (r.note.value.ClaimRetrying? || r.note.value.ClaimGaveUp?)
         && r.collateralClaimed == r.debtToCover == r.icpSwapped == r.ckusdcReceived == r.ckusdcTransferred == 0
         && r.icpToTreasury == r.oraclePrice == r.confirmRetries == 0
       else
         && r.status == StatusOf(tr) && r.note == NoteOf(tr)
         && r.collateralClaimed == tr[0].reply.collateral && r.debtToCover == tr[0].reply.debt
         && r.oraclePrice == tr[0].reply.price && r.icpSwapped == SwapAmountOf(tr[0].reply)
         && r.ckusdcReceived == (if Swapped(tr) then Spendable(tr) else 0)
         && (if Did(tr, KTransfer) then Swapped(tr) && r.ckusdcTransferred + LedgerFee(run.cfg.ckusdcFee) == Spendable(tr)
             else r.ckusdcTransferred == 0)
         && (if Did(tr, KConfirm) then r.icpSwapped + r.icpToTreasury == r.collateralClaimed else r.icpToTreasury == 0)
         && r.confirmRetries == Times(tr, KConfirm)
  }

  /** Every call so far was the planned one. */
  ghost predicate Followed(run: RunLog) {
    forall i :: 0 <= i < |run.transcript| ==>
      Planned(run.(transcript := run.transcript[..i])) == Some(run.transcript[i].call)
  }

  // ---- Where a suspended run stands in the script ----

  function StampOf(pc: Pc): nat
    requires !IsSweep(pc)
  {
    if pc.AwaitClaim? then pc.timestamp else pc.job.timestamp
  }

  /** The run waits on its planned call, and its counters count what it has asked. */
  ghost predicate OnScript(pc: Pc, run: RunLog)
    requires !IsSweep(pc)
  {
    var tr := run.transcript;
    && StampOf(pc) == run.startedAt && Followed(run) && Planned(run) == Some(Outgoing(pc))
    && Times(tr, KCancel) == (if pc.AwaitCancel? then pc.attempt else 0)
    && Times(tr, KConfirm) == (if pc.AwaitConfirm? then pc.attempt else if pc.AwaitTreasury? then pc.confirms else 0)
    && (pc.AwaitReturn? || pc.AwaitCancel? ==> !Swapped(tr))
  }

  lemma TimesAppend(tr: seq<Exchange>, e: Exchange)
    ensures forall k :: Times(tr + [e], k) == Times(tr, k) + if KindOf(e.call) == k then 1 else 0
  {
    assert (tr + [e])[..|tr|] == tr;
  }

  lemma {:induction false} TimesAsked(tr: seq<Exchange>, k: Kind)
    ensures Times(tr, k) > 0 <==> Asked(tr, k)
  {
    if tr != [] {
      var init := tr[..|tr| - 1];
      TimesAsked(init, k);
      AskedAppend(init, tr[|tr| - 1], k);
      assert tr == init + [tr[|tr| - 1]];
    }
  }

  lemma KindFacts(tr: seq<Exchange>, e: Exchange, k: Kind)
    ensures Asked(tr + [e], k) <==> Asked(tr, k) || KindOf(e.call) == k
    ensures Did(tr + [e], k) <==> Did(tr, k) || (KindOf(e.call) == k && e.reply.Done?)
    ensures Times(tr + [e], k) == Times(tr, k) + if KindOf(e.call) == k then 1 else 0
    ensures Did(tr, k) ==> Asked(tr, k)
    ensures Times(tr, k) > 0 <==> Asked(tr, k)
  {
    AskedAppend(tr, e, k);
    TimesAppend(tr, e);
    TimesAsked(tr, k);
  }

  lemma FollowedAppend(run: RunLog, pc: Pc, reply: Reply)
    requires !IsSweep(pc) && Followed(run) && Planned(run) == Some(Outgoing(pc))
    ensures Followed(Extended(run, pc, reply))
  {
    var run' := Extended(run, pc, reply);
    var tr, tr' := run.transcript, run'.transcript;
    hide Planned;
    forall i | 0 <= i < |tr'| ensures Planned(run'.(transcript := tr'[..i])) == Some(tr'[i].call) {
      if i < |tr| {
        assert tr'[..i] == tr[..i];
        assert run'.(transcript := tr'[..i]) == run.(transcript := tr[..i]);
      } else {
        assert tr'[..i] == tr;
        assert run'.(transcript := tr'[..i]) == run;
      }
    }
  }

  // ---- One step ----

  /** A claimed run on its swap leg: every reply leads to the planned call. */
  lemma SwapLegFollows(pc: Pc, run: RunLog, reply: Reply)
    requires OnSwapLeg(pc) && TaskOk(pc, run) && OnScript(pc, run) && Decide(pc, reply).Wait?
    ensures Planned(Extended(run, pc, reply)) == Some(Outgoing(Decide(pc, reply).pc))
  {
    hide Ordered, Asked, Did, Followed, ApplySlippage, CalculateSwapAmount;
  }

  lemma SwapLegEnds(pc: Pc, run: RunLog, reply: Reply)
    requires OnSwapLeg(pc) && TaskOk(pc, run) && OnScript(pc, run) && Decide(pc, reply).File?
    ensures Planned(Extended(run, pc, reply)) == None
    ensures FiledAs(Decide(pc, reply).record, Extended(run, pc, reply))
  {
    hide Ordered, Asked, Did, Followed, ApplySlippage, CalculateSwapAmount, Times;
    SwapLegShort(pc, run.transcript, reply);
    KindFacts(run.transcript, Exchange(Outgoing(pc), reply), KConfirm);
    KindFacts(run.transcript, Exchange(Outgoing(pc), reply), KTransfer);
  }

  lemma SwapLegNext(pc: Pc, run: RunLog, reply: Reply)
    requires OnSwapLeg(pc) && TaskOk(pc, run) && Decide(pc, reply).Wait?
    ensures var pc' := Decide(pc, reply).pc;
            && !IsSweep(pc') && StampOf(pc') == StampOf(pc)
            && !pc'.AwaitCancel? && !pc'.AwaitConfirm? && !pc'.AwaitTreasury?
            && (pc'.AwaitReturn? ==> !Swapped(Extended(run, pc, reply).transcript))
            && KindOf(Outgoing(pc)) != KCancel && KindOf(Outgoing(pc)) != KConfirm
  {
    hide Ordered, ApplySlippage, CalculateSwapAmount, ComputeReservation;
  }

  lemma SwapLegScript(pc: Pc, run: RunLog, reply: Reply)
    requires OnSwapLeg(pc) && TaskOk(pc, run) && OnScript(pc, run) && Decide(pc, reply).Wait?
    ensures OnScript(Decide(pc, reply).pc, Extended(run, pc, reply))
  {
    SwapLegNext(pc, run, reply);
    SwapLegFollows(pc, run, reply);
    FollowedAppend(run, pc, reply);
    TimesAppend(run.transcript, Exchange(Outgoing(pc), reply));
    hide Planned, Followed, TaskOk, Decide, Outgoing, Swapped;
  }

  /** Giving back and cancelling. */
  lemma ReturnFacts(pc: Pc, run: RunLog, reply: Reply)
    requires (pc.AwaitReturn? || pc.AwaitCancel?) && TaskOk(pc, run) && OnScript(pc, run)
    ensures var tr' := Extended(run, pc, reply).transcript;
            && KnowsClaim(tr', pc.job) && |tr'| >= 3 && tr'[|tr'| - 1] == Exchange(Outgoing(pc), reply)
            && !Swapped(tr') && !Did(tr', KTransfer) && !Did(tr', KConfirm) && !Asked(tr', KConfirm)
            && Times(tr', KConfirm) == 0 && Times(tr', KCancel) == (if pc.AwaitCancel? then pc.attempt + 1 else 0)
            && (Did(tr', KCancel) <==> pc.AwaitCancel? && reply.Done?) && (Asked(tr', KCancel) <==> pc.AwaitCancel?)
  {
    hide Ordered, Asked, Did, Followed, Times, Planned, CalculateSwapAmount;
    var e := Exchange(Outgoing(pc), reply);
    var tr := run.transcript;
    KindFacts(tr, e, KTransfer);
    KindFacts(tr, e, KConfirm);
    KindFacts(tr, e, KCancel);
    ReturnShape(pc, run);
    hide TaskOk;
  }

  lemma ReturnShape(pc: Pc, run: RunLog)
    requires (pc.AwaitReturn? || pc.AwaitCancel?) && TaskOk(pc, run)
    ensures var tr := run.transcript;
            && |tr| >= 2 && KnowsClaim(tr, pc.job) && pc.job.vaultId == run.vaultId
            && !Asked(tr, KTransfer) && !Asked(tr, KConfirm) && !Did(tr, KCancel) && !Did(tr, KTransfer) && !Did(tr, KConfirm)
            && (pc.AwaitReturn? ==> !Asked(tr, KCancel))
  {
    hide Ordered, KnowsClaim;
  }

  lemma ReturnPlans(pc: Pc, run: RunLog, reply: Reply)
    requires (pc.AwaitReturn? || pc.AwaitCancel?) && pc.job.vaultId == run.vaultId
    requires var tr' := Extended(run, pc, reply).transcript;
             && |tr'| >= 3 && tr'[0].reply.Claimed? && tr'[|tr'| - 1] == Exchange(Outgoing(pc), reply)
             && Times(tr', KCancel) == (if pc.AwaitCancel? then pc.attempt + 1 else 0)
    ensures Planned(Extended(run, pc, reply)) ==
            match Decide(pc, reply) case Wait(pc') => Some(Outgoing(pc')) case File(_) => None
  {
    hide Times;
  }

  lemma ReturnFiles(pc: Pc, run: RunLog, reply: Reply)
    requires (pc.AwaitReturn? || pc.AwaitCancel?) && Decide(pc, reply).File?
    requires pc.job.vaultId == run.vaultId && pc.job.timestamp == run.startedAt
    requires var tr' := Extended(run, pc, reply).transcript;
             && KnowsClaim(tr', pc.job)
             && !Swapped(tr') && !Did(tr', KTransfer) && !Did(tr', KConfirm) && !Asked(tr', KConfirm)
             && Times(tr', KConfirm) == 0 && Times(tr', KCancel) == (if pc.AwaitCancel? then pc.attempt + 1 else 0)
             && (Did(tr', KCancel) <==> pc.AwaitCancel? && reply.Done?) && (Asked(tr', KCancel) <==> pc.AwaitCancel?)
    ensures FiledAs(Decide(pc, reply).record, Extended(run, pc, reply))
  {
    hide Asked, Did, Times, Swapped, CalculateSwapAmount;
  }

  lemma ReturnScript(pc: Pc, run: RunLog, reply: Reply)
    requires (pc.AwaitReturn? || pc.AwaitCancel?) && TaskOk(pc, run) && OnScript(pc, run)
    ensures match Decide(pc, reply)
            case Wait(pc') => OnScript(pc', Extended(run, pc, reply))
            case File(r) => Planned(Extended(run, pc, reply)) == None && FiledAs(r, Extended(run, pc, reply))
  {
    hide Phase, FiledAs, Asked, Did, Followed, Times, Swapped, Planned, CalculateSwapAmount, Ordered;
    ReturnFacts(pc, run, reply);
    ReturnPlans(pc, run, reply);
    FollowedAppend(run, pc, reply);
    if Decide(pc, reply).File? {
      ReturnFiles(pc, run, reply);
    }
  }

  /** Paying and confirming. */
  lemma PayPlans(pc: Pc, run: RunLog, reply: Reply)
    requires (pc.AwaitTransfer? || pc.AwaitConfirm? || pc.AwaitTreasury?) && pc.job.vaultId == run.vaultId && pc.job.cfg == run.cfg
    requires var tr' := Extended(run, pc, reply).transcript;
             && KnowsClaim(tr', pc.job) && |tr'| >= 3 && tr'[|tr'| - 1] == Exchange(Outgoing(pc), reply)
             && (pc.AwaitConfirm? ==> Times(tr', KConfirm) == pc.attempt + 1)
    ensures Planned(Extended(run, pc, reply)) ==
            match Decide(pc, reply) case Wait(pc') => Some(Outgoing(pc')) case File(_) => None
  {
    SwapAmountIsBounded(pc.job.collateral, pc.job.debt, pc.job.price);
    hide Times, CalculateSwapAmount;
  }

  ghost predicate PaidSoFar(pc: Pc, tr: seq<Exchange>, reply: Reply)
    requires pc.AwaitTransfer? || pc.AwaitConfirm? || pc.AwaitTreasury?
  {
    && KnowsClaim(tr, pc.job) && |tr| >= 3 && tr[|tr| - 1] == Exchange(Outgoing(pc), reply)
    && Swapped(tr) && pc.res.toTransfer == pc.res.recordedReceived == Spendable(tr) && SendAmount(pc.job, pc.res) > 0
    && (pc.res.shortDelivery <==> Spendable(tr) < Cut(tr[3].reply.n))
    && !Did(tr, KCancel) && !Asked(tr, KCancel) && Times(tr, KCancel) == 0
    && (Did(tr, KTransfer) <==> !pc.AwaitTransfer? || reply.Done?)
    && (Did(tr, KConfirm) <==> pc.AwaitTreasury? || (pc.AwaitConfirm? && reply.Done?))
    && (Asked(tr, KConfirm) <==> !pc.AwaitTransfer?)
    && Times(tr, KConfirm) == (if pc.AwaitConfirm? then pc.attempt + 1 else if pc.AwaitTreasury? then pc.confirms else 0)
  }

  lemma PayFacts(pc: Pc, run: RunLog, reply: Reply)
    requires (pc.AwaitTransfer? || pc.AwaitConfirm? || pc.AwaitTreasury?) && TaskOk(pc, run) && OnScript(pc, run)
    ensures PaidSoFar(pc, Extended(run, pc, reply).transcript, reply)
  {
    hide Phase, Ordered, Asked, Did, Followed, Times, Planned, CalculateSwapAmount, Spendable;
    var e := Exchange(Outgoing(pc), reply);
    var tr := run.transcript;
    PaidFacts(pc, run);
    KindFacts(tr, e, KTransfer);
    KindFacts(tr, e, KConfirm);
    KindFacts(tr, e, KCancel);
    SpendableAppend(tr, e);
  }

  lemma SpendableAppend(tr: seq<Exchange>, e: Exchange)
    requires Swapped(tr)
    ensures Swapped(tr + [e]) && Spendable(tr + [e]) == Spendable(tr) && (tr + [e])[3] == tr[3]
  {
  }

  lemma PayFiles(pc: Pc, run: RunLog, reply: Reply)
    requires (pc.AwaitTransfer? || pc.AwaitConfirm? || pc.AwaitTreasury?) && Decide(pc, reply).File?
    requires pc.job.vaultId == run.vaultId && pc.job.timestamp == run.startedAt && pc.job.cfg == run.cfg
    requires PaidSoFar(pc, Extended(run, pc, reply).transcript, reply)
    ensures FiledAs(Decide(pc, reply).record, Extended(run, pc, reply))
  {
    SwapAmountIsBounded(pc.job.collateral, pc.job.debt, pc.job.price);
    hide Asked, Did, Times, Spendable, CalculateSwapAmount;
  }

  lemma PayScript(pc: Pc, run: RunLog, reply: Reply)
    requires (pc.AwaitTransfer? || pc.AwaitConfirm? || pc.AwaitTreasury?) && TaskOk(pc, run) && OnScript(pc, run)
    ensures match Decide(pc, reply)
            case Wait(pc') => OnScript(pc', Extended(run, pc, reply))
            case File(r) => Planned(Extended(run, pc, reply)) == None && FiledAs(r, Extended(run, pc, reply))
  {
    hide Phase, FiledAs, Asked, Did, Followed, Times, Planned, CalculateSwapAmount, Ordered, Spendable, Swapped;
    PayFacts(pc, run, reply);
    PayPlans(pc, run, reply);
    FollowedAppend(run, pc, reply);
    if Decide(pc, reply).File? {
      PayFiles(pc, run, reply);
    }
  }

  /** What a run that has a reservation knows about what it may spend. */
  lemma PaidFacts(pc: Pc, run: RunLog)
    requires (pc.AwaitTransfer? || pc.AwaitConfirm? || pc.AwaitTreasury?) && TaskOk(pc, run)
    ensures var tr := run.transcript;
            && KnowsClaim(tr, pc.job) && Swapped(tr) && pc.res.toTransfer == pc.res.recordedReceived == Spendable(tr)
            && SendAmount(pc.job, pc.res) > 0 && (pc.res.shortDelivery <==> Spendable(tr) < Cut(tr[3].reply.n))
            && !Did(tr, KCancel) && !Asked(tr, KCancel)
            && (pc.AwaitTransfer? ==> !Did(tr, KTransfer) && !Did(tr, KConfirm) && !Asked(tr, KConfirm))
            && (!pc.AwaitTransfer? ==> Did(tr, KTransfer))
            && (pc.AwaitConfirm? ==> !Did(tr, KConfirm)) && (pc.AwaitTreasury? ==> Did(tr, KConfirm))
  {
    hide Ordered, CalculateSwapAmount, ApplySlippage, Asked, Did;
    var tr := run.transcript;
    assert KnowsReservation(tr, pc.job, pc.res);
    ReservationIsSpendable(tr, pc.job, pc.res);
    PaidAsks(pc, tr);
    hide KnowsReservation, Spendable;
  }

  lemma PaidAsks(pc: Pc, tr: seq<Exchange>)
    requires (pc.AwaitTransfer? || pc.AwaitConfirm? || pc.AwaitTreasury?) && Phase(pc, tr)
    ensures !Did(tr, KCancel) && !Asked(tr, KCancel)
    ensures pc.AwaitTransfer? ==> !Did(tr, KTransfer) && !Did(tr, KConfirm) && !Asked(tr, KConfirm)
    ensures !pc.AwaitTransfer? ==> Did(tr, KTransfer)
    ensures pc.AwaitConfirm? ==> !Did(tr, KConfirm)
    ensures pc.AwaitTreasury? ==> Did(tr, KConfirm)
  {
    if pc.AwaitTransfer? {
      ShortFacts(tr);
    } else {
      assert tr[5] == Exchange(Transfer(SendAmount(pc.job, pc.res)), Done);
    }
    hide CalculateSwapAmount, ApplySlippage, ComputeReservation;
  }

  lemma ReservationIsSpendable(tr: seq<Exchange>, job: Job, res: Reservation)
    requires KnowsReservation(tr, job, res)
    ensures Swapped(tr) && res.toTransfer == res.recordedReceived == Spendable(tr)
    ensures SendAmount(job, res) > 0 && (res.shortDelivery <==> Spendable(tr) < Cut(tr[3].reply.n))
  {
    hide CalculateSwapAmount, ApplySlippage;
  }

  lemma ClaimScript(pc: Pc, run: RunLog, reply: Reply)
    requires pc.AwaitClaim? && TaskOk(pc, run) && OnScript(pc, run)
    ensures var run' := Extended(run, pc, reply);
            && (reply.Claimed? ==> forall job: Job :: job.timestamp == pc.timestamp ==> OnScript(AwaitBalanceBefore(job), run'))
            && (!reply.Claimed? ==> Planned(run') == None)
            && (!reply.Claimed? ==>
                  forall note: Note :: note.ClaimRetrying? || note.ClaimGaveUp? ==> FiledAs(ClaimRecord(pc, note), run'))
  {
    FollowedAppend(run, pc, reply);
    TimesAppend([], Exchange(Outgoing(pc), reply));
    hide Followed;
  }

  // ---- All runs ----

  ghost predicate Finished(core: Core, id: nat) {
    && id in core.runs && id in core.hist.records
    && Followed(core.runs[id]) && Planned(core.runs[id]) == None && FiledAs(core.hist.records[id], core.runs[id])
  }

  /** Every run on file followed its script to the end, and the one in flight is following it. */
  ghost predicate Scripted(s: Sys) {
    && (forall id :: id in s.core.hist.records ==> Finished(s.core, id))
    && (forall t :: t in s.tasks && !IsSweep(s.tasks[t]) ==>
          && RecordIdOf(s.tasks[t]) in s.core.runs && RecordIdOf(s.tasks[t]) !in s.core.hist.records
          && OnScript(s.tasks[t], s.core.runs[RecordIdOf(s.tasks[t])]))
  }

  /** What one resumption does to the run's own record and transcript. */
  lemma AdvanceScript(core: Core, pc: Pc, ev: Event)
    requires ev.Resumed? && !IsSweep(pc) && InFlight(core, pc) && OnScript(pc, core.runs[RecordIdOf(pc)])
    ensures var o := Advance(core, pc, ev);
            var id := RecordIdOf(pc);
            && id in o.core.runs && o.core.runs == core.runs[id := o.core.runs[id]]
            && match o
               case Suspend(after, pc') =>
                 && after.hist.records == core.hist.records && !IsSweep(pc') && RecordIdOf(pc') == id
                 && OnScript(pc', after.runs[id])
               case Finish(after) =>
                 && id in after.hist.records && after.hist.records == core.hist.records[id := after.hist.records[id]]
                 && Finished(after, id)
  {
    hide TaskOk, OnScript, Effect, Resume, Finished, RecordOk, CompletedTotals;
    var id := RecordIdOf(pc);
    var run := core.runs[id];
    hide Filed;
    var w := Effect(core.world, pc, ev.landed, ev.delivered);
    var seen := Observe(core.(world := w), pc, ev.reply);
    ObserveKeepsFiled(core, pc, ev.reply, w);
    assert Advance(core, pc, ev) == Resume(seen, pc, ev.reply);
    hide Advance, Observe;
    ResumeScript(seen, pc, run, ev.reply);
  }

  ghost predicate ScriptOutcome(seen: Core, id: nat, o: Outcome)
    requires id in seen.runs
  {
    && o.core.runs == seen.runs
    && match o
       case Suspend(after, pc') =>
         && after.hist.records == seen.hist.records && !IsSweep(pc') && RecordIdOf(pc') == id
         && OnScript(pc', seen.runs[id])
       case Finish(after) =>
         && id in after.hist.records && after.hist.records == seen.hist.records[id := after.hist.records[id]]
         && Finished(after, id)
  }

  lemma ClaimOutcome(seen: Core, pc: Pc, reply: Reply)
    requires pc.AwaitClaim?
    ensures var o := AfterClaim(seen, pc, reply);
            && o.core.runs == seen.runs && (o.Suspend? <==> reply.Claimed?)
            && match o
               case Suspend(after, pc') => after.hist == seen.hist && pc'.AwaitBalanceBefore? && pc'.job.timestamp == pc.timestamp
                                           && pc'.job.recordId == pc.recordId
               case Finish(after) => exists note: Note :: (note.ClaimRetrying? || note.ClaimGaveUp?)
                                       && after.hist.records == seen.hist.records[pc.recordId := ClaimRecord(pc, note)]
  {
    hide Queued;
    if !reply.Claimed? {
      var action := NextRetryAction(pc.prior, CLAIM_RETRY_LIMIT);
      var note := if action.Retry? then ClaimRetrying(action.newCount) else ClaimGaveUp;
      assert AfterClaim(seen, pc, reply).core.hist.records == seen.hist.records[pc.recordId := ClaimRecord(pc, note)];
    }
  }

  lemma ResumeScript(seen: Core, pc: Pc, run: RunLog, reply: Reply)
    requires !IsSweep(pc) && TaskOk(pc, run) && OnScript(pc, run)
    requires RecordIdOf(pc) in seen.runs && seen.runs[RecordIdOf(pc)] == Extended(run, pc, reply)
    ensures ScriptOutcome(seen, RecordIdOf(pc), Resume(seen, pc, reply))
  {
    hide Followed, FiledAs, TaskOk, Planned, Queued, RecordOk;
    assert Followed(Extended(run, pc, reply)) by { FollowedAppend(run, pc, reply); }
    hide OnScript;
    if pc.AwaitClaim? {
      ClaimScript(pc, run, reply);
      ClaimOutcome(seen, pc, reply);
      hide AfterClaim;
    } else {
      JobScript(pc, run, reply);
      TaskStep(pc, run, reply);
      hide Decide;
    }
  }

  lemma JobScript(pc: Pc, run: RunLog, reply: Reply)
    requires !IsSweep(pc) && !pc.AwaitClaim? && TaskOk(pc, run) && OnScript(pc, run)
    ensures match Decide(pc, reply)
            case Wait(pc') => !IsSweep(pc') && OnScript(pc', Extended(run, pc, reply))
            case File(r) => Planned(Extended(run, pc, reply)) == None && FiledAs(r, Extended(run, pc, reply))
  {
    hide OnScript, TaskOk, FiledAs, Planned;
    if pc.AwaitReturn? || pc.AwaitCancel? {
      ReturnScript(pc, run, reply);
    } else if OnSwapLeg(pc) {
      if Decide(pc, reply).Wait? {
        SwapLegScript(pc, run, reply);
      } else {
        SwapLegEnds(pc, run, reply);
      }
    } else {
      PayScript(pc, run, reply);
    }
  }

  lemma BeginScript(core: Core, now: nat)
    requires Filed(core, core.hist.nextId)
    ensures match Begin(core, now)
            case Finish(after) => after.hist == core.hist && after.runs == core.runs
            case Suspend(after, pc) =>
              && pc.AwaitClaim? && pc.recordId == core.hist.nextId && pc.recordId !in core.hist.records
              && after.hist.records == core.hist.records
              && pc.recordId in after.runs && after.runs == core.runs[pc.recordId := after.runs[pc.recordId]]
              && OnScript(pc, after.runs[pc.recordId])
  {
    hide RecordOk, CompletedTotals;
  }

  lemma NextScripted(s: Sys, ev: Event)
    requires Good(s) && Scripted(s)
    ensures Scripted(Next(s, ev))
  {
    hide OnScript, Filed, Advance, Begin, Followed, FiledAs, Planned;
    if ev.Resumed? && ev.task in s.tasks {
      assert s.tasks - {ev.task} == map[];
      var pc := s.tasks[ev.task];
      assert InFlight(s.core, pc);
      if IsSweep(pc) {
        SweepScript(s.core, pc, ev);
      } else {
        hide InFlight;
        AdvanceScript(s.core, pc, ev);
      }
    } else if ev.Tick? && !s.processing {
      BeginScript(s.core, ev.now);
    }
  }

  lemma SweepScript(core: Core, pc: Pc, ev: Event)
    requires ev.Resumed? && IsSweep(pc)
    ensures var o := Advance(core, pc, ev);
            o.core.hist == core.hist && o.core.runs == core.runs && (o.Suspend? ==> IsSweep(o.pc))
  {
  }

  lemma {:induction false} ScriptedOnRuns(cfg: Config, wallet: nat, fee: nat, evs: seq<Event>)
    ensures Scripted(Run(Init(cfg, wallet, fee), evs))
  {
    if evs != [] {
      var init := evs[..|evs| - 1];
      ScriptedOnRuns(cfg, wallet, fee, init);
      AlwaysGood(cfg, wallet, fee, init);
      hide Good, Scripted, Next;
      NextScripted(Run(Init(cfg, wallet, fee), init), evs[|evs| - 1]);
    }
  }

  /** In every reachable state, whatever interleaves and whatever the run was told: each call it made was
      the planned one, with its planned arguments; if it is suspended it waits on the planned one; and it
      is on file exactly when nothing more is planned, with every figure as the script has it. */
  lemma RunsFollowScript(cfg: Config, wallet: nat, fee: nat, evs: seq<Event>, id: nat)
    requires id in Run(Init(cfg, wallet, fee), evs).core.runs
    ensures var s := Run(Init(cfg, wallet, fee), evs);
            var run := s.core.runs[id];
            && Followed(run)
            && (id in s.core.hist.records <==> Planned(run) == None)
            && (id in s.core.hist.records ==> FiledAs(s.core.hist.records[id], run))
            && (id !in s.core.hist.records ==>
                  exists t :: t in s.tasks && !IsSweep(s.tasks[t]) && RecordIdOf(s.tasks[t]) == id
                              && Planned(run) == Some(Outgoing(s.tasks[t])))
  {
    var s := Run(Init(cfg, wallet, fee), evs);
    ScriptedOnRuns(cfg, wallet, fee, evs);
    AlwaysGood(cfg, wallet, fee, evs);
    hide Run, Followed, Planned, FiledAs, RecordOk, TaskOk;
    if id !in s.core.hist.records {
      UnfiledIsInFlight(s, id);
    }
  }

  lemma UnfiledIsInFlight(s: Sys, id: nat)
    requires Good(s) && id in s.core.runs && id !in s.core.hist.records
    ensures exists t :: t in s.tasks && !IsSweep(s.tasks[t]) && RecordIdOf(s.tasks[t]) == id
  {
    hide RecordOk, TaskOk;
    if s.tasks != map[] {
      var t :| t in s.tasks;
      assert InFlight(s.core, s.tasks[t]);
      assert !IsSweep(s.tasks[t]) && RecordIdOf(s.tasks[t]) == id;
    }
  }
}
