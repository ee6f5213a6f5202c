/** What the bot guarantees over whole runs, however its steps interleave and whatever it is told. */
module BotTheorems {
  import opened Prelude
  import opened BotTypes
  import opened BotMath
  import opened History
  import opened BotMachine
  import opened BotInvariant

  // ---- Order of calls ----

  /** No run ever both cancels and confirms. */
  lemma NeverBoth(tr: seq<Exchange>)
    requires Ordered(tr)
    ensures !(Asked(tr, KCancel) && Asked(tr, KConfirm))
  {
    if Asked(tr, KCancel) {
      var i :| 0 <= i < |tr| && KindOf(tr[i].call) == KCancel;
      assert MayAsk(tr[..i], KCancel);
      forall j | 0 <= j < |tr| ensures KindOf(tr[j].call) != KConfirm {
        assert MayAsk(tr[..j], KindOf(tr[j].call));
        assert j < i ==> tr[..i][j] == tr[j];
        assert i < j ==> tr[..j][i] == tr[i];
      }
    }
  }

  /** In every reachable state, every run that ever started made its calls in the legal order,
      never both cancelled and confirmed, and is waiting on a call it was allowed to make. */
  lemma CallsInOrder(cfg: Config, wallet: nat, fee: nat, evs: seq<Event>, id: nat)
    requires id in Run(Init(cfg, wallet, fee), evs).core.runs
    ensures var s := Run(Init(cfg, wallet, fee), evs);
            var tr := s.core.runs[id].transcript;
            && Ordered(tr) && !(Asked(tr, KCancel) && Asked(tr, KConfirm))
            && forall t :: t in s.tasks && !IsSweep(s.tasks[t]) && RecordIdOf(s.tasks[t]) == id ==>
                 MayAsk(tr, KindOf(Outgoing(s.tasks[t])))
  {
    var s := Run(Init(cfg, wallet, fee), evs);
    AlwaysGood(cfg, wallet, fee, evs);
    hide Good, Ordered, Run, MayAsk, Asked;
    RunsAreOrdered(s, id);
    NeverBoth(s.core.runs[id].transcript);
    forall t | t in s.tasks && !IsSweep(s.tasks[t]) && RecordIdOf(s.tasks[t]) == id
      ensures MayAsk(s.core.runs[id].transcript, KindOf(Outgoing(s.tasks[t])))
    {
      PendingIsLegal(s, t);
    }
  }

  lemma PendingIsLegal(s: Sys, t: nat)
    requires Good(s) && t in s.tasks && !IsSweep(s.tasks[t]) && RecordIdOf(s.tasks[t]) in s.core.runs
    ensures MayAsk(s.core.runs[RecordIdOf(s.tasks[t])].transcript, KindOf(Outgoing(s.tasks[t])))
  {
    assert InFlight(s.core, s.tasks[t]);
    hide Phase, Ordered, RecordOk;
    if !s.tasks[t].AwaitClaim? {
      OutgoingIsLegal(s.tasks[t], s.core.runs[RecordIdOf(s.tasks[t])].transcript);
    }
  }

  lemma RunsAreOrdered(s: Sys, id: nat)
    requires Good(s) && id in s.core.runs
    ensures Ordered(s.core.runs[id].transcript)
  {
    hide Ordered, StatusOk, CompletedOk, Phase;
    if s.tasks != map[] {
      var t :| t in s.tasks;
      assert InFlight(s.core, s.tasks[t]);
    }
  }

  // ---- History and totals ----

  datatype Figure = DebtFigure | CollateralFigure | BonusFigure | CountFigure

  /** What a completed record contributes to a total. */
  function FigureOf(r: Record, f: Figure): nat {
    match f
    case DebtFigure => r.debtToCover
    case CollateralFigure => r.collateralClaimed
    case BonusFigure => r.icpToTreasury
    case CountFigure => 1
  }

  /** The sum of a figure over the completed records below `n`. */
  function SumCompleted(records: map<nat, Record>, n: nat, f: Figure): nat {
    if n == 0 then 0
    else
      SumCompleted(records, n - 1, f)
      + if n - 1 in records && records[n - 1].status == Completed then FigureOf(records[n - 1], f) else 0
  }

  lemma {:induction false} TotalsAreSums(records: map<nat, Record>, n: nat)
    ensures var totals := CompletedTotals(records, n);
            && totals.debtCovered == SumCompleted(records, n, DebtFigure)
            && totals.collateralReceived == SumCompleted(records, n, CollateralFigure)
            && totals.toTreasury == SumCompleted(records, n, BonusFigure)
            && totals.eventsCount == SumCompleted(records, n, CountFigure)
  {
    if n > 0 {
      TotalsAreSums(records, n - 1);
    }
  }

  /** Between runs: every id below the counter has exactly one record, each total is the sum of its own
      figure over the completed ones, and each completed record adds up. */
  lemma HistoryAndStats(cfg: Config, wallet: nat, fee: nat, evs: seq<Event>)
    requires Run(Init(cfg, wallet, fee), evs).tasks == map[]
    ensures var core := Run(Init(cfg, wallet, fee), evs).core;
            var records, n := core.hist.records, core.hist.nextId;
            && Dense(core.hist) && core.runs.Keys == records.Keys
            && core.stats.debtCovered == SumCompleted(records, n, DebtFigure)
            && core.stats.collateralReceived == SumCompleted(records, n, CollateralFigure)
            && core.stats.toTreasury == SumCompleted(records, n, BonusFigure)
            && core.stats.eventsCount == SumCompleted(records, n, CountFigure)
            && forall id :: id in records && records[id].status == Completed ==>
                 var r := records[id];
                 && r.icpSwapped + r.icpToTreasury == r.collateralClaimed
                 && r.ckusdcTransferred + FeeOr(core.runs[id].cfg.ckusdcFee) == r.ckusdcReceived
                 && 1 <= r.confirmRetries <= 5
  {
    AlwaysGood(cfg, wallet, fee, evs);
    var core := Run(Init(cfg, wallet, fee), evs).core;
    assert Filed(core, core.hist.nextId);
    TotalsAreSums(core.hist.records, core.hist.nextId);
    hide Ordered, StatusOk, SumCompleted, CompletedTotals, Run;
    forall id | id in core.hist.records && core.hist.records[id].status == Completed
      ensures CompletedOk(core.hist.records[id], core.runs[id])
    {
      assert RecordOk(core.hist.records[id], core.runs[id]);
    }
  }

  lemma AdvanceKeepsRecord(core: Core, pc: Pc, ev: Event, id: nat)
    requires ev.Resumed? && InFlight(core, pc) && id in core.hist.records
    ensures var after := Advance(core, pc, ev).core.hist.records;
            id in after && after[id] == core.hist.records[id]
  {
    hide RecordOk, TaskOk, CompletedTotals, Effect;
  }

  lemma NextKeepsRecord(s: Sys, ev: Event, id: nat)
    requires Good(s) && id in s.core.hist.records
    ensures id in Next(s, ev).core.hist.records && Next(s, ev).core.hist.records[id] == s.core.hist.records[id]
  {
    hide InFlight, Advance, Filed;
    if ev.Resumed? && ev.task in s.tasks {
      AdvanceKeepsRecord(s.core, s.tasks[ev.task], ev, id);
    }
  }

  /** A record, once written, never changes. */
  lemma {:induction false} RecordsAreKept(s: Sys, evs: seq<Event>, id: nat)
    requires Good(s) && id in s.core.hist.records
    ensures Good(Run(s, evs)) && id in Run(s, evs).core.hist.records
    ensures Run(s, evs).core.hist.records[id] == s.core.hist.records[id]
  {
    if evs != [] {
      RecordsAreKept(s, evs[..|evs| - 1], id);
      NextKeeps(Run(s, evs[..|evs| - 1]), evs[|evs| - 1]);
      NextKeepsRecord(Run(s, evs[..|evs| - 1]), evs[|evs| - 1], id);
    }
  }

  // ---- Stuck records are exactly the open claims ----

  /** The backend's answer to claim, cancel and confirm says whether the call took effect. */
  predicate TellsTruth(pc: Pc, ev: Event)
    requires ev.Resumed?
  {
    && (pc.AwaitClaim? ==> (ev.landed <==> ev.reply.Claimed?))
    && (pc.AwaitCancel? || pc.AwaitConfirm? ==> (ev.landed <==> ev.reply.Done?))
  }

  predicate Faithful(s: Sys, ev: Event) {
    ev.Resumed? && ev.task in s.tasks ==> TellsTruth(s.tasks[ev.task], ev)
  }

  ghost predicate FaithfulRun(s: Sys, evs: seq<Event>) {
    forall i :: 0 <= i < |evs| ==> Faithful(Run(s, evs[..i]), evs[i])
  }

  ghost predicate OpenAgrees(core: Core) {
    forall id :: id in core.world.open <==> id in core.runs && ClaimOpen(core.runs[id].transcript)
  }

  lemma OpenAppend(pc: Pc, run: RunLog, reply: Reply)
    requires !IsSweep(pc) && TaskOk(pc, run)
    ensures var tr, tr' := run.transcript, Extended(run, pc, reply).transcript;
            && (pc.AwaitClaim? ==> !ClaimOpen(tr) && (ClaimOpen(tr') <==> reply.Claimed?))
            && (pc.AwaitCancel? || pc.AwaitConfirm? ==> ClaimOpen(tr) && (ClaimOpen(tr') <==> !reply.Done?))
            && (!pc.AwaitClaim? && !pc.AwaitCancel? && !pc.AwaitConfirm? ==> (ClaimOpen(tr') <==> ClaimOpen(tr)))
  {
    hide Ordered, Phase;
    AppendFacts(run.transcript, Exchange(Outgoing(pc), reply));
    if pc.AwaitClaim? {
      EmptyFacts();
    } else {
      PhaseWon(pc, run.transcript);
      if pc.AwaitCancel? || pc.AwaitConfirm? {
        PhaseOpen(pc, run.transcript);
      }
    }
    hide Asked, Did;
  }

  lemma PhaseWon(pc: Pc, tr: seq<Exchange>)
    requires !IsSweep(pc) && !pc.AwaitClaim? && Phase(pc, tr)
    ensures Won(tr)
  {
  }

  lemma PhaseOpen(pc: Pc, tr: seq<Exchange>)
    requires (pc.AwaitCancel? || pc.AwaitConfirm?) && Phase(pc, tr)
    ensures ClaimOpen(tr)
  {
  }

  /** A step touches the outside only through its call's effect, and the transcripts only by the reply. */
  lemma AdvanceFrame(core: Core, pc: Pc, ev: Event)
    requires ev.Resumed?
    ensures var after := Advance(core, pc, ev).core;
            && after.world == Effect(core.world, pc, ev.landed, ev.delivered)
            && after.runs == (if IsSweep(pc) || RecordIdOf(pc) !in core.runs then core.runs
                              else core.runs[RecordIdOf(pc) := Extended(core.runs[RecordIdOf(pc)], pc, ev.reply)])
  {
    hide Effect, Decide;
  }

  /** A step keeps the records' view of the open claims in agreement with the backend exactly when the
      reply tells the truth about whether the call took effect. */
  lemma AgreesIffFaithful(core: Core, pc: Pc, ev: Event)
    requires ev.Resumed? && InFlight(core, pc) && OpenAgrees(core)
    ensures OpenAgrees(Advance(core, pc, ev).core) <==> TellsTruth(pc, ev)
  {
    hide Advance, ClaimOpen, Filed, TaskOk;
    AdvanceFrame(core, pc, ev);
    if !IsSweep(pc) {
      assert RecordIdOf(pc) in core.runs by { InFlightHasRun(core, pc); }
      OpenAppend(pc, core.runs[RecordIdOf(pc)], ev.reply);
      var after := Advance(core, pc, ev).core;
      assert forall id :: id != RecordIdOf(pc) ==> (id in after.world.open <==> id in core.world.open);
      assert RecordIdOf(pc) in after.runs;
    }
  }

  lemma InFlightHasRun(core: Core, pc: Pc)
    requires !IsSweep(pc) && InFlight(core, pc)
    ensures RecordIdOf(pc) in core.runs && TaskOk(pc, core.runs[RecordIdOf(pc)])
  {
    hide TaskOk, RecordOk;
  }

  lemma NextOpenAgrees(s: Sys, ev: Event)
    requires Good(s) && OpenAgrees(s.core) && Faithful(s, ev)
    ensures OpenAgrees(Next(s, ev).core)
  {
    hide Filed, InFlight, ClaimOpen, Advance;
    if ev.Resumed? && ev.task in s.tasks {
      AgreesIffFaithful(s.core, s.tasks[ev.task], ev);
    } else if ev.Tick? && !s.processing {
      BeginOpenAgrees(s.core, ev.now);
    }
  }

  lemma BeginOpenAgrees(core: Core, now: nat)
    requires OpenAgrees(core) && Filed(core, core.hist.nextId)
    ensures OpenAgrees(Begin(core, now).core)
  {
    hide RecordOk;
  }

  lemma {:induction false} OpenAgreesOnRuns(cfg: Config, wallet: nat, fee: nat, evs: seq<Event>)
    requires FaithfulRun(Init(cfg, wallet, fee), evs)
    ensures OpenAgrees(Run(Init(cfg, wallet, fee), evs).core)
  {
    if evs != [] {
      var s0 := Init(cfg, wallet, fee);
      var init := evs[..|evs| - 1];
      forall i | 0 <= i < |init| ensures Faithful(Run(s0, init[..i]), init[i]) {
        assert init[..i] == evs[..i];
      }
      OpenAgreesOnRuns(cfg, wallet, fee, init);
      AlwaysGood(cfg, wallet, fee, init);
      NextOpenAgrees(Run(s0, init), evs[|evs| - 1]);
    }
  }

  /** With a faithful backend, between runs the claims open there are exactly the stuck records. */
  lemma StuckIffOpen(cfg: Config, wallet: nat, fee: nat, evs: seq<Event>)
    requires FaithfulRun(Init(cfg, wallet, fee), evs)
    requires Run(Init(cfg, wallet, fee), evs).tasks == map[]
    ensures var core := Run(Init(cfg, wallet, fee), evs).core;
            forall id :: id in core.world.open <==> id in core.hist.records && Stuck(core.hist.records[id])
  {
    OpenAgreesOnRuns(cfg, wallet, fee, evs);
    AlwaysGood(cfg, wallet, fee, evs);
    var core := Run(Init(cfg, wallet, fee), evs).core;
    hide ClaimOpen, Ordered, CompletedOk, CompletedTotals;
    forall id
      ensures id in core.world.open <==> id in core.hist.records && Stuck(core.hist.records[id])
    {
      if id in core.hist.records {
        assert RecordOk(core.hist.records[id], core.runs[id]);
      }
    }
  }

  /** The operator's list shows open claims only, newest first, and an open claim it misses is
      older than the hundred it shows. */
  lemma StuckListShowsOpenClaims(cfg: Config, wallet: nat, fee: nat, evs: seq<Event>, found: seq<Record>, id: nat)
    requires FaithfulRun(Init(cfg, wallet, fee), evs)
    requires Run(Init(cfg, wallet, fee), evs).tasks == map[]
    requires var hist := Run(Init(cfg, wallet, fee), evs).core.hist;
             found <= StuckBelow(hist.records, hist.nextId)
             && (|found| < MAX_STUCK ==> found == StuckBelow(hist.records, hist.nextId))
    requires id in Run(Init(cfg, wallet, fee), evs).core.world.open
    ensures var core := Run(Init(cfg, wallet, fee), evs).core;
            && (forall i :: 0 <= i < |found| ==> found[i].id in core.world.open)
            && id in core.hist.records
            && (core.hist.records[id] in found
                || (|found| >= MAX_STUCK && forall i :: 0 <= i < |found| ==> found[i].id > id))
  {
    var core := Run(Init(cfg, wallet, fee), evs).core;
    StuckIffOpen(cfg, wallet, fee, evs);
    HistoryAndStats(cfg, wallet, fee, evs);
    hide Run, CompletedTotals;
    StuckListIsNewest(core.hist, found, core.hist.records[id]);
  }

  /** What a refused last confirm leaves: a stuck record, whose claim is open exactly if the call did
      not take effect after all. So a lost reply files as stuck what the backend has closed. */
  lemma LostConfirmReply(core: Core, pc: Pc, ev: Event)
    requires ev.Resumed? && pc.AwaitConfirm? && InFlight(core, pc) && OpenAgrees(core)
    requires pc.attempt == CONFIRM_ATTEMPTS - 1 && !ev.reply.Done?
    ensures var after := Advance(core, pc, ev).core;
            && pc.job.recordId in after.hist.records && Stuck(after.hist.records[pc.job.recordId])
            && (pc.job.recordId in after.world.open <==> !ev.landed)
  {
    InFlightHasRun(core, pc);
    PhaseOpen(pc, core.runs[pc.job.recordId].transcript);
  }

  // ---- Ring-fence ----

  /** A balance reading is what the wallet held at some moment since; deposits may have come on top. */
  predicate Truthful(s: Sys, ev: Event) {
    ev.Resumed? && ev.task in s.tasks && ReadOk(ev.reply)
    && (s.tasks[ev.task].AwaitBalanceBefore? || s.tasks[ev.task].AwaitBalanceAfter?) ==>
      ev.reply.n <= s.core.world.wallet
  }

  /** The fee the run was configured with covers what the ledger takes. */
  predicate FeeCovered(s: Sys, ev: Event) {
    ev.Resumed? && ev.task in s.tasks && s.tasks[ev.task].AwaitTransfer? ==>
      s.core.world.ledgerFee <= CkusdcFee(s.tasks[ev.task].job)
  }

  ghost predicate HonestRun(s: Sys, evs: seq<Event>) {
    forall i :: 0 <= i < |evs| ==> Truthful(Run(s, evs[..i]), evs[i]) && FeeCovered(Run(s, evs[..i]), evs[i])
  }

  /** Every balance reading made so far succeeded, and at least the first was made. */
  ghost predicate ReadsOk(tr: seq<Exchange>) {
    && |tr| >= 2 && ReadOk(tr[1].reply)
    && (|tr| >= 5 && tr[4].call == Balance ==> ReadOk(tr[4].reply))
  }

  /** The wallet still holds the pre-swap balance and, until the transfer, the post-swap one. */
  ghost predicate Fence(pc: Pc, tr: seq<Exchange>, wallet: nat) {
    ReadsOk(tr) ==>
      && tr[1].reply.n <= wallet
      && (pc.AwaitTransfer? && |tr| >= 5 && tr[4].reply.Value? ==> tr[4].reply.n <= wallet)
  }

  ghost predicate Fenced(s: Sys) {
    forall t :: t in s.tasks && !IsSweep(s.tasks[t]) && RecordIdOf(s.tasks[t]) in s.core.runs ==>
      Fence(s.tasks[t], s.core.runs[RecordIdOf(s.tasks[t])].transcript, s.core.world.wallet)
  }

  /** The transfer never reaches below the pre-swap balance, whether or not its reply arrives. */
  lemma TransferStaysAbove(w: World, job: Job, tr: seq<Exchange>, res: Reservation, landed: bool)
    requires |tr| == 5 && KnowsReservation(tr, job, res) && ReadsOk(tr)
    requires tr[1].reply.n <= w.wallet && tr[4].reply.n <= w.wallet && w.ledgerFee <= CkusdcFee(job)
    ensures Debit(w, SendAmount(job, res), landed).wallet >= tr[1].reply.n
  {
  }

  lemma StepFence(w: World, pc: Pc, run: RunLog, ev: Event)
    requires ev.Resumed? && !IsSweep(pc) && TaskOk(pc, run) && Fence(pc, run.transcript, w.wallet)
    requires (pc.AwaitBalanceBefore? || pc.AwaitBalanceAfter?) && ReadOk(ev.reply) ==> ev.reply.n <= w.wallet
    requires pc.AwaitTransfer? ==> w.ledgerFee <= CkusdcFee(pc.job)
    ensures var tr' := Extended(run, pc, ev.reply).transcript;
            var w' := Effect(w, pc, ev.landed, ev.delivered);
            && (ReadsOk(tr') ==> tr'[1].reply.n <= w'.wallet)
            && (pc.AwaitBalanceAfter? && ReadsOk(tr') ==> |tr'| == 5 && tr'[4].reply.n <= w'.wallet)
  {
    hide Ordered, Asked, Did;
    if pc.AwaitTransfer? && ReadsOk(run.transcript) {
      TransferStaysAbove(w, pc.job, run.transcript, pc.res, ev.landed);
    }
  }

  lemma AdvanceFence(core: Core, pc: Pc, ev: Event)
    requires ev.Resumed? && !IsSweep(pc) && InFlight(core, pc)
    requires Fence(pc, core.runs[RecordIdOf(pc)].transcript, core.world.wallet)
    requires (pc.AwaitBalanceBefore? || pc.AwaitBalanceAfter?) && ReadOk(ev.reply) ==> ev.reply.n <= core.world.wallet
    requires pc.AwaitTransfer? ==> core.world.ledgerFee <= CkusdcFee(pc.job)
    ensures var o := Advance(core, pc, ev);
            && RecordIdOf(pc) in o.core.runs
            && var tr' := o.core.runs[RecordIdOf(pc)].transcript;
               && (ReadsOk(tr') ==> tr'[1].reply.n <= o.core.world.wallet)
               && (o.Suspend? ==> !IsSweep(o.pc) && RecordIdOf(o.pc) == RecordIdOf(pc) && Fence(o.pc, tr', o.core.world.wallet))
  {
    InFlightHasRun(core, pc);
    hide InFlight, TaskOk, Effect, Advance, ReadsOk;
    AdvanceFrame(core, pc, ev);
    AdvanceShape(core, pc, ev);
    StepFence(core.world, pc, core.runs[RecordIdOf(pc)], ev);
  }

  /** A run keeps its id, and reaches its transfer only from the second balance reading. */
  lemma AdvanceShape(core: Core, pc: Pc, ev: Event)
    requires ev.Resumed? && !IsSweep(pc)
    ensures var o := Advance(core, pc, ev);
            o.Suspend? ==> !IsSweep(o.pc) && RecordIdOf(o.pc) == RecordIdOf(pc) && (o.pc.AwaitTransfer? ==> pc.AwaitBalanceAfter?)
  {
    hide Effect, Observe;
  }

  lemma NextFenced(s: Sys, ev: Event)
    requires Good(s) && Fenced(s) && Truthful(s, ev) && FeeCovered(s, ev)
    ensures Fenced(Next(s, ev))
  {
    hide Filed, Advance, Effect, TaskOk;
    if ev.Resumed? && ev.task in s.tasks {
      assert s.tasks - {ev.task} == map[];
      var pc := s.tasks[ev.task];
      assert InFlight(s.core, pc);
      if IsSweep(pc) {
        SweepStaysSweep(s.core, pc, ev);
      } else {
        InFlightHasRun(s.core, pc);
        AdvanceFence(s.core, pc, ev);
      }
    } else if ev.Tick? {
      BeginFence(s.core, ev.now);
    }
  }

  lemma SweepStaysSweep(core: Core, pc: Pc, ev: Event)
    requires ev.Resumed? && IsSweep(pc)
    ensures Advance(core, pc, ev).Suspend? ==> IsSweep(Advance(core, pc, ev).pc)
  {
  }

  lemma BeginFence(core: Core, now: nat)
    ensures Begin(core, now).Suspend? ==>
              var o := Begin(core, now);
              o.pc.AwaitClaim? && o.pc.recordId in o.core.runs && o.core.runs[o.pc.recordId].transcript == []
  {
  }

  lemma {:induction false} FencedOnRuns(cfg: Config, wallet: nat, fee: nat, evs: seq<Event>)
    requires HonestRun(Init(cfg, wallet, fee), evs)
    ensures Fenced(Run(Init(cfg, wallet, fee), evs))
  {
    if evs != [] {
      var s0 := Init(cfg, wallet, fee);
      var init := evs[..|evs| - 1];
      forall i | 0 <= i < |init| ensures Truthful(Run(s0, init[..i]), init[i]) && FeeCovered(Run(s0, init[..i]), init[i]) {
        assert init[..i] == evs[..i];
      }
      FencedOnRuns(cfg, wallet, fee, init);
      AlwaysGood(cfg, wallet, fee, init);
      assert evs[..|evs| - 1] == init;
      NextFenced(Run(s0, init), evs[|evs| - 1]);
    }
  }

  /** Ring-fence: after every step of a run whose balance readings succeeded, its last one
      included, the wallet holds at least the pre-swap balance. The transfer's reply may be lost;
      sweeps are kept out by the lock, which `AlwaysGood` shows. */
  lemma RingFence(cfg: Config, wallet: nat, fee: nat, evs: seq<Event>, ev: Event)
    requires HonestRun(Init(cfg, wallet, fee), evs)
    requires var s := Run(Init(cfg, wallet, fee), evs);
             && ev.Resumed? && ev.task in s.tasks && !IsSweep(s.tasks[ev.task])
             && Truthful(s, ev) && FeeCovered(s, ev)
    ensures var s := Run(Init(cfg, wallet, fee), evs);
            var after := Next(s, ev).core;
            var id := RecordIdOf(s.tasks[ev.task]);
            && id in after.runs
            && (ReadsOk(after.runs[id].transcript) ==> after.runs[id].transcript[1].reply.n <= after.world.wallet)
  {
    var s := Run(Init(cfg, wallet, fee), evs);
    AlwaysGood(cfg, wallet, fee, evs);
    FencedOnRuns(cfg, wallet, fee, evs);
    var pc := s.tasks[ev.task];
    assert InFlight(s.core, pc);
    InFlightHasRun(s.core, pc);
    hide InFlight, Run, Advance;
    AdvanceFence(s.core, pc, ev);
  }

  // ---- The fence without the second reading ----

  /** What a run may spend when its second reading failed: the router's figure, cut where the made-up
      balance saturates. */
  function UnreadSpend(tr: seq<Exchange>): nat
    requires |tr| >= 4 && ReadOk(tr[1].reply) && tr[3].reply.Value?
  {
    Min(ClampU64(tr[3].reply.n), U64_MAX - tr[1].reply.n)
  }

  lemma UnreadReservation(tr: seq<Exchange>, job: Job, res: Reservation)
    requires |tr| == 5 && KnowsReservation(tr, job, res) && !ReadOk(tr[4].reply)
    ensures ReadOk(tr[1].reply) && SendAmount(job, res) + CkusdcFee(job) == UnreadSpend(tr)
  {
    ReservationNeedsRead(tr, job, res);
  }

  /** Both readings are needed, and this is exactly how far one alone goes. In every reachable state
      in which a run is about to be told how its transfer went and its second reading had failed: if
      the transfer took effect, the wallet still holds the pre-swap balance afterwards if and only if
      it had gained the router's figure less the configured fee plus the ledger's; if it did not, if
      and only if it held that balance before. */
  lemma FenceIffSwapDelivered(cfg: Config, wallet: nat, fee: nat, evs: seq<Event>, ev: Event)
    requires var s := Run(Init(cfg, wallet, fee), evs);
             && ev.Resumed? && ev.task in s.tasks && s.tasks[ev.task].AwaitTransfer?
             && s.tasks[ev.task].job.recordId in s.core.runs
             && var tr := s.core.runs[s.tasks[ev.task].job.recordId].transcript;
                |tr| >= 5 && !ReadOk(tr[4].reply)
    ensures var s := Run(Init(cfg, wallet, fee), evs);
            var job := s.tasks[ev.task].job;
            var tr := s.core.runs[job.recordId].transcript;
            && ReadOk(tr[1].reply) && tr[3].reply.Value? && CkusdcFee(job) <= UnreadSpend(tr)
            && var before, w := tr[1].reply.n, s.core.world;
               var spend := UnreadSpend(tr) - CkusdcFee(job) + w.ledgerFee;
               var took := ev.landed && w.wallet >= spend;
               (Next(s, ev).core.world.wallet >= before <==> w.wallet >= if took then before + spend else before)
  {
    var s := Run(Init(cfg, wallet, fee), evs);
    AlwaysGood(cfg, wallet, fee, evs);
    var pc := s.tasks[ev.task];
    assert InFlight(s.core, pc);
    InFlightHasRun(s.core, pc);
    UnreadReservation(s.core.runs[pc.job.recordId].transcript, pc.job, pc.res);
    hide InFlight, Run, Advance, TaskOk;
    AdvanceFrame(s.core, pc, ev);
  }

  const SHORT_CONFIG := Config(1, 2, 3, 100, true, Some(true), Some(10), Some(10))
  const SHORT_VAULT := Vault(7, 1_000, 1_000, E8)
  const SHORT_JOB := Job(SHORT_CONFIG, 7, 0, 0, 1_000, 500, E8, 525)
  const SHORT_CLAIM := Claimed(1_000, 500, E8)

  /** The router reports 100 where the pool delivers 60, and the second reading is lost. */
  const SHORT_DELIVERY: seq<Event> :=
    [Notify(1, [SHORT_VAULT]), Tick(0, 0), Resumed(0, SHORT_CLAIM, true, 0),
     Resumed(0, Value(50), true, 0), Resumed(0, Value(100), true, 0), Resumed(0, Value(100), true, 60),
     Resumed(0, Failed, true, 0), Resumed(0, Done, true, 0)]

  /** The state is suspended in run 0 at `pc`, having been told `tr`. */
  predicate At(s: Sys, pc: Pc, tr: seq<Exchange>, wallet: nat) {
    && s.tasks == map[0 := pc] && 0 in s.core.runs && s.core.runs[0].transcript == tr
    && s.core.world.wallet == wallet && s.core.world.ledgerFee == 10
  }

  lemma StepAt(s: Sys, pc: Pc, tr: seq<Exchange>, wallet: nat, ev: Event)
    requires !IsSweep(pc) && !pc.AwaitClaim? && pc.job.recordId == 0 && At(s, pc, tr, wallet)
    requires ev.Resumed? && ev.task == 0 && Decide(pc, ev.reply).Wait?
    ensures At(Next(s, ev), Decide(pc, ev.reply).pc, tr + [Exchange(Outgoing(pc), ev.reply)],
               Effect(s.core.world, pc, ev.landed, ev.delivered).wallet)
  {
    hide Decide;
  }

  lemma RunSteps(s: Sys, evs: seq<Event>, n: nat)
    requires n < |evs|
    ensures Run(s, evs[..n + 1]) == Next(Run(s, evs[..n]), evs[n])
  {
    assert evs[..n + 1][..n] == evs[..n];
  }

  lemma ClaimAt(s: Sys, pc: Pc, reply: Reply)
    requires pc.AwaitClaim? && pc.recordId == 0 && reply.Claimed? && At(s, pc, [], s.core.world.wallet)
    ensures At(Next(s, Resumed(0, reply, true, 0)),
               AwaitBalanceBefore(Job(pc.cfg, pc.vault.vaultId, 0, pc.timestamp, reply.collateral, reply.debt, reply.price,
                                      CalculateSwapAmount(reply.collateral, reply.debt, reply.price))),
               [Exchange(Claim(pc.vault.vaultId), reply)], s.core.world.wallet)
  {
    hide CalculateSwapAmount;
  }

  lemma ShortDeliveryBegins(s0: Sys, s1: Sys)
    requires s0 == Init(SHORT_CONFIG, 50, 10) && s1 == Next(s0, Notify(1, [SHORT_VAULT]))
    ensures s0.tasks == map[] && s1.tasks == map[]
    ensures At(Next(s1, Tick(0, 0)), AwaitClaim(SHORT_VAULT, SHORT_CONFIG, 0, 0, 0), [], 50)
  {
    assert s1 == s0.(core := s0.core.(pending := [SHORT_VAULT]));
  }

  lemma ShortDeliveryClaims()
    ensures var s0 := Init(SHORT_CONFIG, 50, 10);
            && Run(s0, SHORT_DELIVERY[..0]).tasks == map[] && Run(s0, SHORT_DELIVERY[..1]).tasks == map[]
            && Run(s0, SHORT_DELIVERY[..2]).tasks == map[0 := AwaitClaim(SHORT_VAULT, SHORT_CONFIG, 0, 0, 0)]
            && At(Run(s0, SHORT_DELIVERY[..3]), AwaitBalanceBefore(SHORT_JOB), [Exchange(Claim(7), SHORT_CLAIM)], 50)
  {
    var s0 := Init(SHORT_CONFIG, 50, 10);
    assert SHORT_DELIVERY[..0] == [];
    assert Run(s0, SHORT_DELIVERY[..0]) == s0;
    RunSteps(s0, SHORT_DELIVERY, 0);
    RunSteps(s0, SHORT_DELIVERY, 1);
    RunSteps(s0, SHORT_DELIVERY, 2);
    hide Run, Next;
    ShortDeliveryBegins(s0, Run(s0, SHORT_DELIVERY[..1]));
    ClaimAt(Run(s0, SHORT_DELIVERY[..2]), AwaitClaim(SHORT_VAULT, SHORT_CONFIG, 0, 0, 0), SHORT_CLAIM);
    assert CalculateSwapAmount(1_000, 500, E8) == 525;
  }

  /** What run 0 has been told by the time of its transfer. */
  const SHORT_TOLD: seq<Exchange> :=
    [Exchange(Claim(7), SHORT_CLAIM), Exchange(Balance, Value(50)), Exchange(Quote(525), Value(100)),
     Exchange(Swap(525, 99), Value(100)), Exchange(Balance, Failed), Exchange(Transfer(90), Done)]

  /** After `n` events the run waits at `pc`, and has been told all but the last of what is listed. */
  ghost predicate TracedTo(s: Sys, evs: seq<Event>, told: seq<Exchange>, n: nat, pc: Pc, wallet: nat) {
    2 <= n <= |evs| && n - 2 <= |told| && At(Run(s, evs[..n]), pc, told[..n - 2], wallet)
  }

  lemma TraceStep(s: Sys, evs: seq<Event>, told: seq<Exchange>, n: nat, pc: Pc, wallet: nat, pc': Pc)
    requires TracedTo(s, evs, told, n, pc, wallet) && n < |evs| && n - 1 <= |told|
    requires !IsSweep(pc) && !pc.AwaitClaim? && pc.job.recordId == 0 && evs[n].Resumed? && evs[n].task == 0
    requires Decide(pc, evs[n].reply) == Wait(pc') && Exchange(Outgoing(pc), evs[n].reply) == told[n - 2]
    ensures TracedTo(s, evs, told, n + 1, pc', Effect(World(wallet, 10, {}), pc, evs[n].landed, evs[n].delivered).wallet)
  {
    hide Run, Next, Decide, Outgoing, Effect;
    var at := Run(s, evs[..n]);
    RunSteps(s, evs, n);
    StepAt(at, pc, told[..n - 2], wallet, evs[n]);
    EffectWallet(at.core.world, World(wallet, 10, {}), pc, evs[n]);
    assert told[..n - 2] + [told[n - 2]] == told[..n - 1];
  }

  /** What a call leaves in the wallet depends on nothing but the wallet and the ledger's fee. */
  lemma EffectWallet(w: World, v: World, pc: Pc, ev: Event)
    requires ev.Resumed? && w.wallet == v.wallet && w.ledgerFee == v.ledgerFee
    ensures Effect(w, pc, ev.landed, ev.delivered).wallet == Effect(v, pc, ev.landed, ev.delivered).wallet
  {
  }

  lemma ShortDeliveryDecides()
    ensures Decide(AwaitBalanceBefore(SHORT_JOB), Value(50)) == Wait(AwaitQuote(SHORT_JOB, 50))
    ensures Decide(AwaitQuote(SHORT_JOB, 50), Value(100)) == Wait(AwaitSwap(SHORT_JOB, 50, 99))
    ensures Decide(AwaitSwap(SHORT_JOB, 50, 99), Value(100)) == Wait(AwaitBalanceAfter(SHORT_JOB, 50, 100))
    ensures Decide(AwaitBalanceAfter(SHORT_JOB, 50, 100), Failed) == Wait(AwaitTransfer(SHORT_JOB, Reservation(100, 100, false)))
    ensures Decide(AwaitTransfer(SHORT_JOB, Reservation(100, 100, false)), Done)
         == Wait(AwaitConfirm(SHORT_JOB, Reservation(100, 100, false), 0))
  {
  }

  ghost predicate ShortDeliveryAt(n: nat, pc: Pc, wallet: nat) {
    TracedTo(Init(SHORT_CONFIG, 50, 10), SHORT_DELIVERY, SHORT_TOLD, n, pc, wallet)
  }

  lemma ShortDeliveryGranted()
    ensures ShortDeliveryAt(3, AwaitBalanceBefore(SHORT_JOB), 50)
  {
    hide Run, Next, At;
    ShortDeliveryClaims();
    assert SHORT_TOLD[..1] == [Exchange(Claim(7), SHORT_CLAIM)];
  }

  lemma ShortDeliverySwaps()
    ensures ShortDeliveryAt(3, AwaitBalanceBefore(SHORT_JOB), 50)
    ensures ShortDeliveryAt(4, AwaitQuote(SHORT_JOB, 50), 50)
    ensures ShortDeliveryAt(5, AwaitSwap(SHORT_JOB, 50, 99), 50)
  {
    hide Decide, TracedTo, Run, Init;
    var s0, evs, told := Init(SHORT_CONFIG, 50, 10), SHORT_DELIVERY, SHORT_TOLD;
    ShortDeliveryGranted();
    ShortDeliveryDecides();
    TraceStep(s0, evs, told, 3, AwaitBalanceBefore(SHORT_JOB), 50, AwaitQuote(SHORT_JOB, 50));
    TraceStep(s0, evs, told, 4, AwaitQuote(SHORT_JOB, 50), 50, AwaitSwap(SHORT_JOB, 50, 99));
  }

  lemma ShortDeliveryPays()
    requires ShortDeliveryAt(5, AwaitSwap(SHORT_JOB, 50, 99), 50)
    ensures ShortDeliveryAt(6, AwaitBalanceAfter(SHORT_JOB, 50, 100), 110)
    ensures ShortDeliveryAt(7, AwaitTransfer(SHORT_JOB, Reservation(100, 100, false)), 110)
    ensures ShortDeliveryAt(8, AwaitConfirm(SHORT_JOB, Reservation(100, 100, false), 0), 10)
  {
    var res := Reservation(100, 100, false);
    var s0, evs, told := Init(SHORT_CONFIG, 50, 10), SHORT_DELIVERY, SHORT_TOLD;
    hide Decide, TracedTo, Run, Init;
    ShortDeliveryDecides();
    TraceStep(s0, evs, told, 5, AwaitSwap(SHORT_JOB, 50, 99), 50, AwaitBalanceAfter(SHORT_JOB, 50, 100));
    TraceStep(s0, evs, told, 6, AwaitBalanceAfter(SHORT_JOB, 50, 100), 110, AwaitTransfer(SHORT_JOB, res));
    TraceStep(s0, evs, told, 7, AwaitTransfer(SHORT_JOB, res), 110, AwaitConfirm(SHORT_JOB, res, 0));
  }

  /** A run that shows the failing case: the wallet reads truthfully 50 before the swap, and 10 are
      left after the transfer. */
  lemma ShortDeliveryBreaksFence()
    ensures HonestRun(Init(SHORT_CONFIG, 50, 10), SHORT_DELIVERY)
    ensures var core := Run(Init(SHORT_CONFIG, 50, 10), SHORT_DELIVERY).core;
            && 0 in core.runs && |core.runs[0].transcript| == 6
            && core.runs[0].transcript[1] == Exchange(Balance, Value(50))
            && core.runs[0].transcript[4] == Exchange(Balance, Failed)
            && core.world.wallet == 10
  {
    var s0, evs := Init(SHORT_CONFIG, 50, 10), SHORT_DELIVERY;
    ShortDeliveryClaims();
    ShortDeliverySwaps();
    ShortDeliveryPays();
    hide Run, Next, Decide;
    assert evs[..8] == evs;
    forall i | 0 <= i < |evs| ensures Truthful(Run(s0, evs[..i]), evs[i]) && FeeCovered(Run(s0, evs[..i]), evs[i]) {
      assert i in {0, 1, 2, 3, 4, 5, 6, 7};
    }
  }

  /** If the pre-swap reading failed, nothing is ever sent and no confirm is asked for. */
  lemma NoReadNoTransfer(cfg: Config, wallet: nat, fee: nat, evs: seq<Event>, id: nat)
    requires var core := Run(Init(cfg, wallet, fee), evs).core;
             && id in core.runs && |core.runs[id].transcript| >= 2
             && !ReadOk(core.runs[id].transcript[1].reply)
    ensures var tr := Run(Init(cfg, wallet, fee), evs).core.runs[id].transcript;
            !Asked(tr, KTransfer) && !Asked(tr, KConfirm) && !Asked(tr, KTreasury)
  {
    var s := Run(Init(cfg, wallet, fee), evs);
    AlwaysGood(cfg, wallet, fee, evs);
    RunsAreOrdered(s, id);
    UnreadNeverTransfers(s.core.runs[id].transcript);
  }

  lemma UnreadNeverTransfers(tr: seq<Exchange>)
    requires Ordered(tr) && |tr| >= 2 && !ReadOk(tr[1].reply)
    ensures !Asked(tr, KTransfer) && !Asked(tr, KConfirm) && !Asked(tr, KTreasury)
  {
    forall i | 0 <= i < |tr| ensures KindOf(tr[i].call) != KTransfer {
      assert MayAsk(tr[..i], KindOf(tr[i].call));
    }
    forall i | 0 <= i < |tr| ensures KindOf(tr[i].call) != KConfirm {
      assert MayAsk(tr[..i], KindOf(tr[i].call));
    }
    forall i | 0 <= i < |tr| ensures KindOf(tr[i].call) != KTreasury {
      assert MayAsk(tr[..i], KindOf(tr[i].call));
    }
  }

  // ---- Slippage floor ----

  /** What the pool delivered for a completed run. */
  ghost predicate PoolHonoured(tr: seq<Exchange>) {
    && |tr| >= 5 && tr[3].call.Swap? && tr[3].reply.Value? && ClampU64(tr[3].reply.n) >= tr[3].call.minOutput
    && ReadOk(tr[1].reply) && ReadOk(tr[4].reply) && tr[4].reply.n >= tr[1].reply.n + ClampU64(tr[3].reply.n)
  }

  lemma SlippageFloor(r: Record, run: RunLog)
    requires CompletedOk(r, run) && PoolHonoured(run.transcript) && run.cfg.maxSlippageBps <= 10_000
    ensures var quote := ClampU64(run.transcript[2].reply.n);
            && quote * (10_000 - run.cfg.maxSlippageBps) >= 0
            && r.ckusdcTransferred + FeeOr(run.cfg.ckusdcFee)
               >= CeilDiv(quote * (10_000 - run.cfg.maxSlippageBps), 10_000)
  {
    SlippageRoundsUp(ClampU64(run.transcript[2].reply.n), run.cfg.maxSlippageBps);
  }

  /** End to end: if the pool honours the minimum and the wallet gained what the router said, a
      completed record has sent the backend at least the quote less the tolerance, less one fee. */
  lemma SlippageFloorOnRuns(cfg: Config, wallet: nat, fee: nat, evs: seq<Event>, id: nat)
    requires var s := Run(Init(cfg, wallet, fee), evs);
             && s.tasks == map[] && id in s.core.hist.records && id in s.core.runs
             && s.core.hist.records[id].status == Completed
             && PoolHonoured(s.core.runs[id].transcript) && s.core.runs[id].cfg.maxSlippageBps <= 10_000
    ensures var core := Run(Init(cfg, wallet, fee), evs).core;
            var run := core.runs[id];
            && |run.transcript| >= 3 && run.transcript[2].call.Quote? && run.transcript[2].reply.Value?
            && var quote := ClampU64(run.transcript[2].reply.n);
               && quote * (10_000 - run.cfg.maxSlippageBps) >= 0
               && core.hist.records[id].ckusdcTransferred + FeeOr(run.cfg.ckusdcFee)
                  >= CeilDiv(quote * (10_000 - run.cfg.maxSlippageBps), 10_000)
  {
    var s := Run(Init(cfg, wallet, fee), evs);
    AlwaysGood(cfg, wallet, fee, evs);
    hide Run, Ordered, StatusOk, PoolHonoured;
    CompletedIsOk(s, id);
    hide Good;
    SlippageFloor(s.core.hist.records[id], s.core.runs[id]);
  }

  lemma CompletedIsOk(s: Sys, id: nat)
    requires Good(s) && s.tasks == map[] && id in s.core.hist.records && s.core.hist.records[id].status == Completed
    ensures id in s.core.runs && CompletedOk(s.core.hist.records[id], s.core.runs[id])
  {
    hide Ordered, StatusOk, CompletedOk, CompletedTotals;
    assert RecordOk(s.core.hist.records[id], s.core.runs[id]);
  }

  // ---- The other entry points ----

  /** A notification replaces the queue if it comes from the configured backend, and does nothing
      otherwise; it never touches a run, the records, the counters or the guard. */
  lemma NotifyIsGuarded(s: Sys, caller: Principal, vaults: seq<Vault>)
    ensures var after := Next(s, Notify(caller, vaults));
            && after == s.(core := s.core.(pending := after.core.pending))
            && (s.core.config.Some? && caller == s.core.config.value.backend ==> after.core.pending == vaults)
            && (s.core.config.None? || caller != s.core.config.value.backend ==> after.core.pending == s.core.pending)
  {
  }

  /** A sweep of a wallet that it reads truthfully, at the ledger's own fee, leaves it empty and the
      guard free. */
  lemma SweepEmptiesWallet(s: Sys, task: nat, reply: Reply)
    requires s.tasks == map[task := SweepBalance] && s.core.config.Some?
    requires s.core.config.value.ckusdcFee == Some(s.core.world.ledgerFee)
    requires 0 < s.core.world.wallet <= U64_MAX && s.core.world.ledgerFee <= s.core.world.wallet
    ensures var read := Next(s, Resumed(task, Value(s.core.world.wallet), true, 0));
            var after := Next(read, Resumed(task, reply, true, 0));
            after.core == s.core.(world := s.core.world.(wallet := 0)) && !after.processing && after.tasks == map[]
  {
    var read := Next(s, Resumed(task, Value(s.core.world.wallet), true, 0));
    assert read.tasks == map[task := SweepTransfer(s.core.world.wallet - s.core.world.ledgerFee)];
    assert read.tasks - {task} == map[];
  }
}
