/** `process_pending` as a machine over its steps. A task runs from one `await` to the next; every
    reply is arbitrary, and between two steps anything else the canister accepts may happen:
    another timer tick, a notification, a sweep, a configuration change, a deposit. */
module BotMachine {
  import opened Prelude
  import opened BotTypes
  import opened BotMath
  import opened History

  datatype Call =
    | Claim(vaultId: nat)
    | Balance
    | Quote(amount: nat)
    | Swap(amount: nat, minOutput: nat)
    | Return(amount: nat)
    | Cancel(vaultId: nat)
    | Transfer(amount: nat)
    | Confirm(vaultId: nat)
    | Treasury(amount: nat)

  /** What comes back from a call. A reply of the wrong shape counts as a failed call. A ledger's
      `Duplicate` answer is `Done`: the helpers treat it as success. */
  datatype Reply = Failed | Done | Value(n: nat) | Claimed(collateral: nat, debt: nat, price: nat)

  datatype Exchange = Exchange(call: Call, reply: Reply)

  /** Everything one run has been told, and the configuration it copied at its start. */
  datatype RunLog = RunLog(cfg: Config, vaultId: nat, startedAt: nat, transcript: seq<Exchange>)

  /** The local variables a run keeps once its claim has succeeded. */
  datatype Job = Job(
    cfg: Config, vaultId: nat, recordId: nat, timestamp: nat,
    collateral: nat, debt: nat, price: nat, swapAmount: nat)

  /** Where a task is suspended. The last two belong to `admin_sweep_ckusdc`. */
  datatype Pc =
    | AwaitClaim(vault: Vault, cfg: Config, recordId: nat, timestamp: nat, prior: nat)
    | AwaitBalanceBefore(job: Job)
    | AwaitQuote(job: Job, before: nat)
    | AwaitSwap(job: Job, before: nat, minOutput: nat)
    | AwaitReturn(job: Job)
    | AwaitCancel(job: Job, attempt: nat)
    | AwaitBalanceAfter(job: Job, before: nat, router: nat)
    | AwaitTransfer(job: Job, res: Reservation)
    | AwaitConfirm(job: Job, res: Reservation, attempt: nat)
    | AwaitTreasury(job: Job, res: Reservation, confirms: nat)
    | SweepBalance
    | SweepTransfer(amount: nat)

  /** What lies outside the bot: its ckUSDC wallet, that ledger's fee, and the record ids whose
      claim is open at the backend. */
  datatype World = World(wallet: nat, ledgerFee: nat, open: set<nat>)

  datatype Core = Core(
    config: Option<Config>, stats: Stats, pending: seq<Vault>, retryCounts: map<nat, nat>,
    hist: Hist, runs: map<nat, RunLog>, world: World)

  datatype Sys = Sys(core: Core, processing: bool, tasks: map<nat, Pc>)

  /** `landed`: the call took effect at the callee, whatever the reply says. `delivered`: what a
      swap put into the wallet. */
  datatype Event =
    | Tick(task: nat, now: nat)
    | StartSweep(task: nat)
    | Resumed(task: nat, reply: Reply, landed: bool, delivered: nat)
    | Notify(caller: Principal, vaults: seq<Vault>)
    | SetConfig(cfg: Config)
    | Deposit(amount: nat)
    | FeeChange(fee: nat)

  // ---- Small readings of the source ----

  function CkusdcFee(job: Job): nat { FeeOr(job.cfg.ckusdcFee) }

  function IcpFee(job: Job): nat { FeeOr(job.cfg.icpFee) }

  /** The amount `transfer_ckusdc_to_backend` puts on the wire. */
  function SendAmount(job: Job, res: Reservation): nat { SatSub(res.toTransfer, CkusdcFee(job)) }

  function Bonus(job: Job): nat { SatSub(job.collateral, job.swapAmount) }

  function ClampU64(n: nat): nat { Min(n, U64_MAX) }

  predicate ReadOk(reply: Reply) { reply.Value? && reply.n <= U64_MAX }

  /** The pre-swap reading; a failed one becomes the sentinel. */
  function BeforeOf(reply: Reply): nat { if ReadOk(reply) then reply.n else U64_MAX }

  /** The post-swap reading; a failed one is made up from the router's figure. */
  function AfterOf(reply: Reply, before: nat, router: nat): nat {
    if ReadOk(reply) then reply.n else SatAdd(before, router, U64_MAX)
  }

  predicate IsSweep(pc: Pc) { pc.SweepBalance? || pc.SweepTransfer? }

  function RecordIdOf(pc: Pc): nat
    requires !IsSweep(pc)
  {
    if pc.AwaitClaim? then pc.recordId else pc.job.recordId
  }

  /** The call a suspended run is waiting on. */
  function Outgoing(pc: Pc): Call
    requires !IsSweep(pc)
  {
    match pc
    case AwaitClaim(vault, _, _, _, _) => Claim(vault.vaultId)
    case AwaitBalanceBefore(_) => Balance
    case AwaitQuote(job, _) => Quote(job.swapAmount)
    case AwaitSwap(job, _, minOutput) => Swap(job.swapAmount, minOutput)
    case AwaitReturn(job) => Return(SatSub(job.collateral, IcpFee(job)))
    case AwaitCancel(job, _) => Cancel(job.vaultId)
    case AwaitBalanceAfter(_, _, _) => Balance
    case AwaitTransfer(job, res) => Transfer(SendAmount(job, res))
    case AwaitConfirm(job, _, _) => Confirm(job.vaultId)
    case AwaitTreasury(job, _, _) => Treasury(SatSub(Bonus(job), IcpFee(job)))
  }

  // ---- Records ----

  function ClaimRecord(pc: Pc, note: Note): Record
    requires pc.AwaitClaim?
  {
    Record(pc.recordId, pc.vault.vaultId, pc.timestamp, ClaimFailed, 0, 0, 0, 0, 0, 0, 0, Some(note), 0)
  }

  function JobRecord(job: Job, status: Status, received: nat, transferred: nat, treasury: nat,
                     note: Option<Note>, confirms: nat): Record {
    Record(job.recordId, job.vaultId, job.timestamp, status, job.collateral, job.debt, job.swapAmount,
           received, transferred, treasury, job.price, note, confirms)
  }

  function SwapFailedRecord(job: Job, returnFailed: bool, cancelFailed: Option<nat>): Record {
    var o := DecideSwapFailure(returnFailed, cancelFailed);
    JobRecord(job, o.status, 0, 0, 0, Some(o.note), 0)
  }

  function TransferFailedRecord(job: Job, res: Reservation): Record {
    JobRecord(job, TransferFailed, res.recordedReceived, 0, 0, Some(TransferError(res.shortDelivery)), 0)
  }

  function ConfirmFailedRecord(job: Job, res: Reservation, confirms: nat): Record {
    JobRecord(job, ConfirmFailed, res.recordedReceived, SendAmount(job, res), 0, Some(ConfirmError), confirms)
  }

  function CompletedRecord(job: Job, res: Reservation, confirms: nat): Record {
    JobRecord(job, Completed, res.recordedReceived, SendAmount(job, res), Bonus(job), None, confirms)
  }

  function Write(core: Core, r: Record): Core {
    core.(hist := core.hist.(records := core.hist.records[r.id := r]))
  }

  function AddStats(stats: Stats, r: Record): Stats {
    Stats(stats.debtCovered + r.debtToCover, stats.collateralReceived + r.collateralClaimed,
          stats.toTreasury + r.icpToTreasury, stats.eventsCount + 1)
  }

  /** A run's last act: write its record, and count it if it completed. */
  function FileRecord(core: Core, r: Record): Core {
    Write(core, r).(stats := if r.status == Completed then AddStats(core.stats, r) else core.stats)
  }

  // ---- One step of a run ----

  datatype Outcome = Suspend(core: Core, pc: Pc) | Finish(core: Core)

  predicate Queued(pending: seq<Vault>, vaultId: nat) {
    exists i :: 0 <= i < |pending| && pending[i].vaultId == vaultId
  }

  /** Up to the first await: take the last pending vault and ask to claim it. */
  function Begin(core: Core, now: nat): Outcome {
    if core.pending == [] then Finish(core)
    else
      var vault := core.pending[|core.pending| - 1];
      var popped := core.(pending := core.pending[..|core.pending| - 1]);
      if core.config.None? then Finish(popped)
      else
        var id := core.hist.nextId;
        Suspend(popped.(hist := core.hist.(nextId := id + 1),
                        runs := core.runs[id := RunLog(core.config.value, vault.vaultId, now, [])]),
                AwaitClaim(vault, core.config.value, id, now, Get(core.retryCounts, vault.vaultId)))
  }

  function AfterClaim(core: Core, pc: Pc, reply: Reply): Outcome
    requires pc.AwaitClaim?
  {
    var v := pc.vault.vaultId;
    if reply.Claimed? then
      Suspend(core.(retryCounts := core.retryCounts - {v}),
              AwaitBalanceBefore(Job(pc.cfg, v, pc.recordId, pc.timestamp, reply.collateral, reply.debt, reply.price,
                                     CalculateSwapAmount(reply.collateral, reply.debt, reply.price))))
    else
      match NextRetryAction(pc.prior, CLAIM_RETRY_LIMIT)
      case Retry(count) =>
        Finish(FileRecord(core, ClaimRecord(pc, ClaimRetrying(count))).(
          retryCounts := core.retryCounts[v := count],
          // Back to the front, so every other pending vault is popped first.
          pending := if Queued(core.pending, v) then core.pending else [pc.vault] + core.pending))
      case GiveUp =>
        Finish(FileRecord(core, ClaimRecord(pc, ClaimGaveUp)).(retryCounts := core.retryCounts - {v}))
  }

  /** What a claimed run does next: wait for another reply, or file its record. */
  datatype Verdict = Wait(pc: Pc) | File(record: Record)

  /** The swap did not happen: give the collateral back, if there is anything to send. */
  function SwapAborted(job: Job): Verdict {
    if SatSub(job.collateral, IcpFee(job)) == 0 then File(SwapFailedRecord(job, true, None)) else Wait(AwaitReturn(job))
  }

  function Decide(pc: Pc, reply: Reply): Verdict
    requires !pc.AwaitClaim? && !IsSweep(pc)
  {
    match pc
    case AwaitBalanceBefore(job) =>
      if !job.cfg.poolSet || job.cfg.zeroForOne.None? then SwapAborted(job)
      else Wait(AwaitQuote(job, BeforeOf(reply)))
    case AwaitQuote(job, before) =>
      if !reply.Value? || ClampU64(reply.n) == 0 then SwapAborted(job)
      else Wait(AwaitSwap(job, before, ApplySlippage(ClampU64(reply.n), job.cfg.maxSlippageBps)))
    case AwaitSwap(job, before, _) =>
      if !reply.Value? then SwapAborted(job)
      else Wait(AwaitBalanceAfter(job, before, ClampU64(reply.n)))
    case AwaitReturn(job) =>
      if reply.Done? then Wait(AwaitCancel(job, 0)) else File(SwapFailedRecord(job, true, None))
    case AwaitCancel(job, attempt) =>
      if reply.Done? then File(SwapFailedRecord(job, false, None))
      else if attempt + 1 < CANCEL_ATTEMPTS then Wait(AwaitCancel(job, attempt + 1))
      else File(SwapFailedRecord(job, false, Some(attempt + 1)))
    case AwaitBalanceAfter(job, before, router) =>
      var res := ComputeReservation(router, before, AfterOf(reply, before, router));
      if SendAmount(job, res) == 0 then File(TransferFailedRecord(job, res)) else Wait(AwaitTransfer(job, res))
    case AwaitTransfer(job, res) =>
      if reply.Done? then Wait(AwaitConfirm(job, res, 0)) else File(TransferFailedRecord(job, res))
    case AwaitConfirm(job, res, attempt) =>
      if reply.Done? then
        // A bonus that only covers the ledger fee is not sent.
        if SatSub(Bonus(job), IcpFee(job)) > 0 then Wait(AwaitTreasury(job, res, attempt + 1))
        else File(CompletedRecord(job, res, attempt + 1))
      else if attempt + 1 < CONFIRM_ATTEMPTS then Wait(AwaitConfirm(job, res, attempt + 1))
      else File(ConfirmFailedRecord(job, res, attempt + 1))
    case AwaitTreasury(job, res, confirms) => File(CompletedRecord(job, res, confirms))
  }

  function Resume(core: Core, pc: Pc, reply: Reply): Outcome {
    if pc.AwaitClaim? then AfterClaim(core, pc, reply)
    else if pc.SweepTransfer? then Finish(core)
    else if pc.SweepBalance? then
      if !reply.Value? || ClampU64(reply.n) == 0 || core.config.None? then Finish(core)
      else Suspend(core, SweepTransfer(SatSub(ClampU64(reply.n), FeeOr(core.config.value.ckusdcFee))))
    else
      match Decide(pc, reply)
      case Wait(pc') => Suspend(core, pc')
      case File(r) => Finish(FileRecord(core, r))
  }

  /** What a call that took effect did outside the bot. */
  function Effect(w: World, pc: Pc, landed: bool, delivered: nat): World {
    match pc
    case AwaitClaim(_, _, id, _, _) => if landed then w.(open := w.open + {id}) else w
    case AwaitCancel(job, _) => if landed then w.(open := w.open - {job.recordId}) else w
    case AwaitConfirm(job, _, _) => if landed then w.(open := w.open - {job.recordId}) else w
    case AwaitSwap(_, _, _) => w.(wallet := w.wallet + delivered)
    case AwaitTransfer(job, res) => Debit(w, SendAmount(job, res), landed)
    case SweepTransfer(amount) => Debit(w, amount, landed)
    case _ => w
  }

  /** A ckUSDC ledger takes amount and fee together, and only from a wallet that holds both. */
  function Debit(w: World, amount: nat, landed: bool): World {
    if landed && w.wallet >= amount + w.ledgerFee then w.(wallet := w.wallet - (amount + w.ledgerFee)) else w
  }

  function Observe(core: Core, pc: Pc, reply: Reply): Core {
    if IsSweep(pc) || RecordIdOf(pc) !in core.runs then core
    else
      var run := core.runs[RecordIdOf(pc)];
      core.(runs := core.runs[RecordIdOf(pc) := run.(transcript := run.transcript + [Exchange(Outgoing(pc), reply)])])
  }

  /** Everything between a reply's arrival and its next suspension. */
  function Advance(core: Core, pc: Pc, ev: Event): Outcome
    requires ev.Resumed?
  {
    Resume(Observe(core.(world := Effect(core.world, pc, ev.landed, ev.delivered)), pc, ev.reply), pc, ev.reply)
  }

  // ---- The canister ----

  /** A finished task drops the guard; a suspended one keeps it. */
  function Settle(s: Sys, task: nat, o: Outcome): Sys {
    match o
    case Finish(core) => Sys(core, false, s.tasks - {task})
    case Suspend(core, pc) => Sys(core, true, s.tasks[task := pc])
  }

  function Next(s: Sys, ev: Event): Sys {
    match ev
    case Tick(task, now) =>
      if s.processing || task in s.tasks then s else Settle(s, task, Begin(s.core, now))
    case StartSweep(task) =>
      if s.processing || task in s.tasks || s.core.config.None? then s
      else Settle(s, task, Suspend(s.core, SweepBalance))
    case Resumed(task, _, _, _) =>
      if task !in s.tasks then s else Settle(s, task, Advance(s.core, s.tasks[task], ev))
    case Notify(caller, vaults) =>
      if s.core.config.Some? && s.core.config.value.backend == caller then s.(core := s.core.(pending := vaults)) else s
    case SetConfig(cfg) => s.(core := s.core.(config := Some(cfg)))
    case Deposit(amount) => s.(core := s.core.(world := s.core.world.(wallet := s.core.world.wallet + amount)))
    case FeeChange(fee) => s.(core := s.core.(world := s.core.world.(ledgerFee := fee)))
  }

  function Run(s: Sys, evs: seq<Event>): Sys {
    if evs == [] then s else Next(Run(s, evs[..|evs| - 1]), evs[|evs| - 1])
  }

  /** `init`, with whatever the wallet holds at the time. */
  function Init(cfg: Config, wallet: nat, ledgerFee: nat): Sys {
    Sys(Core(Some(cfg), Stats(0, 0, 0, 0), [], map[], Hist(map[], 0), map[], World(wallet, ledgerFee, {})), false, map[])
  }
}
