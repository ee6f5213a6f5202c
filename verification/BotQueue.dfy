/** The rotating retry queue: vaults are popped from the back and, when a claim is refused, put
    back at the front until the third refusal. */
module BotQueue {
  import opened Prelude
  import opened BotTypes
  import opened BotMath
  import opened History
  import opened BotMachine
  import opened BotInvariant

  datatype Queue = Queue(pending: seq<Vault>, counts: map<nat, nat>)

  /** How a run treats the vault it pops; it is skipped when the bot is not configured. */
  datatype Result = Granted | Refused | Skipped

  function QueueOf(core: Core): Queue {
    Queue(core.pending, core.retryCounts)
  }

  function Head(q: Queue): Vault
    requires q.pending != []
  {
    q.pending[|q.pending| - 1]
  }

  /** The effect of one whole undisturbed run on the queue. */
  function Attempt(q: Queue, r: Result): Queue {
    if q.pending == [] then q
    else
      var vault := Head(q);
      var rest := q.pending[..|q.pending| - 1];
      match r
      case Skipped => Queue(rest, q.counts)
      case Granted => Queue(rest, q.counts - {vault.vaultId})
      case Refused =>
        var failures := Get(q.counts, vault.vaultId) + 1;
        if failures >= CLAIM_RETRY_LIMIT then Queue(rest, q.counts - {vault.vaultId})
        else Queue(if Queued(rest, vault.vaultId) then rest else [vault] + rest, q.counts[vault.vaultId := failures])
  }

  function Attempts(q: Queue, rs: seq<Result>): Queue {
    if rs == [] then q else Attempt(Attempts(q, rs[..|rs| - 1]), rs[|rs| - 1])
  }

  predicate Distinct(pending: seq<Vault>) {
    forall i, j :: 0 <= i < j < |pending| ==> pending[i].vaultId != pending[j].vaultId
  }

  predicate CountsInRange(counts: map<nat, nat>) {
    forall v :: v in counts ==> 1 <= counts[v] < CLAIM_RETRY_LIMIT
  }

  ghost predicate Proper(q: Queue) {
    Distinct(q.pending) && CountsInRange(q.counts)
  }

  lemma AttemptKeepsProper(q: Queue, r: Result)
    requires Proper(q)
    ensures Proper(Attempt(q, r))
  {
  }

  // ---- The queue drains ----

  /** Claim attempts left before every pending vault is granted or given up. */
  function AttemptsLeft(pending: seq<Vault>, counts: map<nat, nat>): int {
    if pending == [] then 0
    else CLAIM_RETRY_LIMIT - Get(counts, pending[0].vaultId) + AttemptsLeft(pending[1..], counts)
  }

  lemma {:induction false} LeftAppend(a: seq<Vault>, b: seq<Vault>, counts: map<nat, nat>)
    ensures AttemptsLeft(a + b, counts) == AttemptsLeft(a, counts) + AttemptsLeft(b, counts)
  {
    if a == [] {
      assert a + b == b;
    } else {
      LeftAppend(a[1..], b, counts);
      assert (a + b)[1..] == a[1..] + b;
    }
  }

  /** Counts of vaults that are not pending do not matter. */
  lemma {:induction false} LeftFrame(pending: seq<Vault>, a: map<nat, nat>, b: map<nat, nat>)
    requires forall i :: 0 <= i < |pending| ==> Get(a, pending[i].vaultId) == Get(b, pending[i].vaultId)
    ensures AttemptsLeft(pending, a) == AttemptsLeft(pending, b)
  {
    if pending != [] {
      forall i | 0 <= i < |pending[1..]| ensures Get(a, pending[1..][i].vaultId) == Get(b, pending[1..][i].vaultId) {
        assert pending[1..][i] == pending[i + 1];
      }
      LeftFrame(pending[1..], a, b);
    }
  }

  lemma {:induction false} LeftBounds(pending: seq<Vault>, counts: map<nat, nat>)
    requires CountsInRange(counts)
    ensures |pending| <= AttemptsLeft(pending, counts) <= 3 * |pending|
  {
    if pending != [] {
      LeftBounds(pending[1..], counts);
    }
  }

  /** Every processed vault uses up at least one attempt, whatever the outcome. */
  lemma AttemptDecreases(q: Queue, r: Result)
    requires Proper(q) && q.pending != []
    ensures AttemptsLeft(Attempt(q, r).pending, Attempt(q, r).counts) < AttemptsLeft(q.pending, q.counts)
  {
    var v := Head(q);
    var rest := q.pending[..|q.pending| - 1];
    var after := Attempt(q, r);
    assert q.pending == rest + [v];
    LeftAppend(rest, [v], q.counts);
    LeftFrame(rest, q.counts, after.counts);
    if after.pending != rest {
      LeftAppend([v], rest, after.counts);
    }
  }

  /** Without notifications the queue is empty after three runs per vault. */
  lemma {:induction false} Drains(q: Queue, rs: seq<Result>)
    requires Proper(q)
    ensures Proper(Attempts(q, rs))
    ensures var left := AttemptsLeft(q.pending, q.counts) - |rs|;
            AttemptsLeft(Attempts(q, rs).pending, Attempts(q, rs).counts) <= if left >= 0 then left else 0
    ensures |rs| >= 3 * |q.pending| ==> Attempts(q, rs).pending == []
  {
    if rs != [] {
      var before := Attempts(q, rs[..|rs| - 1]);
      Drains(q, rs[..|rs| - 1]);
      AttemptKeepsProper(before, rs[|rs| - 1]);
      if before.pending != [] {
        AttemptDecreases(before, rs[|rs| - 1]);
      }
    }
    LeftBounds(q.pending, q.counts);
    LeftBounds(Attempts(q, rs).pending, Attempts(q, rs).counts);
  }

  // ---- Fairness ----

  ghost predicate EndsIn(pending: seq<Vault>, tail: seq<Vault>) {
    |tail| <= |pending| && forall i :: 0 <= i < |tail| ==> pending[|pending| - |tail| + i] == tail[i]
  }

  lemma AttemptKeepsTail(q: Queue, r: Result, tail: seq<Vault>)
    requires EndsIn(q.pending, tail) && tail != []
    ensures EndsIn(Attempt(q, r).pending, tail[..|tail| - 1])
  {
    var rest := q.pending[..|q.pending| - 1];
    assert EndsIn(rest, tail[..|tail| - 1]);
    assert EndsIn([Head(q)] + rest, tail[..|tail| - 1]);
  }

  /** After k runs the untouched front part of the queue is still there, behind what came back. */
  lemma {:induction false} Rotates(q: Queue, rs: seq<Result>)
    requires |rs| <= |q.pending|
    ensures EndsIn(Attempts(q, rs).pending, q.pending[..|q.pending| - |rs|])
  {
    if rs != [] {
      Rotates(q, rs[..|rs| - 1]);
      var tail := q.pending[..|q.pending| - |rs| + 1];
      AttemptKeepsTail(Attempts(q, rs[..|rs| - 1]), rs[|rs| - 1], tail);
      assert tail[..|tail| - 1] == q.pending[..|q.pending| - |rs|];
    }
  }

  /** Between a refused attempt on a vault and the next one, every other vault that was pending is
      tried exactly once, whatever happens to it, and then it is the first one's turn again. */
  lemma EachTriedOnceBetweenAttempts(q: Queue, rs: seq<Result>, k: nat)
    requires Proper(q) && q.pending != []
    requires Get(q.counts, Head(q).vaultId) + 1 < CLAIM_RETRY_LIMIT
    requires |rs| == |q.pending| - 1 && k <= |rs|
    ensures var back := Attempt(q, Refused);
            var later := Attempts(back, rs[..k]);
            && back.pending == [Head(q)] + q.pending[..|q.pending| - 1]
            && later.pending != []
            && Head(later) == if k < |rs| then q.pending[|rs| - 1 - k] else Head(q)
  {
    var back := Attempt(q, Refused);
    AttemptKeepsProper(q, Refused);
    Rotates(back, rs[..k]);
    var now := Attempts(back, rs[..k]).pending;
    var kept := back.pending[..|back.pending| - k];
    assert now[|now| - |kept| + (|kept| - 1)] == kept[|kept| - 1];
  }

  // ---- The machine's runs are attempts ----

  /** Where a run stands on the queue it started from. */
  ghost predicate Midway(q: Queue, core: Core, pc: Pc) {
    q.pending != [] &&
    if pc.AwaitClaim? then
      && QueueOf(core) == Queue(q.pending[..|q.pending| - 1], q.counts)
      && pc.vault == Head(q) && pc.prior == Get(q.counts, Head(q).vaultId)
    else !IsSweep(pc) && QueueOf(core) == Attempt(q, Granted)
  }

  lemma BeginsMidway(core: Core, now: nat)
    ensures match Begin(core, now)
            case Finish(after) => QueueOf(after) == Attempt(QueueOf(core), Skipped)
            case Suspend(after, pc) => Midway(QueueOf(core), after, pc)
  {
  }

  lemma AdvanceMidway(q: Queue, core: Core, pc: Pc, ev: Event)
    requires ev.Resumed? && Midway(q, core, pc) && CountsInRange(q.counts)
    ensures match Advance(core, pc, ev)
            case Suspend(after, pc') => Midway(q, after, pc')
            case Finish(after) => QueueOf(after) == Attempt(q, if pc.AwaitClaim? then Refused else Granted)
  {
    hide Effect;
    var seen := Observe(core.(world := Effect(core.world, pc, ev.landed, ev.delivered)), pc, ev.reply);
    assert QueueOf(seen) == QueueOf(core);
  }

  /** A run that starts in `s`, with every event that happens until it ends, notifications aside:
      while it is suspended the queue is midway, and when it is gone its attempt is done. */
  lemma {:induction false} QuietRunIsAttempt(s: Sys, task: nat, now: nat, evs: seq<Event>)
    requires Good(s) && !s.processing && CountsInRange(s.core.retryCounts)
    requires Begin(s.core, now).Suspend?
    requires forall i :: 0 <= i < |evs| ==> !evs[i].Notify?
    requires forall i :: 0 <= i < |evs| ==> task in Run(Next(s, Tick(task, now)), evs[..i]).tasks
    ensures var last := Run(Next(s, Tick(task, now)), evs);
            && Good(last)
            && (task in last.tasks ==> Midway(QueueOf(s.core), last.core, last.tasks[task]))
            && (task !in last.tasks ==>
                  exists r :: r != Skipped && QueueOf(last.core) == Attempt(QueueOf(s.core), r))
  {
    var first := Next(s, Tick(task, now));
    if evs == [] {
      NextKeeps(s, Tick(task, now));
      hide Good, Begin;
      BeginsMidway(s.core, now);
    } else {
      var init := evs[..|evs| - 1];
      forall i | 0 <= i < |init| ensures task in Run(first, init[..i]).tasks {
        assert init[..i] == evs[..i];
      }
      QuietRunIsAttempt(s, task, now, init);
      assert evs[..|evs| - 1] == init;
      NextKeeps(Run(first, init), evs[|evs| - 1]);
      QuietStep(QueueOf(s.core), Run(first, init), task, evs[|evs| - 1]);
    }
  }

  lemma QuietStep(q: Queue, s: Sys, task: nat, ev: Event)
    requires Good(s) && task in s.tasks && !ev.Notify? && CountsInRange(q.counts) && Midway(q, s.core, s.tasks[task])
    ensures var s' := Next(s, ev);
            && (task in s'.tasks ==> Midway(q, s'.core, s'.tasks[task]))
            && (task !in s'.tasks ==> exists r :: r != Skipped && QueueOf(s'.core) == Attempt(q, r))
  {
    hide InFlight, Filed, Advance, Begin;
    if ev.Resumed? && ev.task == task {
      AdvanceMidway(q, s.core, s.tasks[task], ev);
      var r := if s.tasks[task].AwaitClaim? then Refused else Granted;
      assert r != Skipped;
    }
  }

  /** From one idle state to the next by one whole run that no notification disturbs. */
  ghost predicate QuietRun(s: Sys, s': Sys) {
    !s.processing && exists task, now, evs :: QuietTrace(s, s', task, now, evs)
  }

  ghost predicate QuietTrace(s: Sys, s': Sys, task: nat, now: nat, evs: seq<Event>) {
    var first := Next(s, Tick(task, now));
    && (forall i :: 0 <= i < |evs| ==> !evs[i].Notify? && task in Run(first, evs[..i]).tasks)
    && s' == Run(first, evs) && task !in s'.tasks
  }

  lemma QuietRunEffect(s: Sys, s': Sys)
    requires Good(s) && QuietRun(s, s') && CountsInRange(s.core.retryCounts)
    ensures Good(s') && exists r :: QueueOf(s'.core) == Attempt(QueueOf(s.core), r)
  {
    var task, now, evs :| QuietTrace(s, s', task, now, evs);
    if Begin(s.core, now).Suspend? {
      QuietRunIsAttempt(s, task, now, evs);
    } else {
      NextKeeps(s, Tick(task, now));
      assert evs[..0] == [];
      assert |evs| == 0;
      BeginsMidway(s.core, now);
    }
  }

  /** The bot itself drains its queue: three undisturbed runs per pending vault suffice. */
  lemma {:induction false} MachineDrains(ss: seq<Sys>) returns (rs: seq<Result>)
    requires |ss| > 0 && Good(ss[0]) && Proper(QueueOf(ss[0].core))
    requires forall i :: 0 <= i < |ss| - 1 ==> QuietRun(ss[i], ss[i + 1])
    ensures |rs| == |ss| - 1 && Good(ss[|ss| - 1])
    ensures QueueOf(ss[|ss| - 1].core) == Attempts(QueueOf(ss[0].core), rs)
    ensures |ss| - 1 >= 3 * |ss[0].core.pending| ==> ss[|ss| - 1].core.pending == []
    decreases |ss|
  {
    hide Good, QuietRun, Attempt;
    if |ss| == 1 {
      rs := [];
    } else {
      var init := ss[..|ss| - 1];
      var before := MachineDrains(init);
      var last := init[|init| - 1];
      Drains(QueueOf(ss[0].core), before);
      assert QuietRun(ss[|ss| - 2], ss[|ss| - 2 + 1]);
      QuietRunEffect(last, ss[|ss| - 1]);
      var r :| QueueOf(ss[|ss| - 1].core) == Attempt(QueueOf(last.core), r);
      rs := before + [r];
      assert rs[..|rs| - 1] == before;
    }
    Drains(QueueOf(ss[0].core), rs);
  }

  // ---- Over all runs ----

  /** Notifications name each vault once. */
  predicate Notifies(ev: Event) {
    ev.Notify? ==> Distinct(ev.vaults)
  }

  lemma NextKeepsDistinct(s: Sys, ev: Event)
    requires Distinct(s.core.pending) && Notifies(ev)
    ensures Distinct(Next(s, ev).core.pending)
  {
    hide Effect;
  }

  /** If notifications carry distinct ids, the pending ids are distinct in every reachable state. */
  lemma {:induction false} PendingStaysDistinct(cfg: Config, wallet: nat, fee: nat, evs: seq<Event>)
    requires forall i :: 0 <= i < |evs| ==> Notifies(evs[i])
    ensures Distinct(Run(Init(cfg, wallet, fee), evs).core.pending)
  {
    if evs != [] {
      PendingStaysDistinct(cfg, wallet, fee, evs[..|evs| - 1]);
      NextKeepsDistinct(Run(Init(cfg, wallet, fee), evs[..|evs| - 1]), evs[|evs| - 1]);
    }
  }

  /** Refused claims of a vault since its last run that was not refused, over the records below `n`. */
  function Streak(records: map<nat, Record>, n: nat, v: nat): nat {
    if n == 0 then 0
    else if n - 1 !in records || records[n - 1].vaultId != v then Streak(records, n - 1, v)
    else if records[n - 1].status == ClaimFailed then 1 + Streak(records, n - 1, v)
    else 0
  }

  /** A stored count is the streak since the last success or give-up: every third refusal gives up. */
  ghost predicate CountsMatch(counts: map<nat, nat>, records: map<nat, Record>, n: nat) {
    && CountsInRange(counts)
    && forall v {:trigger Streak(records, n, v)} :: Get(counts, v) == Streak(records, n, v) % CLAIM_RETRY_LIMIT
  }

  /** While a granted run is unfinished, its vault's count is already gone but its record not yet written. */
  ghost predicate CountsMidway(core: Core, pc: Pc) {
    var n := core.hist.nextId;
    if IsSweep(pc) then CountsMatch(core.retryCounts, core.hist.records, n)
    else if pc.AwaitClaim? then
      n > 0 && CountsMatch(core.retryCounts, core.hist.records, n - 1) && pc.prior == Get(core.retryCounts, pc.vault.vaultId)
    else
      && n > 0 && CountsInRange(core.retryCounts) && pc.job.vaultId !in core.retryCounts
      && forall v {:trigger Streak(core.hist.records, n - 1, v)} :: v != pc.job.vaultId ==>
           Get(core.retryCounts, v) == Streak(core.hist.records, n - 1, v) % CLAIM_RETRY_LIMIT
  }

  ghost predicate CountsGood(s: Sys) {
    && (s.tasks == map[] ==> CountsMatch(s.core.retryCounts, s.core.hist.records, s.core.hist.nextId))
    && (forall t :: t in s.tasks ==> CountsMidway(s.core, s.tasks[t]))
  }

  lemma {:induction false} StreakFrame(a: map<nat, Record>, b: map<nat, Record>, n: nat, v: nat)
    requires forall id :: 0 <= id < n ==> (id in a <==> id in b) && (id in a ==> a[id] == b[id])
    ensures Streak(a, n, v) == Streak(b, n, v)
  {
    if n > 0 {
      StreakFrame(a, b, n - 1, v);
    }
  }

  /** Filing one more record moves only its own vault's streak. */
  lemma StreakFile(records: map<nat, Record>, r: Record, v: nat)
    ensures Streak(records[r.id := r], r.id + 1, v) ==
            if r.vaultId != v then Streak(records, r.id, v)
            else if r.status == ClaimFailed then 1 + Streak(records, r.id, v) else 0
  {
    StreakFrame(records, records[r.id := r], r.id, v);
  }

  lemma ClaimCounts(core: Core, pc: Pc, reply: Reply)
    requires pc.AwaitClaim? && CountsMidway(core, pc) && pc.recordId == core.hist.nextId - 1
    ensures match AfterClaim(core, pc, reply)
            case Suspend(after, pc') => CountsMidway(after, pc')
            case Finish(after) => CountsMatch(after.retryCounts, after.hist.records, after.hist.nextId)
  {
    if !reply.Claimed? {
      var action := NextRetryAction(pc.prior, CLAIM_RETRY_LIMIT);
      var r := ClaimRecord(pc, if action.Retry? then ClaimRetrying(action.newCount) else ClaimGaveUp);
      var after := AfterClaim(core, pc, reply).core;
      assert after.hist == core.hist.(records := core.hist.records[r.id := r]);
      RefusedCounts(core.retryCounts, core.hist.records, r);
      hide CountsMatch;
    }
  }

  /** One more refusal: the count steps 0, 1, 2 and falls back to none, like the streak modulo three. */
  lemma RefusedCounts(counts: map<nat, nat>, records: map<nat, Record>, r: Record)
    requires CountsMatch(counts, records, r.id) && r.status == ClaimFailed
    ensures var prior := Get(counts, r.vaultId);
            CountsMatch(if prior + 1 >= CLAIM_RETRY_LIMIT then counts - {r.vaultId} else counts[r.vaultId := prior + 1],
                        records[r.id := r], r.id + 1)
  {
    var prior := Get(counts, r.vaultId);
    var after := if prior + 1 >= CLAIM_RETRY_LIMIT then counts - {r.vaultId} else counts[r.vaultId := prior + 1];
    assert prior == Streak(records, r.id, r.vaultId) % CLAIM_RETRY_LIMIT;
    forall v ensures Get(after, v) == Streak(records[r.id := r], r.id + 1, v) % CLAIM_RETRY_LIMIT {
      StreakFile(records, r, v);
      assert Get(counts, v) == Streak(records, r.id, v) % CLAIM_RETRY_LIMIT;
    }
  }

  lemma JobCounts(core: Core, pc: Pc, r: Record)
    requires !pc.AwaitClaim? && !IsSweep(pc) && CountsMidway(core, pc)
    requires r.id == core.hist.nextId - 1 && r.vaultId == pc.job.vaultId && r.status != ClaimFailed
    ensures var after := FileRecord(core, r);
            CountsMatch(after.retryCounts, after.hist.records, after.hist.nextId)
  {
    var after := FileRecord(core, r);
    forall v ensures Get(after.retryCounts, v) == Streak(after.hist.records, after.hist.nextId, v) % CLAIM_RETRY_LIMIT {
      StreakFile(core.hist.records, r, v);
      assert v != pc.job.vaultId ==> Get(core.retryCounts, v) == Streak(core.hist.records, r.id, v) % CLAIM_RETRY_LIMIT;
    }
  }

  lemma AdvanceCounts(core: Core, pc: Pc, ev: Event)
    requires ev.Resumed? && InFlight(core, pc) && CountsMidway(core, pc)
    ensures match Advance(core, pc, ev)
            case Suspend(after, pc') => CountsMidway(after, pc')
            case Finish(after) => CountsMatch(after.retryCounts, after.hist.records, after.hist.nextId)
  {
    hide Effect, Filed, TaskOk, CountsInRange;
    var seen := Observe(core.(world := Effect(core.world, pc, ev.landed, ev.delivered)), pc, ev.reply);
    assert CountsMidway(seen, pc);
    hide CountsMatch;
    if pc.AwaitClaim? {
      hide CountsMidway;
      ClaimCounts(seen, pc, ev.reply);
    } else if !IsSweep(pc) && Decide(pc, ev.reply).File? {
      hide CountsMidway;
      JobCounts(seen, pc, Decide(pc, ev.reply).record);
    }
  }

  lemma NextCounts(s: Sys, ev: Event)
    requires Good(s) && CountsGood(s)
    ensures CountsGood(Next(s, ev))
  {
    hide Filed, InFlight, Advance, CountsMatch, Begin;
    if ev.Resumed? && ev.task in s.tasks {
      AdvanceCounts(s.core, s.tasks[ev.task], ev);
      assert s.tasks - {ev.task} == map[];
    } else if ev.Tick? && !s.processing {
      BeginCounts(s.core, ev.now);
      assert s.tasks - {ev.task} == map[];
    } else {
      hide CountsMidway;
      OtherCounts(s, ev);
    }
  }

  /** Everything else leaves counts and records alone; a sweep that starts finds them matching. */
  lemma OtherCounts(s: Sys, ev: Event)
    requires CountsGood(s) && Good(s)
    requires !(ev.Resumed? && ev.task in s.tasks) && !(ev.Tick? && !s.processing)
    ensures CountsGood(Next(s, ev))
  {
    hide CountsMatch, CountsMidway, Filed, InFlight;
    var after := Next(s, ev);
    assert after.core.retryCounts == s.core.retryCounts && after.core.hist == s.core.hist;
    forall t | t in after.tasks ensures CountsMidway(after.core, after.tasks[t]) {
      if t in s.tasks {
        assert after.tasks[t] == s.tasks[t];
        CountsFrame(s.core, after.core, s.tasks[t]);
      } else {
        SweepCounts(after.core);
      }
    }
  }

  lemma CountsFrame(a: Core, b: Core, pc: Pc)
    requires CountsMidway(a, pc) && a.retryCounts == b.retryCounts && a.hist == b.hist
    ensures CountsMidway(b, pc)
  {
    hide CountsMatch, CountsInRange;
  }

  lemma SweepCounts(core: Core)
    requires CountsMatch(core.retryCounts, core.hist.records, core.hist.nextId)
    ensures CountsMidway(core, SweepBalance)
  {
    hide CountsMatch;
  }

  lemma BeginCounts(core: Core, now: nat)
    requires CountsMatch(core.retryCounts, core.hist.records, core.hist.nextId)
    ensures match Begin(core, now)
            case Suspend(after, pc) => CountsMidway(after, pc)
            case Finish(after) => CountsMatch(after.retryCounts, after.hist.records, after.hist.nextId)
  {
    hide CountsMatch;
  }

  /** In every reachable state between runs, each stored count is 1 or 2 and is the length of the
      vault's current streak of refused claims, read off the durable records. */
  lemma {:induction false} CountsAreStreaks(cfg: Config, wallet: nat, fee: nat, evs: seq<Event>)
    ensures CountsGood(Run(Init(cfg, wallet, fee), evs))
  {
    if evs != [] {
      CountsAreStreaks(cfg, wallet, fee, evs[..|evs| - 1]);
      AlwaysGood(cfg, wallet, fee, evs[..|evs| - 1]);
      NextCounts(Run(Init(cfg, wallet, fee), evs[..|evs| - 1]), evs[|evs| - 1]);
    } else {
      InitCounts(cfg, wallet, fee);
    }
  }

  lemma InitCounts(cfg: Config, wallet: nat, fee: nat)
    ensures CountsGood(Init(cfg, wallet, fee))
  {
  }
}
