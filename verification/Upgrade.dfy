/** How the bot survives upgrades: a raw JSON blob at offset 0 in old installations, a managed
    layout with separate regions afterwards, and a one-way migration between them. The JSON codec
    is a parameter. */
module Upgrade {
  import opened Prelude
  import opened Bytes
  import opened BotTypes
  import opened History

  const MAX_SNAPSHOT: nat := 10_000_000

  datatype Codec = Codec(encode: BotState -> seq<byte>, decode: seq<byte> -> Option<BotState>)

  /** The codec gives this state back, and the state's encoding has a length that fits a u64. */
  predicate RoundTrips(codec: Codec, s: BotState) {
    codec.decode(codec.encode(s)) == Some(s) && |codec.encode(s)| <= U64_MAX
  }

  /** As above, and the encoding is not empty, as no JSON text is. */
  predicate Carries(codec: Codec, s: BotState) {
    RoundTrips(codec, s) && |codec.encode(s)| >= 1
  }

  predicate CarriesAll(codec: Codec, states: seq<BotState>) {
    forall i :: 0 <= i < |states| ==> Carries(codec, states[i])
  }

  /** These demands can be met: some codec carries any given states, so whatever is proved below of
      carried states is about something. */
  lemma CodecExists(states: seq<BotState>)
    requires |states| < U64_MAX
    ensures exists codec: Codec :: CarriesAll(codec, states)
  {
    var codec := Codec(s => seq(Position(states, s) + 1, i => 0 as byte),
                       b => if 1 <= |b| <= |states| then Some(states[|b| - 1]) else None);
    forall i | 0 <= i < |states| ensures Carries(codec, states[i]) {
      PositionFinds(states, states[i]);
    }
    assert CarriesAll(codec, states);
  }

  function Position(states: seq<BotState>, s: BotState): (p: nat)
    ensures p <= |states|
  {
    if states == [] || states[0] == s then 0 else 1 + Position(states[1..], s)
  }

  lemma {:induction false} PositionFinds(states: seq<BotState>, s: BotState)
    requires s in states
    ensures Position(states, s) < |states| && states[Position(states, s)] == s
  {
    if states[0] != s {
      PositionFinds(states[1..], s);
    }
  }

  // ---- Framing of a snapshot ----

  /** Write `data` from offset 0. Memory grows as needed; `slack` is whatever else the newly
      obtained pages hold. What lay beyond the written bytes stays. */
  function Overlay(mem: seq<byte>, data: seq<byte>, slack: seq<byte>): seq<byte> {
    data + (if |mem| > |data| then mem[|data|..] else slack)
  }

  function Framed(payload: seq<byte>): seq<byte> {
    ToLe(|payload| % U64_SPAN, 8) + payload
  }

  /** What a load makes of a region. */
  datatype Loaded = NoData | Corrupt | State(state: BotState)

  /** The length prefix, then that many bytes, decoded. Reading past the end traps. */
  function LoadRegion(codec: Codec, mem: seq<byte>): Loaded {
    if |mem| == 0 then NoData
    else if |mem| < 8 then Corrupt
    else
      var len := FromLe(mem[..8]);
      if len == 0 then NoData
      else if len > MAX_SNAPSHOT || 8 + len > |mem| then Corrupt
      else
        var decoded := codec.decode(mem[8..8 + len]);
        if decoded.Some? then State(decoded.value) else Corrupt
  }

  lemma FramedLength(payload: seq<byte>, tail: seq<byte>)
    requires |payload| <= U64_MAX
    ensures FromLe((Framed(payload) + tail)[..8]) == |payload|
    ensures (Framed(payload) + tail)[8..8 + |payload|] == payload
  {
    Pow256Of8();
    assert |payload| % U64_SPAN == |payload|;
    LeRoundTrip(|payload|, 8);
    assert (Framed(payload) + tail)[..8] == ToLe(|payload|, 8);
  }

  /** Loading right after saving gives the saved state exactly when its encoding has 1 to ten
      million bytes; a longer one is refused rather than misread, whatever the region held before. */
  lemma SnapshotRoundTrip(codec: Codec, s: BotState, mem: seq<byte>, slack: seq<byte>)
    requires RoundTrips(codec, s)
    ensures var loaded := LoadRegion(codec, Overlay(mem, Framed(codec.encode(s)), slack));
            && (loaded == State(s) <==> 1 <= |codec.encode(s)| <= 10_000_000)
            && (loaded == Corrupt <==> |codec.encode(s)| > 10_000_000)
  {
    var payload := codec.encode(s);
    var tail := if |mem| > |Framed(payload)| then mem[|Framed(payload)|..] else slack;
    FramedLength(payload, tail);
    assert Overlay(mem, Framed(payload), slack) == Framed(payload) + tail;
  }

  // ---- Stable memory ----

  /** Raw pages, or the managed layout: a header at offset 0 and three regions behind it. */
  datatype Stable = Raw(bytes: seq<byte>) | Managed(header: seq<byte>, config: seq<byte>, hist: Hist)

  /** The magic at offset 0. */
  predicate IsMagic(first: seq<byte>) {
    |first| >= 3 && first[0] == 0x4D && first[1] == 0x47 && first[2] == 0x52
  }

  /** A header the memory manager itself wrote carries a version of at least one. */
  predicate ValidHeader(header: seq<byte>) {
    |header| >= 8 && IsMagic(header) && header[3] >= 1
  }

  function FirstBytes(mem: Stable): seq<byte> {
    if mem.Raw? then mem.bytes else mem.header
  }

  predicate LayoutExists(mem: Stable) {
    IsMagic(FirstBytes(mem))
  }

  /** Read as a length, a manager's header is far beyond any snapshot. */
  lemma HeaderReadsHuge(header: seq<byte>)
    requires ValidHeader(header)
    ensures FromLe(header[..8]) > 10_000_000
  {
    FromLe8(header[..8]);
  }

  /** A legacy blob is mistaken for a managed layout exactly at one length. */
  lemma MagicIsOneLength(bytes: seq<byte>)
    requires |bytes| >= 8 && FromLe(bytes[..8]) < 10_000_000
    ensures IsMagic(bytes) <==> FromLe(bytes[..8]) == 0x52_47_4D
  {
    FromLe8(bytes[..8]);
    assert bytes[..8][0] == bytes[0] && bytes[..8][1] == bytes[1] && bytes[..8][2] == bytes[2] && bytes[..8][3] == bytes[3];
  }

  // ---- The hooks ----

  datatype SavePath = ConfigSave | LegacyRawSave

  function PreUpgradeSavePath(migrated: bool, layoutExists: bool): SavePath {
    if migrated || layoutExists then ConfigSave else LegacyRawSave
  }

  /** None stands for a trap, which rolls everything back. */
  function PreUpgrade(codec: Codec, heap: BotState, mem: Stable, slack: seq<byte>): Option<Stable> {
    var data := Framed(codec.encode(heap));
    match PreUpgradeSavePath(heap.migrated, LayoutExists(mem))
    case ConfigSave => if mem.Raw? then None else Some(mem.(config := Overlay(mem.config, data, slack)))
    case LegacyRawSave => if LayoutExists(mem) || mem.Managed? then None else Some(Raw(Overlay(mem.bytes, data, slack)))
  }

  datatype Rescue = Unreadable | Nothing | Rescued(state: BotState)

  /** Step 1 of the post-upgrade hook, before the manager touches anything. */
  function RescueLegacy(codec: Codec, mem: Stable): Rescue {
    var first := FirstBytes(mem);
    if |first| == 0 then Nothing
    else if |first| < 8 then Unreadable
    else
      var len := FromLe(first[..8]);
      if len == 0 || len >= MAX_SNAPSHOT then Nothing
      else if 8 + len > |first| then Unreadable
      else
        var decoded := codec.decode(first[8..8 + len]);
        if decoded.Some? then Rescued(decoded.value) else Nothing
  }

  /** The manager keeps a layout it recognises and lays out anything else afresh; raw bytes that
      only look like a header carry version zero, which it refuses. */
  function InitManager(mem: Stable, header: seq<byte>): Option<Stable> {
    if mem.Managed? then Some(mem)
    else if IsMagic(mem.bytes) then None
    else Some(Managed(header, [], Hist(map[], 0)))
  }

  const FRESH := DEFAULT_STATE.(migrated := true)

  function LoadConfig(codec: Codec, mem: Stable): Option<BotState>
    requires mem.Managed?
  {
    match LoadRegion(codec, mem.config)
    case NoData => Some(FRESH)
    case Corrupt => None
    case State(s) => Some(s)
  }

  datatype Canister = Canister(heap: BotState, mem: Stable)

  function PostUpgrade(codec: Codec, mem: Stable, header: seq<byte>): Option<Canister> {
    var rescue := RescueLegacy(codec, mem);
    var managed := InitManager(mem, header);
    if rescue.Unreadable? || managed.None? then None
    else if rescue.Rescued? && !rescue.state.migrated then
      Some(Canister(rescue.state.(migrated := true),
                    managed.value.(hist := Migrate(managed.value.hist, rescue.state.legacyEvents))))
    else
      var loaded := LoadConfig(codec, managed.value);
      if loaded.None? then None else Some(Canister(loaded.value, managed.value))
  }

  /** The pages and the header an upgrade happens to be given. */
  datatype Luck = Luck(slack: seq<byte>, header: seq<byte>)

  /** A whole upgrade; a trap in either hook leaves the old canister running as it was. */
  function UpgradeCanister(codec: Codec, c: Canister, luck: Luck): Canister {
    match PreUpgrade(codec, c.heap, c.mem, luck.slack)
    case None => c
    case Some(saved) =>
      match PostUpgrade(codec, saved, luck.header)
      case None => c
      case Some(c') => c'
  }

  // ---- Life of an installation ----

  /** Between upgrades the bot may do anything to its heap state, flag included, and to its log. */
  datatype Event = Work(heap: BotState, hist: Hist) | Upgraded(luck: Luck)

  function Next(codec: Codec, c: Canister, ev: Event): Canister {
    match ev
    case Work(heap, hist) => Canister(heap, if c.mem.Managed? then c.mem.(hist := hist) else c.mem)
    case Upgraded(luck) => UpgradeCanister(codec, c, luck)
  }

  function Run(codec: Codec, c: Canister, evs: seq<Event>): Canister {
    if evs == [] then c else Next(codec, Run(codec, c, evs[..|evs| - 1]), evs[|evs| - 1])
  }

  ghost predicate Settled(c: Canister) {
    c.mem.Managed? && ValidHeader(c.mem.header)
  }

  function Install(config: Config, header: seq<byte>): Canister {
    Canister(DEFAULT_STATE.(config := Some(config), migrated := true), Managed(header, [], Hist(map[], 0)))
  }

  /** Once the managed layout exists, an upgrade changes neither heap state nor log: it goes through
      when the snapshot has at most ten million bytes, and traps as a whole when it has more. The raw
      save is not taken, even if the heap flag was lost. */
  lemma UpgradeIsTransparent(codec: Codec, c: Canister, luck: Luck)
    requires Carries(codec, c.heap) && Settled(c)
    ensures PreUpgradeSavePath(c.heap.migrated, LayoutExists(c.mem)) == ConfigSave
    ensures var after := UpgradeCanister(codec, c, luck);
            && Settled(after) && after.heap == c.heap && after.mem.hist == c.mem.hist
            && (|codec.encode(c.heap)| > 10_000_000 ==> after == c)
    ensures var saved := PreUpgrade(codec, c.heap, c.mem, luck.slack);
            saved.Some? && (PostUpgrade(codec, saved.value, luck.header).Some? <==> |codec.encode(c.heap)| <= 10_000_000)
  {
    HeaderReadsHuge(c.mem.header);
    SnapshotRoundTrip(codec, c.heap, c.mem.config, luck.slack);
  }

  /** The codec carries every state the bot's own work leaves behind. */
  ghost predicate AllCarried(codec: Codec, evs: seq<Event>) {
    forall i :: 0 <= i < |evs| && evs[i].Work? ==> Carries(codec, evs[i].heap)
  }

  /** Over any life from a settled start: the managed layout is never lost, so the raw save never
      happens again, and every upgrade keeps heap state and log as they were. */
  lemma {:induction false} LayoutIsForever(codec: Codec, c: Canister, evs: seq<Event>)
    requires Settled(c) && Carries(codec, c.heap) && AllCarried(codec, evs)
    ensures Settled(Run(codec, c, evs)) && Carries(codec, Run(codec, c, evs).heap)
    ensures PreUpgradeSavePath(Run(codec, c, evs).heap.migrated, LayoutExists(Run(codec, c, evs).mem)) == ConfigSave
    ensures |evs| > 0 && evs[|evs| - 1].Upgraded? ==>
              var before := Run(codec, c, evs[..|evs| - 1]);
              before.mem.Managed? && Run(codec, c, evs).heap == before.heap && Run(codec, c, evs).mem.hist == before.mem.hist
  {
    if evs != [] {
      var before := Run(codec, c, evs[..|evs| - 1]);
      LayoutIsForever(codec, c, evs[..|evs| - 1]);
      if evs[|evs| - 1].Upgraded? {
        UpgradeIsTransparent(codec, before, evs[|evs| - 1].luck);
      }
    }
  }

  lemma InstallIsSettled(config: Config, header: seq<byte>)
    requires ValidHeader(header)
    ensures Settled(Install(config, header))
  {
  }

  /** The length a region begins with. */
  function LengthOf(region: seq<byte>): nat
    requires |region| >= 8
  {
    FromLe(region[..8])
  }

  /** The upgrade of a managed canister stops, with nothing changed, if and only if the config region
      holds something that is no snapshot: too short for a length, a length beyond ten million or beyond
      the region, or bytes the codec rejects. A region that was never written starts afresh, with the flag
      up; any other gives the decoded state. The log is kept in every case. */
  lemma CorruptConfigTraps(codec: Codec, mem: Stable, header: seq<byte>)
    requires mem.Managed? && ValidHeader(mem.header)
    ensures var region, after := mem.config, PostUpgrade(codec, mem, header);
            var blank := |region| == 0 || (|region| >= 8 && LengthOf(region) == 0);
            && (after == None <==>
                  !blank && (|region| < 8 || LengthOf(region) > 10_000_000 || 8 + LengthOf(region) > |region|
                             || codec.decode(region[8..8 + LengthOf(region)]) == None))
            && (blank ==> after == Some(Canister(BotState(None, Stats(0, 0, 0, 0), [], [], true, map[]), mem)))
            && (!blank && after.Some? ==>
                  after.value.mem == mem && codec.decode(region[8..8 + LengthOf(region)]) == Some(after.value.heap))
  {
    HeaderReadsHuge(mem.header);
  }

  // ---- Migration from a legacy blob ----

  /** A complete legacy blob at offset 0. */
  ghost predicate LegacyBlob(codec: Codec, mem: Stable, s: BotState) {
    && mem.Raw? && |mem.bytes| >= 8
    && var len := FromLe(mem.bytes[..8]);
       && 0 < len < 10_000_000 && 8 + len <= |mem.bytes|
       && codec.decode(mem.bytes[8..8 + len]) == Some(s)
  }

  /** The first upgrade onto the managed layout. It traps exactly when the blob's length reads as
      the magic. Otherwise the state is carried over with its flag raised if the flag was down, and
      is lost to a fresh one if the flag was already up. */
  lemma FirstMigration(codec: Codec, mem: Stable, s: BotState, header: seq<byte>)
    requires LegacyBlob(codec, mem, s) && ValidHeader(header)
    ensures PostUpgrade(codec, mem, header) == None <==> FromLe(mem.bytes[..8]) == 0x52_47_4D
    ensures FromLe(mem.bytes[..8]) != 0x52_47_4D && !s.migrated ==>
              PostUpgrade(codec, mem, header) ==
              Some(Canister(s.(migrated := true), Managed(header, [], Migrate(Hist(map[], 0), s.legacyEvents))))
    ensures FromLe(mem.bytes[..8]) != 0x52_47_4D && s.migrated ==>
              PostUpgrade(codec, mem, header) == Some(Canister(FRESH, Managed(header, [], Hist(map[], 0))))
  {
    MagicIsOneLength(mem.bytes);
  }

  /** A canister that still keeps its state in raw memory, upgraded onto the managed layout: what the old
      code saved is what the new code finds. If the snapshot is shorter than ten million bytes and its
      length does not read as the magic, the state comes over with its flag raised and the first 500 events
      enter the log; at the magic length the upgrade stops with nothing changed; a longer snapshot is not
      found, and the new code starts afresh. */
  lemma LegacyUpgradeMigrates(codec: Codec, c: Canister, luck: Luck)
    requires c.mem.Raw? && !LayoutExists(c.mem) && !c.heap.migrated && Carries(codec, c.heap) && ValidHeader(luck.header)
    ensures var after, size := UpgradeCanister(codec, c, luck), |codec.encode(c.heap)|;
            && PreUpgradeSavePath(c.heap.migrated, LayoutExists(c.mem)) == LegacyRawSave
            && (size < 10_000_000 && size != 0x52_47_4D ==>
                  && after.heap == c.heap.(migrated := true) && after.mem.Managed? && after.mem.header == luck.header
                  && after.mem.config == []
                  && Dense(after.mem.hist) && after.mem.hist.nextId == Min(500, |c.heap.legacyEvents|)
                  && forall i :: 0 <= i < after.mem.hist.nextId ==> TellsOf(after.mem.hist.records[i], c.heap.legacyEvents[i]))
            && (size == 0x52_47_4D ==> after == c)
            && (size >= 10_000_000 && !IsMagic(ToLe(size, 8)) ==> after == Canister(FRESH, Managed(luck.header, [], Hist(map[], 0))))
  {
    hide PostUpgrade, Migrate, TellsOf, ToLe, FromLe, IsMagic;
    var payload := codec.encode(c.heap);
    var saved := Raw(Overlay(c.mem.bytes, Framed(payload), luck.slack));
    LegacySaveReads(codec, c, luck);
    assert PreUpgrade(codec, c.heap, c.mem, luck.slack) == Some(saved);
    hide PreUpgrade, Overlay, Framed;
    if |payload| < 10_000_000 {
      FirstMigration(codec, saved, c.heap, luck.header);
      MigrateExact(c.heap.legacyEvents);
    }
  }

  /** What the raw save leaves at offset 0: the length, then the state; and what the new code makes of it if
      it is too long. */
  lemma LegacySaveReads(codec: Codec, c: Canister, luck: Luck)
    requires c.mem.Raw? && Carries(codec, c.heap)
    ensures var saved, size := Raw(Overlay(c.mem.bytes, Framed(codec.encode(c.heap)), luck.slack)), |codec.encode(c.heap)|;
            && |saved.bytes| >= 8 && FromLe(saved.bytes[..8]) == size
            && (size < 10_000_000 ==> LegacyBlob(codec, saved, c.heap))
            && (size >= 10_000_000 && !IsMagic(ToLe(size, 8)) ==>
                  PostUpgrade(codec, saved, luck.header) == Some(Canister(FRESH, Managed(luck.header, [], Hist(map[], 0)))))
  {
    hide ToLe, FromLe;
    var payload := codec.encode(c.heap);
    var saved := Raw(Overlay(c.mem.bytes, Framed(payload), luck.slack));
    var tail := if |c.mem.bytes| > |Framed(payload)| then c.mem.bytes[|Framed(payload)|..] else luck.slack;
    assert saved.bytes == Framed(payload) + tail;
    FramedLength(payload, tail);
    assert |payload| % U64_SPAN == |payload|;
    assert saved.bytes[..8] == ToLe(|payload|, 8);
  }

  lemma MigrateExact(events: seq<LegacyEvent>)
    ensures var hist := Migrate(Hist(map[], 0), events);
            && Dense(hist) && hist.nextId == Min(500, |events|)
            && forall i :: 0 <= i < hist.nextId ==> TellsOf(hist.records[i], events[i])
  {
    hide Append, TellsOf;
    var kept := if |events| > MAX_MIGRATED then events[..MAX_MIGRATED] else events;
    AppendExact(Hist(map[], 0), kept);
    assert forall i :: 0 <= i < |kept| ==> kept[i] == events[i];
    var hist := Migrate(Hist(map[], 0), events);
    forall i | 0 <= i < hist.nextId ensures TellsOf(hist.records[i], events[i]) {
      assert TellsOf(Append(Hist(map[], 0), kept).records[0 + i], kept[i]);
    }
  }

  ghost predicate OnlyUpgrades(evs: seq<Event>) {
    forall i :: 0 <= i < |evs| ==> evs[i].Upgraded?
  }

  lemma {:induction false} UpgradesChangeNothing(codec: Codec, c: Canister, evs: seq<Event>)
    requires Carries(codec, c.heap) && Settled(c) && OnlyUpgrades(evs)
    ensures Settled(Run(codec, c, evs)) && Run(codec, c, evs).heap == c.heap && Run(codec, c, evs).mem.hist == c.mem.hist
  {
    if evs != [] {
      UpgradesChangeNothing(codec, c, evs[..|evs| - 1]);
      UpgradeIsTransparent(codec, Run(codec, c, evs[..|evs| - 1]), evs[|evs| - 1].luck);
    }
  }

  /** From a legacy blob through the migration and any number of further upgrades: the log holds
      the first 500 legacy events, each once, in order, and nothing else; the state is the blob's. */
  lemma LegacyEventsEnterOnce(codec: Codec, mem: Stable, s: BotState, header: seq<byte>, evs: seq<Event>)
    requires Carries(codec, s.(migrated := true)) && ValidHeader(header) && OnlyUpgrades(evs)
    requires LegacyBlob(codec, mem, s) && !s.migrated && !IsMagic(mem.bytes)
    ensures var first := PostUpgrade(codec, mem, header);
            && first.Some?
            && var last := Run(codec, first.value, evs);
               && Settled(last) && last.heap == s.(migrated := true)
               && Dense(last.mem.hist) && last.mem.hist.nextId == Min(500, |s.legacyEvents|)
               && forall i :: 0 <= i < last.mem.hist.nextId ==> TellsOf(last.mem.hist.records[i], s.legacyEvents[i])
  {
    MagicIsOneLength(mem.bytes);
    FirstMigration(codec, mem, s, header);
    var first := PostUpgrade(codec, mem, header).value;
    UpgradesChangeNothing(codec, first, evs);
    MigrateExact(s.legacyEvents);
  }

  // ---- The canister as it changes in place ----

  class BotCanister {
    var heap: BotState
    var mem: Stable

    constructor (heap: BotState, mem: Stable)
      ensures this.heap == heap && this.mem == mem
    {
      this.heap, this.mem := heap, mem;
    }

    /** Length first, then the payload, over whatever the region held. */
    method SaveConfigToStable(codec: Codec, slack: seq<byte>) returns (ok: bool)
      modifies this`mem
      ensures ok <==> old(mem).Managed?
      ensures ok ==> mem == old(mem).(config := Overlay(old(mem).config, Framed(codec.encode(heap)), slack))
      ensures !ok ==> mem == old(mem)
    {
      if mem.Raw? {
        return false;
      }
      var bytes := codec.encode(heap);
      var len := ToLe(|bytes| % U64_SPAN, 8);
      mem := mem.(config := Overlay(mem.config, len + bytes, slack));
      return true;
    }

    method LoadConfigFromStable(codec: Codec) returns (ok: bool)
      requires mem.Managed?
      modifies this`heap
      ensures ok <==> LoadConfig(codec, mem).Some?
      ensures heap == if ok then LoadConfig(codec, mem).value else old(heap)
    {
      var region := mem.config;
      if |region| == 0 {
        heap := DEFAULT_STATE.(migrated := true);
        return true;
      }
      if |region| < 8 {
        return false;
      }
      var len := FromLe(region[..8]);
      if len == 0 {
        heap := DEFAULT_STATE.(migrated := true);
        return true;
      }
      if len > MAX_SNAPSHOT || 8 + len > |region| {
        return false;
      }
      var decoded := codec.decode(region[8..8 + len]);
      if decoded.None? {
        return false;
      }
      heap := decoded.value;
      return true;
    }

    /** Both hooks around a code change; a trap in either restores what was there. */
    method Upgrade(codec: Codec, luck: Luck)
      modifies this
      ensures Canister(heap, mem) == UpgradeCanister(codec, Canister(old(heap), old(mem)), luck)
    {
      var heapBefore, memBefore := heap, mem;
      var ok;
      match PreUpgradeSavePath(heap.migrated, LayoutExists(mem)) {
        case ConfigSave => ok := SaveConfigToStable(codec, luck.slack);
        case LegacyRawSave =>
          ok := mem.Raw? && !LayoutExists(mem);
          if ok {
            mem := Raw(Overlay(mem.bytes, Framed(codec.encode(heap)), luck.slack));
          }
      }
      if ok {
        ok := FinishUpgrade(codec, luck.header);
      }
      if !ok {
        heap, mem := heapBefore, memBefore;
      }
    }

    method FinishUpgrade(codec: Codec, header: seq<byte>) returns (ok: bool)
      modifies this
      ensures ok <==> PostUpgrade(codec, old(mem), header).Some?
      ensures ok ==> Canister(heap, mem) == PostUpgrade(codec, old(mem), header).value
    {
      var rescue := RescueLegacy(codec, mem);
      if rescue.Unreadable? {
        return false;
      }
      var managed := InitManager(mem, header);
      if managed.None? {
        return false;
      }
      mem := managed.value;
      if rescue.Rescued? && !rescue.state.migrated {
        var log := new Log.Open(mem.hist);
        log.MigrateLegacyEvents(rescue.state.legacyEvents);
        mem := mem.(hist := Hist(log.records, log.nextId));
        heap := rescue.state;
        heap := heap.(migrated := true);
        return true;
      }
      ok := LoadConfigFromStable(codec);
    }
  }
}
