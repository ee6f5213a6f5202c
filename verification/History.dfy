/** The durable record log: ids handed out by a counter, records kept in an ordered map. */
module History {
  import opened Prelude
  import opened BotTypes

  datatype Hist = Hist(records: map<nat, Record>, nextId: nat)

  const MAX_PAGE: nat := 1000
  const MAX_STUCK: nat := 100
  const MAX_MIGRATED: nat := 500

  /** Each stored record sits under its own id, below the counter. An id that has been handed out to
      a run still in flight has no record yet. */
  ghost predicate Keyed(h: Hist) {
    forall id :: id in h.records ==> id < h.nextId && h.records[id].id == id
  }

  /** Every id handed out has its own record, and nothing else is stored. */
  ghost predicate Dense(h: Hist) {
    && (forall id :: id in h.records <==> 0 <= id < h.nextId)
    && (forall id :: id in h.records ==> h.records[id].id == id)
  }

  /** Stored records with lo <= id < hi, ascending. */
  function Collect(records: map<nat, Record>, lo: nat, hi: nat): seq<Record>
    decreases hi
  {
    if lo >= hi then []
    else Collect(records, lo, hi - 1) + if hi - 1 in records then [records[hi - 1]] else []
  }

  /** The newest `limit` records after skipping the newest `offset`, ascending. */
  function Page(h: Hist, offset: nat, limit: nat): seq<Record> {
    var capped := Min(limit, MAX_PAGE);
    if h.nextId == 0 || offset >= h.nextId then []
    else Collect(h.records, SatSub(h.nextId, SatAdd(offset, capped, U64_MAX)), SatSub(h.nextId, offset))
  }

  /** Stuck records with id below `n`, newest first. */
  function StuckBelow(records: map<nat, Record>, n: nat): seq<Record> {
    if n == 0 then []
    else (if n - 1 in records && Stuck(records[n - 1]) then [records[n - 1]] else []) + StuckBelow(records, n - 1)
  }

  function MigratedRecord(id: nat, e: LegacyEvent): Record {
    Record(id, e.vaultId, e.timestamp, if e.success then Completed else SwapFailed,
           e.collateralReceived, e.debtCovered, 0, 0, 0, e.toTreasury, e.effectivePrice,
           if e.hasError then Some(LegacyError) else None, 0)
  }

  /** One record per event, in order, from the next free id on. */
  function Append(h: Hist, events: seq<LegacyEvent>): Hist {
    if events == [] then h
    else
      var init := Append(h, events[..|events| - 1]);
      Hist(init.records[init.nextId := MigratedRecord(init.nextId, events[|events| - 1])], init.nextId + 1)
  }

  function Migrate(h: Hist, events: seq<LegacyEvent>): Hist {
    Append(h, if |events| > MAX_MIGRATED then events[..MAX_MIGRATED] else events)
  }

  class Log {
    var records: map<nat, Record>
    var nextId: nat

    ghost function View(): Hist
      reads this
    {
      Hist(records, nextId)
    }

    constructor ()
      ensures View() == Hist(map[], 0)
    {
      records, nextId := map[], 0;
    }

    /** What `init_history` does over regions that already hold a log. */
    constructor Open(h: Hist)
      ensures View() == h
    {
      records, nextId := h.records, h.nextId;
    }

    method NextId() returns (id: nat)
      modifies this`nextId
      ensures id == old(nextId) && nextId == id + 1
    {
      id := nextId;
      nextId := id + 1;
    }

    method Insert(r: Record)
      modifies this`records
      ensures records == old(records)[r.id := r]
    {
      records := records[r.id := r];
    }

    method GetRecords(offset: nat, limit: nat) returns (page: seq<Record>)
      ensures page == Page(View(), offset, limit)
    {
      var capped := Min(limit, MAX_PAGE);
      if nextId == 0 || offset >= nextId {
        return [];
      }
      var start := SatSub(nextId, SatAdd(offset, capped, U64_MAX));
      var end := SatSub(nextId, offset);
      page := [];
      var id := start;
      while id < end
        invariant page == Collect(records, start, if id <= end then id else end)
      {
        if id in records {
          page := page + [records[id]];
        }
        id := id + 1;
      }
    }

    /** Scans from the newest id down and stops at 100 hits. */
    method GetStuckRecords() returns (found: seq<Record>)
      ensures |found| <= 100 && found <= StuckBelow(records, nextId)
      ensures |found| < 100 ==> found == StuckBelow(records, nextId)
    {
      found := [];
      var id := nextId;
      while id > 0
        invariant 0 <= id <= nextId && |found| <= MAX_STUCK
        invariant found + StuckBelow(records, id) == StuckBelow(records, nextId)
      {
        if |found| >= MAX_STUCK {
          return;
        }
        id := id - 1;
        ghost var before := found;
        if id in records && Stuck(records[id]) {
          found := found + [records[id]];
        }
        assert before + StuckBelow(records, id + 1) == found + StuckBelow(records, id);
      }
    }

    method MigrateLegacyEvents(events: seq<LegacyEvent>)
      modifies this
      ensures View() == Migrate(old(View()), events)
    {
      var kept := if |events| > MAX_MIGRATED then events[..MAX_MIGRATED] else events;
      for i := 0 to |kept|
        invariant View() == Append(old(View()), kept[..i])
      {
        assert kept[..i + 1][..i] == kept[..i];
        var id := NextId();
        Insert(MigratedRecord(id, kept[i]));
      }
      assert kept[..|kept|] == kept;
    }
  }

  // ---- Paging ----

  lemma {:induction false} CollectSplit(records: map<nat, Record>, lo: nat, mid: nat, hi: nat)
    requires lo <= mid <= hi
    ensures Collect(records, lo, hi) == Collect(records, lo, mid) + Collect(records, mid, hi)
    decreases hi - mid
  {
    if mid < hi {
      CollectSplit(records, lo, mid, hi - 1);
    }
  }

  /** In a dense log, collecting everything lists record 0, record 1, ... each exactly once. */
  lemma {:induction false} CollectDense(h: Hist, n: nat)
    requires Dense(h) && n <= h.nextId
    ensures |Collect(h.records, 0, n)| == n
    ensures forall i :: 0 <= i < n ==> Collect(h.records, 0, n)[i] == h.records[i]
  {
    if n > 0 {
      CollectDense(h, n - 1);
    }
  }

  /** Pages `pages - 1`, ..., 1, 0 of size `size`, put end to end. */
  function PagesDown(h: Hist, size: nat, pages: nat): seq<Record> {
    if pages == 0 then []
    else Page(h, (pages - 1) * size, size) + PagesDown(h, size, pages - 1)
  }

  lemma {:induction false} PagesCover(h: Hist, size: nat, pages: nat)
    requires 0 < size <= MAX_PAGE && h.nextId <= U64_MAX
    ensures PagesDown(h, size, pages) == Collect(h.records, SatSub(h.nextId, pages * size), h.nextId)
  {
    if pages > 0 {
      PagesCover(h, size, pages - 1);
      var skipped := (pages - 1) * size;
      assert pages * size == skipped + size;
      if skipped < h.nextId {
        CollectSplit(h.records, SatSub(h.nextId, pages * size), h.nextId - skipped, h.nextId);
      }
    }
  }

  /** A page holds exactly the stored records whose ids lie in its window, `offset` below the newest and
      `limit`, at most 1000, wide, in strictly ascending id. */
  lemma PageExact(h: Hist, offset: nat, limit: nat)
    requires Keyed(h) && h.nextId <= U64_MAX
    ensures var page := Page(h, offset, limit);
            && (forall i, j :: 0 <= i < j < |page| ==> page[i].id < page[j].id)
            && (forall r :: r in page <==>
                  r.id in h.records && h.records[r.id] == r && r.id + offset < h.nextId
                  && h.nextId <= r.id + offset + Min(limit, 1000))
  {
    var page := Page(h, offset, limit);
    if offset < h.nextId {
      var lo, hi := SatSub(h.nextId, SatAdd(offset, Min(limit, 1000), U64_MAX)), h.nextId - offset;
      CollectRange(h, lo, hi);
    }
  }

  lemma {:induction false} CollectRange(h: Hist, lo: nat, hi: nat)
    requires Keyed(h)
    ensures forall i, j :: 0 <= i < j < |Collect(h.records, lo, hi)| ==>
              Collect(h.records, lo, hi)[i].id < Collect(h.records, lo, hi)[j].id
    ensures forall r :: r in Collect(h.records, lo, hi) <==> lo <= r.id < hi && r.id in h.records && h.records[r.id] == r
    decreases hi
  {
    if lo < hi {
      CollectRange(h, lo, hi - 1);
      var init, all := Collect(h.records, lo, hi - 1), Collect(h.records, lo, hi);
      forall i, j | 0 <= i < j < |all| ensures all[i].id < all[j].id {
        assert all[i] == init[i] && init[i] in init;
      }
    }
  }

  /** Paging is a partition: from the last page down to page 0, every stored record comes once, in
      ascending id, whatever the page size, and also while an id is handed out and not yet written. */
  lemma PagingIsPartition(h: Hist, size: nat, pages: nat)
    requires Keyed(h) && 0 < size <= 1000 && h.nextId <= U64_MAX
    requires pages * size >= h.nextId
    ensures var all := PagesDown(h, size, pages);
            && (forall i, j :: 0 <= i < j < |all| ==> all[i].id < all[j].id)
            && (forall r :: r in all <==> r.id in h.records && h.records[r.id] == r)
  {
    PagesCover(h, size, pages);
    CollectRange(h, 0, h.nextId);
  }

  // ---- Stuck list ----

  /** The full stuck list holds exactly the stuck records, newest first. */
  lemma {:induction false} StuckBelowExact(h: Hist, n: nat)
    requires Keyed(h)
    ensures forall i, j :: 0 <= i < j < |StuckBelow(h.records, n)| ==>
              StuckBelow(h.records, n)[i].id > StuckBelow(h.records, n)[j].id
    ensures forall r :: r in StuckBelow(h.records, n) <==>
              r.id < n && r.id in h.records && h.records[r.id] == r && Stuck(r)
  {
    if n > 0 {
      StuckBelowExact(h, n - 1);
      var tail := StuckBelow(h.records, n - 1);
      var all := StuckBelow(h.records, n);
      forall r ensures r in all <==> r.id < n && r.id in h.records && h.records[r.id] == r && Stuck(r) {
        assert r in tail ==> r in all by {
          if r in tail {
            var i :| 0 <= i < |tail| && tail[i] == r;
            assert all[|all| - |tail| + i] == r;
          }
        }
      }
      forall i, j | 0 <= i < j < |all| ensures all[i].id > all[j].id {
        assert all[j] == tail[j - (|all| - |tail|)];
        assert tail[j - (|all| - |tail|)] in tail;
      }
    }
  }

  /** What the capped scan returns: stuck records only, newest first, and none newer is missing. */
  lemma StuckListIsNewest(h: Hist, found: seq<Record>, r: Record)
    requires Keyed(h) && found <= StuckBelow(h.records, h.nextId)
    requires |found| < MAX_STUCK ==> found == StuckBelow(h.records, h.nextId)
    requires r.id in h.records && h.records[r.id] == r && Stuck(r)
    ensures forall i :: 0 <= i < |found| ==> Stuck(found[i]) && found[i].id in h.records && h.records[found[i].id] == found[i]
    ensures r !in found ==> |found| >= MAX_STUCK && forall i :: 0 <= i < |found| ==> found[i].id > r.id
  {
    var all := StuckBelow(h.records, h.nextId);
    StuckBelowExact(h, h.nextId);
    forall i | 0 <= i < |found| ensures Stuck(found[i]) && found[i].id in h.records && h.records[found[i].id] == found[i] {
      assert found[i] == all[i] && all[i] in all;
    }
    if r !in found {
      var k :| 0 <= k < |all| && all[k] == r;
      assert forall i :: 0 <= i < |found| ==> found[i] == all[i] && found[i] in found;
      forall i | 0 <= i < |found| ensures found[i].id > r.id {
        assert found[i] == all[i];
      }
    }
  }

  // ---- Migration ----

  /** A migrated record is the event's: its figures in their own places, the effective price as the
      oracle's, nothing swapped or transferred, and a status and note that tell what the event told. */
  predicate TellsOf(r: Record, e: LegacyEvent) {
    && r.vaultId == e.vaultId && r.timestamp == e.timestamp
    && (r.status == Completed <==> e.success) && (r.status == SwapFailed <==> !e.success)
    && r.collateralClaimed == e.collateralReceived && r.debtToCover == e.debtCovered && r.icpToTreasury == e.toTreasury
    && r.oraclePrice == e.effectivePrice && r.icpSwapped == r.ckusdcReceived == r.ckusdcTransferred == r.confirmRetries == 0
    && (r.note.Some? <==> e.hasError)
  }

  /** Appending keeps the log dense, keeps what was there, and adds event i at id nextId + i. */
  lemma {:induction false} AppendExact(h: Hist, events: seq<LegacyEvent>)
    requires Dense(h)
    ensures Dense(Append(h, events)) && Append(h, events).nextId == h.nextId + |events|
    ensures forall id :: id in h.records ==> Append(h, events).records[id] == h.records[id]
    ensures forall i :: 0 <= i < |events| ==>
              Append(h, events).records[h.nextId + i].id == h.nextId + i && TellsOf(Append(h, events).records[h.nextId + i], events[i])
  {
    if events != [] {
      AppendExact(h, events[..|events| - 1]);
    }
  }
}
