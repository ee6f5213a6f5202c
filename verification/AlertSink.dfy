/** The monitor's rate-limited alert sink: per key, at most one alert passes in a cooldown. The clock
    is arbitrary and may even run backwards. */
module AlertSink {
  import opened Prelude
  import opened Policy

  datatype Stamped = Stamped(at: int, alert: Alert)

  /** Code and vault make the stream; the level is not part of it. */
  function Key(alert: Alert): Code {
    alert.code
  }

  predicate Cooling(last: map<Code, int>, e: Stamped, cooldown: nat) {
    Key(e.alert) in last && e.at - last[Key(e.alert)] < cooldown
  }

  /** When each key last passed. */
  function LastEmit(emits: seq<Stamped>, cooldown: nat): map<Code, int> {
    if emits == [] then map[]
    else
      var last, e := LastEmit(emits[..|emits| - 1], cooldown), emits[|emits| - 1];
      if Cooling(last, e, cooldown) then last else last[Key(e.alert) := e.at]
  }

  /** Alert `i` of the run is passed on. */
  predicate Passes(emits: seq<Stamped>, i: nat, cooldown: nat)
    requires i < |emits|
  {
    !Cooling(LastEmit(emits[..i], cooldown), emits[i], cooldown)
  }

  function Passed(emits: seq<Stamped>, cooldown: nat): seq<Alert> {
    if emits == [] then []
    else
      var n := |emits| - 1;
      Passed(emits[..n], cooldown) + if Passes(emits, n, cooldown) then [emits[n].alert] else []
  }

  class DedupingSink {
    const cooldown: nat
    var lastEmit: map<Code, int>
    var inner: seq<Alert>
    ghost var seen: seq<Stamped>

    ghost predicate Valid()
      reads this
    {
      lastEmit == LastEmit(seen, cooldown) && inner == Passed(seen, cooldown)
    }

    constructor (cooldown: nat)
      ensures Valid() && seen == [] && this.cooldown == cooldown
    {
      this.cooldown, lastEmit, inner, seen := cooldown, map[], [], [];
    }

    method Emit(alert: Alert, now: int)
      requires Valid()
      modifies this
      ensures Valid() && seen == old(seen) + [Stamped(now, alert)]
    {
      seen := seen + [Stamped(now, alert)];
      assert seen[..|seen| - 1] == old(seen);
      var key := Key(alert);
      if key in lastEmit && now - lastEmit[key] < cooldown {
        return;
      }
      lastEmit := lastEmit[key := now];
      inner := inner + [alert];
    }
  }

  predicate PassedAt(emits: seq<Stamped>, i: nat, cooldown: nat, key: Code) {
    i < |emits| && Passes(emits, i, cooldown) && Key(emits[i].alert) == key
  }

  lemma PassedEarlier(emits: seq<Stamped>, n: nat, cooldown: nat, key: Code)
    requires n <= |emits|
    ensures forall i: nat :: i < n ==> PassedAt(emits, i, cooldown, key) == PassedAt(emits[..n], i, cooldown, key)
  {
    forall i: nat | i < n ensures PassedAt(emits, i, cooldown, key) == PassedAt(emits[..n], i, cooldown, key) {
      assert emits[..n][..i] == emits[..i];
    }
  }

  /** The stored time is the latest one at which the key passed. */
  lemma {:induction false} LastEmitIsLatest(emits: seq<Stamped>, cooldown: nat, key: Code)
    ensures var last := LastEmit(emits, cooldown);
            && (key in last ==> exists i: nat :: PassedAt(emits, i, cooldown, key) && emits[i].at == last[key])
            && (forall i: nat :: PassedAt(emits, i, cooldown, key) ==> key in last && emits[i].at <= last[key])
  {
    if emits != [] {
      var n := |emits| - 1;
      var init := emits[..n];
      LastEmitIsLatest(init, cooldown, key);
      PassedEarlier(emits, n, cooldown, key);
      var last := LastEmit(emits, cooldown);
      if PassedAt(emits, n, cooldown, key) {
        assert emits[n].at == last[key];
      } else if key in last {
        assert last[key] == LastEmit(init, cooldown)[key];
        var i: nat :| PassedAt(init, i, cooldown, key) && init[i].at == LastEmit(init, cooldown)[key];
        assert PassedAt(emits, i, cooldown, key);
      }
      assert forall i: nat :: PassedAt(emits, i, cooldown, key) ==> i <= n;
      hide PassedAt;
    }
  }

  /** An alert passes exactly when every alert of its stream that passed before it lies at least a
      cooldown back. So two that pass are never closer, and a first one is never held. */
  lemma PassesIffCooledDown(emits: seq<Stamped>, j: nat, cooldown: nat)
    requires j < |emits|
    ensures Passes(emits, j, cooldown) <==>
            forall i: nat :: i < j && PassedAt(emits, i, cooldown, Key(emits[j].alert)) ==> emits[j].at - emits[i].at >= cooldown
  {
    var key := Key(emits[j].alert);
    var before := emits[..j];
    LastEmitIsLatest(before, cooldown, key);
    PassedEarlier(emits, j, cooldown, key);
    if !Passes(emits, j, cooldown) {
      var i: nat :| PassedAt(before, i, cooldown, key) && before[i].at == LastEmit(before, cooldown)[key];
      assert PassedAt(emits, i, cooldown, key);
    }
  }

  /** Two vaults' alarms are of one stream exactly if the vaults are the same, and no alarm about a vault is
      of one stream with an alert about the cycle. */
  lemma StreamsAreVaults(v: Vault, w: Vault, atV: nat, atW: nat, cfg: Config, other: Alert)
    requires AlertFor(v, atV, cfg).Some? && AlertFor(w, atW, cfg).Some?
    ensures Key(AlertFor(v, atV, cfg).value) == Key(AlertFor(w, atW, cfg).value) <==> v.vaultId == w.vaultId
    ensures !other.code.VaultBelowBand? ==> Key(AlertFor(v, atV, cfg).value) != Key(other)
    ensures Key(other) == Key(Alert(Warn, other.code)) == Key(Alert(Critical, other.code))
  {
    hide CollateralRatioE4;
  }

  /** An escalation is held back: a vault that falls below the minimum ratio within a cooldown of
      having merely been below the band raises a critical alarm that no one sees. */
  lemma EscalationIsHeld(v: Vault, wasE8: nat, isE8: nat, cfg: Config, cooldown: nat, t: int, later: int)
    requires AlertFor(v, wasE8, cfg) == Some(Alert(Warn, VaultBelowBand(v.vaultId)))
    requires AlertFor(v, isE8, cfg) == Some(Alert(Critical, VaultBelowBand(v.vaultId)))
    ensures var emits := [Stamped(t, AlertFor(v, wasE8, cfg).value), Stamped(later, AlertFor(v, isE8, cfg).value)];
            Passed(emits, cooldown) == (if later - t < cooldown then [emits[0].alert] else [emits[0].alert, emits[1].alert])
  {
    hide AlertFor;
    var emits := [Stamped(t, AlertFor(v, wasE8, cfg).value), Stamped(later, AlertFor(v, isE8, cfg).value)];
    assert emits[..1] == [emits[0]] && emits[..1][..0] == [] && emits[..0] == [];
    assert LastEmit(emits[..1], cooldown) == map[VaultBelowBand(v.vaultId) := t];
    assert Passed(emits[..1], cooldown) == [emits[0].alert];
  }
}
