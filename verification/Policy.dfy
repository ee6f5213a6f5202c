/** The monitor's decisions: fixed-point collateral ratios, when to refresh the on-chain price, and
    which vaults to raise an alarm about. */
module Policy {
  import opened Prelude

  datatype Vault = Vault(vaultId: nat, collateral: nat, debt: nat)

  datatype OnChainPrice = OnChainPrice(priceE8: nat, setAtNs: nat)

  datatype Config = Config(driftBps: nat, maxAgeSec: nat, crWarnBandE4: nat, mcrE4: nat, nativeDecimals: nat)

  datatype Level = Warn | Critical

  datatype Code =
    | InsufficientSources
    | PriceUnderflow
    | CoverageTruncated
    | RefreshFailed
    | VerifyReadFailed
    | VerifyMismatch
    | VaultBelowBand(vaultId: nat)

  datatype Alert = Alert(level: Level, code: Code)

  const NS_PER_SEC: nat := 1_000_000_000

  // ---- Collateral ratio ----

  function Pow10(n: nat): nat
    ensures Pow10(n) > 0
  {
    if n == 0 then 1 else 10 * Pow10(n - 1)
  }

  function Quotient(a: nat, b: nat): nat
    requires b > 0
  {
    a / b
  }

  /** Two truncating divisions and a cap. */
  function CollateralRatioE4(collateral: nat, decimals: nat, priceE8: nat, debt: nat): nat {
    if debt == 0 then U64_MAX
    else
      var cr := Quotient(Quotient(collateral * priceE8, Pow10(decimals)) * 10_000, debt);
      if cr < U64_MAX then cr else U64_MAX
  }

  /** The true ratio is at least `band`, without any rounding. */
  predicate TrulyAtLeast(collateral: nat, decimals: nat, priceE8: nat, debt: nat, band: nat) {
    (collateral * priceE8) * 10_000 >= (band * debt) * Pow10(decimals)
  }

  /** Truncation errs on the safe side: a computed ratio at or above a threshold is truly there. */
  lemma RatioIsSafe(collateral: nat, decimals: nat, priceE8: nat, debt: nat, band: nat)
    requires debt > 0 && CollateralRatioE4(collateral, decimals, priceE8, debt) >= band
    ensures TrulyAtLeast(collateral, decimals, priceE8, debt, band)
  {
    var scale := Pow10(decimals);
    var worth := collateral * priceE8;
    var usd := worth / scale;
    DivLargest(usd * 10_000, debt, band);
    DivBounds(worth, scale);
    calc {
      (band * debt) * scale;
    <= { MulMono(band * debt, usd * 10_000, scale); }
      (usd * 10_000) * scale;
      (usd * scale) * 10_000;
    <= worth * 10_000;
    }
  }

  /** And it errs by less than one unit, 1e-8 dollar, of the truncated value: below the threshold
      (within u64 range), the true ratio is below it too, up to that unit. */
  lemma RatioIsTight(collateral: nat, decimals: nat, priceE8: nat, debt: nat, band: nat)
    requires debt > 0 && band <= U64_MAX && CollateralRatioE4(collateral, decimals, priceE8, debt) < band
    ensures (collateral * priceE8) * 10_000 < (band * debt + 10_000) * Pow10(decimals)
  {
    var scale := Pow10(decimals);
    var worth := collateral * priceE8;
    var usd := worth / scale;
    DivLargest(usd * 10_000, debt, band);
    DivBounds(worth, scale);
    calc {
      worth * 10_000;
    < (usd * scale + scale) * 10_000;
    == ((usd + 1) * scale) * 10_000;
    == ((usd + 1) * 10_000) * scale;
    <= { MulMono((usd + 1) * 10_000, band * debt + 10_000, scale); }
      (band * debt + 10_000) * scale;
    }
  }

  /** The ratio is the exact one of the truncated dollar value, rounded down, and never beyond 2^64 - 1. */
  lemma RatioIsExact(collateral: nat, decimals: nat, priceE8: nat, debt: nat, band: nat)
    requires debt > 0
    ensures CollateralRatioE4(collateral, decimals, priceE8, debt) >= band <==>
            band <= 0xFFFF_FFFF_FFFF_FFFF && band * debt <= Quotient(collateral * priceE8, Pow10(decimals)) * 10_000
  {
    hide Pow10;
    var value := Quotient(collateral * priceE8, Pow10(decimals)) * 10_000;
    assert Quotient(value, debt) >= band <==> band * debt <= value by { DivLargest(value, debt, band); }
    hide Quotient;
  }

  // ---- Alarms ----

  /** The alarm for one vault, if any. Debt-free vaults never raise one. */
  function AlertFor(v: Vault, marketE8: nat, cfg: Config): Option<Alert> {
    var cr := CollateralRatioE4(v.collateral, cfg.nativeDecimals, marketE8, v.debt);
    if v.debt == 0 || cr >= cfg.crWarnBandE4 then None
    else Some(Alert(if cr < cfg.mcrE4 then Critical else Warn, VaultBelowBand(v.vaultId)))
  }

  function CrAlerts(vaults: seq<Vault>, marketE8: nat, cfg: Config): seq<Alert> {
    if vaults == [] then []
    else
      var alert := AlertFor(vaults[|vaults| - 1], marketE8, cfg);
      CrAlerts(vaults[..|vaults| - 1], marketE8, cfg) + if alert.Some? then [alert.value] else []
  }

  method CollectCrAlerts(vaults: seq<Vault>, marketE8: nat, cfg: Config) returns (alerts: seq<Alert>)
    ensures alerts == CrAlerts(vaults, marketE8, cfg)
  {
    alerts := [];
    for i := 0 to |vaults|
      invariant alerts == CrAlerts(vaults[..i], marketE8, cfg)
    {
      assert vaults[..i + 1][..i] == vaults[..i];
      var v := vaults[i];
      if v.debt != 0 {
        var cr := CollateralRatioE4(v.collateral, cfg.nativeDecimals, marketE8, v.debt);
        if cr < cfg.crWarnBandE4 {
          alerts := alerts + [Alert(if cr < cfg.mcrE4 then Critical else Warn, VaultBelowBand(v.vaultId))];
        }
      }
    }
    assert vaults[..|vaults|] == vaults;
  }

  /** An indebted vault is passed over only if its true ratio is at least the band; with the minimum
      below the band, every vault truly below the minimum is critical; and an alarm means the true
      ratio is below the band up to the rounding. */
  lemma AlertsAreSound(v: Vault, marketE8: nat, cfg: Config)
    requires v.debt > 0
    ensures AlertFor(v, marketE8, cfg).None? ==> TrulyAtLeast(v.collateral, cfg.nativeDecimals, marketE8, v.debt, cfg.crWarnBandE4)
    ensures cfg.mcrE4 <= cfg.crWarnBandE4 && !TrulyAtLeast(v.collateral, cfg.nativeDecimals, marketE8, v.debt, cfg.mcrE4) ==>
              AlertFor(v, marketE8, cfg) == Some(Alert(Critical, VaultBelowBand(v.vaultId)))
    ensures AlertFor(v, marketE8, cfg).Some? && cfg.crWarnBandE4 <= U64_MAX ==>
              (v.collateral * marketE8) * 10_000 < (cfg.crWarnBandE4 * v.debt + 10_000) * Pow10(cfg.nativeDecimals)
    // A warning is for a vault that is truly at the minimum; a critical one is below it, up to the rounding.
    ensures AlertFor(v, marketE8, cfg).Some? && AlertFor(v, marketE8, cfg).value.level == Warn ==>
              TrulyAtLeast(v.collateral, cfg.nativeDecimals, marketE8, v.debt, cfg.mcrE4)
    ensures AlertFor(v, marketE8, cfg).Some? && AlertFor(v, marketE8, cfg).value.level == Critical && cfg.mcrE4 <= U64_MAX ==>
              (v.collateral * marketE8) * 10_000 < (cfg.mcrE4 * v.debt + 10_000) * Pow10(cfg.nativeDecimals)
    ensures AlertFor(v, marketE8, cfg).Some? ==> AlertFor(v, marketE8, cfg).value.code == VaultBelowBand(v.vaultId)
  {
    var cr := CollateralRatioE4(v.collateral, cfg.nativeDecimals, marketE8, v.debt);
    hide CollateralRatioE4, TrulyAtLeast, Pow10;
    if cr >= cfg.crWarnBandE4 {
      RatioIsSafe(v.collateral, cfg.nativeDecimals, marketE8, v.debt, cfg.crWarnBandE4);
    }
    if cr >= cfg.mcrE4 {
      RatioIsSafe(v.collateral, cfg.nativeDecimals, marketE8, v.debt, cfg.mcrE4);
    }
    if cr < cfg.crWarnBandE4 <= U64_MAX {
      RatioIsTight(v.collateral, cfg.nativeDecimals, marketE8, v.debt, cfg.crWarnBandE4);
    }
    if cr < cfg.mcrE4 <= U64_MAX {
      RatioIsTight(v.collateral, cfg.nativeDecimals, marketE8, v.debt, cfg.mcrE4);
    }
  }

  /** A vault without debt raises no alarm. */
  lemma DebtFreeIsQuiet(v: Vault, marketE8: nat, cfg: Config)
    requires v.debt == 0
    ensures AlertFor(v, marketE8, cfg) == None && CollateralRatioE4(v.collateral, cfg.nativeDecimals, marketE8, v.debt) == 0xFFFF_FFFF_FFFF_FFFF
  {
  }

  /** The vaults before position `n` that raise an alarm. */
  function Alarmed(vaults: seq<Vault>, n: nat, marketE8: nat, cfg: Config): set<nat>
    requires n <= |vaults|
  {
    set i: nat | i < n && AlertFor(vaults[i], marketE8, cfg).Some?
  }

  /** The vaults before a position are the same in every list that starts with them. */
  lemma AlarmedFrame(vaults: seq<Vault>, n: nat, i: nat, marketE8: nat, cfg: Config)
    requires i <= n <= |vaults|
    ensures Alarmed(vaults[..n], i, marketE8, cfg) == Alarmed(vaults, i, marketE8, cfg)
  {
  }

  lemma AlarmedStep(vaults: seq<Vault>, n: nat, marketE8: nat, cfg: Config)
    requires n < |vaults|
    ensures |Alarmed(vaults, n + 1, marketE8, cfg)|
         == |Alarmed(vaults, n, marketE8, cfg)| + if AlertFor(vaults[n], marketE8, cfg).Some? then 1 else 0
  {
    hide AlertFor;
    var before := Alarmed(vaults, n, marketE8, cfg);
    assert Alarmed(vaults, n + 1, marketE8, cfg)
        == if AlertFor(vaults[n], marketE8, cfg).Some? then before + {n} else before;
  }

  /** The list holds each vault's alarm once, and only those, in the order of the vaults: there are as
      many as vaults that raise one, and a vault's alarm comes after exactly those of the vaults
      before it. */
  lemma {:induction false} CrAlertsExact(vaults: seq<Vault>, marketE8: nat, cfg: Config)
    ensures |CrAlerts(vaults, marketE8, cfg)| == |Alarmed(vaults, |vaults|, marketE8, cfg)|
    ensures forall i: nat :: i < |vaults| && AlertFor(vaults[i], marketE8, cfg).Some? ==>
              var place := |Alarmed(vaults, i, marketE8, cfg)|;
              && place < |CrAlerts(vaults, marketE8, cfg)|
              && CrAlerts(vaults, marketE8, cfg)[place] == AlertFor(vaults[i], marketE8, cfg).value
  {
    hide AlertFor, Alarmed;
    if vaults == [] {
      AlarmedNone(marketE8, cfg);
    } else {
      var n := |vaults| - 1;
      var init := vaults[..n];
      CrAlertsExact(init, marketE8, cfg);
      AlarmedFrame(vaults, n, n, marketE8, cfg);
      AlarmedStep(vaults, n, marketE8, cfg);
      forall i: nat | i < |vaults| && AlertFor(vaults[i], marketE8, cfg).Some?
        ensures var place := |Alarmed(vaults, i, marketE8, cfg)|;
                && place < |CrAlerts(vaults, marketE8, cfg)|
                && CrAlerts(vaults, marketE8, cfg)[place] == AlertFor(vaults[i], marketE8, cfg).value
      {
        if i < n {
          assert init[i] == vaults[i];
          AlarmedFrame(vaults, n, i, marketE8, cfg);
        }
      }
    }
  }

  lemma AlarmedNone(marketE8: nat, cfg: Config)
    ensures |Alarmed([], 0, marketE8, cfg)| == 0
  {
    assert Alarmed([], 0, marketE8, cfg) == {};
  }

  // ---- Refresh ----

  datatype Refresh = NoPriceSet | PriceIsZero | Drifted | WentStale

  function Distance(a: nat, b: nat): nat {
    if a > b then a - b else b - a
  }

  function RefreshDecision(marketE8: nat, onChain: Option<OnChainPrice>, nowNs: nat, cfg: Config): Option<Refresh> {
    if onChain.None? then Some(NoPriceSet)
    else if onChain.value.priceE8 == 0 then Some(PriceIsZero)
    else if Distance(marketE8, onChain.value.priceE8) * 10_000 / onChain.value.priceE8 > cfg.driftBps then Some(Drifted)
    else if SatSub(nowNs, onChain.value.setAtNs) / NS_PER_SEC > cfg.maxAgeSec then Some(WentStale)
    else None
  }

  /** Close enough and young enough, without any rounding. */
  predicate UpToDate(marketE8: nat, onChain: Option<OnChainPrice>, nowNs: nat, cfg: Config) {
    && onChain.Some? && onChain.value.priceE8 > 0
    && Distance(marketE8, onChain.value.priceE8) * 10_000 < (cfg.driftBps + 1) * onChain.value.priceE8
    && nowNs < onChain.value.setAtNs + (cfg.maxAgeSec + 1) * NS_PER_SEC
  }

  /** The price is left alone exactly when it is up to date in this exact sense; staleness is given as the
      reason only for a price that has not drifted. */
  lemma NoRefreshIffUpToDate(marketE8: nat, onChain: Option<OnChainPrice>, nowNs: nat, cfg: Config)
    ensures RefreshDecision(marketE8, onChain, nowNs, cfg).None? <==> UpToDate(marketE8, onChain, nowNs, cfg)
    ensures RefreshDecision(marketE8, onChain, nowNs, cfg) == Some(NoPriceSet) <==> onChain.None?
    ensures RefreshDecision(marketE8, onChain, nowNs, cfg) == Some(PriceIsZero) <==> onChain.Some? && onChain.value.priceE8 == 0
    ensures RefreshDecision(marketE8, onChain, nowNs, cfg) == Some(Drifted) <==>
              onChain.Some? && onChain.value.priceE8 > 0
              && Distance(marketE8, onChain.value.priceE8) * 10_000 >= (cfg.driftBps + 1) * onChain.value.priceE8
  {
    if onChain.Some? && onChain.value.priceE8 > 0 {
      DivLargest(Distance(marketE8, onChain.value.priceE8) * 10_000, onChain.value.priceE8, cfg.driftBps + 1);
      DivLargest(SatSub(nowNs, onChain.value.setAtNs), NS_PER_SEC, cfg.maxAgeSec + 1);
    }
  }
}
