/** One cycle of the price monitor against the canister that holds the price: read, decide, write at
    most once, verify, alert. */
module MonitorTick {
  import opened Prelude
  import opened Policy
  import A = Aggregate

  const MAX_CHAIN_VAULTS_RETURNED: nat := 500

  /** `Math.round(usd * 1e8)`: half rounds up. */
  function UsdToE8(usd: real): int {
    (usd * 100_000_000.0 + 0.5).Floor
  }

  /** Rounded to the nearest unit of 1e-8, a half going up. */
  lemma UsdToE8Rounds(usd: real)
    ensures usd * 100_000_000.0 - 0.5 < UsdToE8(usd) as real <= usd * 100_000_000.0 + 0.5
  {
  }

  lemma UsdToE8Monotone(a: real, b: real)
    requires a <= b
    ensures UsdToE8(a) <= UsdToE8(b)
  {
    assert a * 100_000_000.0 + 0.5 <= b * 100_000_000.0 + 0.5;
  }

  /** What comes back from `setPrice`; `landed` says whether the write took effect. */
  datatype SetReply = SetOk(landed: bool) | SetErr(landed: bool) | SetThrew(landed: bool)

  /** The canister is a register that only this monitor writes; every read returns it or throws. */
  class Canister {
    var price: Option<OnChainPrice>
    var writes: seq<nat>

    constructor (price: Option<OnChainPrice>)
      ensures this.price == price && writes == []
    {
      this.price, writes := price, [];
    }

    method SetPrice(priceE8: nat, reply: SetReply, atNs: nat)
      modifies this
      ensures writes == old(writes) + [priceE8]
      ensures price == if reply.landed then Some(OnChainPrice(priceE8, atNs)) else old(price)
    {
      writes := writes + [priceE8];
      if reply.landed {
        price := Some(OnChainPrice(priceE8, atNs));
      }
    }
  }

  /** Everything the network decides in one cycle. */
  datatype Net = Net(
    quotes: seq<A.Quote>, readOk: bool, vaults: Option<seq<Vault>>,
    setReply: SetReply, setAtNs: nat, verifyOk: bool)

  datatype Tick = Threw | Result(ok: bool, refreshed: bool, marketE8: Option<int>, alerts: seq<Alert>)

  /** The market price a cycle works with, if it gets that far. */
  function MarketOf(quotes: seq<A.Quote>, cfg: A.Config): Option<int> {
    var agg := A.AggregateOf(quotes, cfg);
    if agg.Accepted? && agg.medianUsd.Fin? then Some(UsdToE8(agg.medianUsd.r)) else None
  }

  /** The vaults of a full page may not be all there are. */
  function CoverageAlerts(vaults: seq<Vault>): seq<Alert> {
    if |vaults| >= 500 then [Alert(Warn, CoverageTruncated)] else []
  }

  /** The cycle got as far as a decision: a positive trusted price, and both reads done. */
  predicate Decided(net: Net, aggCfg: A.Config) {
    MarketOf(net.quotes, aggCfg).Some? && MarketOf(net.quotes, aggCfg).value > 0 && net.readOk && net.vaults.Some?
  }

  /** What a write came to: `price` is what the canister holds afterwards. */
  datatype Written = Unanswered | Rejected | Unverified | Mismatched | Verified

  function WrittenAs(net: Net, price: Option<OnChainPrice>, market: nat): Written {
    match net.setReply
    case SetThrew(_) => Unanswered
    case SetErr(_) => Rejected
    case SetOk(_) =>
      if !net.verifyOk then Unverified
      else if price.Some? && price.value.priceE8 == market then Verified
      else Mismatched
  }

  /** The alert about the cycle itself. */
  function CycleAlerts(w: Written): seq<Alert> {
    match w
    case Rejected => [Alert(Critical, RefreshFailed)]
    case Unverified => [Alert(Warn, VerifyReadFailed)]
    case Mismatched => [Alert(Critical, VerifyMismatch)]
    case _ => []
  }

  method RunTick(c: Canister, net: Net, nowNs: nat, aggCfg: A.Config, cfg: Config) returns (t: Tick)
    modifies c
    // The market price is written exactly when the cycle is decided and the policy asks for it; nothing else ever is.
    ensures Decided(net, aggCfg) ==>
              var market := MarketOf(net.quotes, aggCfg).value;
              c.writes == old(c.writes) + (if RefreshDecision(market, old(c.price), nowNs, cfg).Some? then [market] else [])
    ensures !Decided(net, aggCfg) ==> c.writes == old(c.writes)
    ensures c.writes == old(c.writes) ==> c.price == old(c.price)
    // Before a decision: a refused aggregate and a price that rounds to nothing are alerted, all else throws.
    ensures A.AggregateOf(net.quotes, aggCfg).Refused? ==> t == Result(false, false, None, [Alert(Critical, InsufficientSources)])
    ensures MarketOf(net.quotes, aggCfg).Some? && MarketOf(net.quotes, aggCfg).value <= 0 ==>
              t == Result(false, false, MarketOf(net.quotes, aggCfg), [Alert(Critical, PriceUnderflow)])
    ensures A.AggregateOf(net.quotes, aggCfg).Accepted? && MarketOf(net.quotes, aggCfg).None? ==> t.Threw?
    ensures MarketOf(net.quotes, aggCfg).Some? && MarketOf(net.quotes, aggCfg).value > 0 && !Decided(net, aggCfg) ==> t.Threw?
    // After it: what the write came to decides success and alert, and every vault alarm follows, once, in order.
    ensures Decided(net, aggCfg) ==>
              var market := MarketOf(net.quotes, aggCfg).value;
              var asked := RefreshDecision(market, old(c.price), nowNs, cfg).Some?;
              var w := WrittenAs(net, c.price, market);
              && (t.Threw? <==> asked && w == Unanswered)
              && (t.Result? ==>
                    && t.marketE8 == Some(market)
                    && (t.refreshed <==> asked && (w == Unverified || w == Verified))
                    && (t.ok <==> asked ==> t.refreshed)
                    && t.alerts == CoverageAlerts(net.vaults.value) + (if asked then CycleAlerts(w) else [])
                                   + CrAlerts(net.vaults.value, market, cfg))
    // Success means the canister holds the market price, or an older one that is up to date.
    ensures t.Result? && t.ok && (net.verifyOk || (net.setReply.SetOk? ==> net.setReply.landed)) ==>
              c.price.Some? && t.marketE8.Some? && t.marketE8.value > 0
              && (c.price.value.priceE8 == t.marketE8.value
                  || (c.price == old(c.price) && c.writes == old(c.writes)
                      && UpToDate(t.marketE8.value, c.price, nowNs, cfg)))
  {
    var agg := A.RunAggregate(net.quotes, aggCfg);
    if agg.Refused? {
      return Result(false, false, None, [Alert(Critical, InsufficientSources)]);
    }
    if agg.medianUsd.NonFinite? {
      return Threw;
    }
    var market := UsdToE8(agg.medianUsd.r);
    if market <= 0 {
      return Result(false, false, Some(market), [Alert(Critical, PriceUnderflow)]);
    }
    if !net.readOk || net.vaults.None? {
      return Threw;
    }
    var vaults := net.vaults.value;
    var alerts := if |vaults| >= MAX_CHAIN_VAULTS_RETURNED then [Alert(Warn, CoverageTruncated)] else [];
    var decision := RefreshDecision(market, c.price, nowNs, cfg);
    var crAlerts := CollectCrAlerts(vaults, market, cfg);
    if decision.None? {
      NoRefreshIffUpToDate(market, c.price, nowNs, cfg);
      assert alerts + [] + crAlerts == alerts + crAlerts;
      return Result(true, false, Some(market), alerts + crAlerts);
    }
    t := Refresh(c, net, market, alerts, crAlerts);
  }

  /** Write, then read back. A failed read-back is not a failed write. */
  method Refresh(c: Canister, net: Net, market: nat, alerts: seq<Alert>, crAlerts: seq<Alert>) returns (t: Tick)
    modifies c
    ensures c.writes == old(c.writes) + [market]
    ensures t.Result? && t.ok && (net.verifyOk || (net.setReply.SetOk? ==> net.setReply.landed)) ==>
              c.price.Some? && c.price.value.priceE8 == market
    ensures var w := WrittenAs(net, c.price, market);
            t == if w == Unanswered then Threw
                 else var good := w == Unverified || w == Verified;
                      Result(good, good, Some(market), alerts + CycleAlerts(w) + crAlerts)
  {
    c.SetPrice(market, net.setReply, net.setAtNs);
    if net.setReply.SetThrew? {
      return Threw;
    }
    if net.setReply.SetErr? {
      return Result(false, false, Some(market), alerts + [Alert(Critical, RefreshFailed)] + crAlerts);
    }
    if !net.verifyOk {
      return Result(true, true, Some(market), alerts + [Alert(Warn, VerifyReadFailed)] + crAlerts);
    }
    if c.price.None? || c.price.value.priceE8 != market {
      return Result(false, false, Some(market), alerts + [Alert(Critical, VerifyMismatch)] + crAlerts);
    }
    return Result(true, true, Some(market), alerts + [] + crAlerts);
  }

  /** End to end: a majority of quotes in a band no wider than the tolerance confines any price the
      monitor may write to that band, rounded to the fixed point. */
  lemma WrittenPriceInBand(quotes: seq<A.Quote>, cfg: A.Config, lo: real, hi: real, market: int)
    requires 0.0 < lo <= hi && hi - lo <= cfg.outlierPct / 100.0 * lo
    requires 2 * A.CountIn(A.Prices(A.ValidQuotes(quotes)), lo, hi) > |A.ValidQuotes(quotes)|
    requires MarketOf(quotes, cfg) == Some(market)
    ensures UsdToE8(lo) <= market <= UsdToE8(hi)
  {
    A.MajorityIsSafe(quotes, cfg, lo, hi);
    hide A.AggregateOf;
    var m := A.AggregateOf(quotes, cfg).medianUsd.r;
    UsdToE8Monotone(lo, m);
    UsdToE8Monotone(m, hi);
  }
}
