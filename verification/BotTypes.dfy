/** The liquidation bot's records, configuration and heap state. */
module BotTypes {
  import opened Prelude

  type Principal = nat

  datatype Status = Completed | SwapFailed | TransferFailed | ConfirmFailed | ClaimFailed | AdminResolved

  /** Which case produced a record's error message. */
  datatype Note =
    | ClaimRetrying(attempt: nat)
    | ClaimGaveUp
    | SwapError
    | ReturnError
    | CancelError(attempts: nat)
    | TransferError(shortDelivery: bool)
    | ConfirmError
    | LegacyError

  datatype Record = Record(
    id: nat, vaultId: nat, timestamp: nat, status: Status,
    collateralClaimed: nat, debtToCover: nat, icpSwapped: nat,
    ckusdcReceived: nat, ckusdcTransferred: nat, icpToTreasury: nat,
    oraclePrice: nat, note: Option<Note>, confirmRetries: nat)

  /** A stuck record: the backend's claim is still open. */
  predicate Stuck(r: Record) {
    r.status == TransferFailed || r.status == ConfirmFailed
  }

  datatype Config = Config(
    backend: Principal, treasury: Principal, admin: Principal, maxSlippageBps: nat,
    poolSet: bool, zeroForOne: Option<bool>,
    icpFee: Option<nat>, ckusdcFee: Option<nat>)

  const FALLBACK_LEDGER_FEE: nat := 10_000

  function FeeOr(fee: Option<nat>): nat {
    if fee.Some? then fee.value else FALLBACK_LEDGER_FEE
  }

  datatype Stats = Stats(debtCovered: nat, collateralReceived: nat, toTreasury: nat, eventsCount: nat)

  datatype Vault = Vault(vaultId: nat, debt: nat, collateral: nat, price: nat)

  /** An entry of the pre-migration event list. */
  datatype LegacyEvent = LegacyEvent(
    timestamp: nat, vaultId: nat, debtCovered: nat, collateralReceived: nat, toTreasury: nat,
    effectivePrice: nat, success: bool, hasError: bool)

  /** The serialised heap state. */
  datatype BotState = BotState(
    config: Option<Config>, stats: Stats, legacyEvents: seq<LegacyEvent>, pending: seq<Vault>,
    migrated: bool, retryCounts: map<nat, nat>)

  const DEFAULT_STATE := BotState(None, Stats(0, 0, 0, 0), [], [], false, map[])
}
