/**
 * The configuration defaults of `src/config/settings.py` that the core reads.
 * Durations are in seconds and amounts in satoshis.
 */
module Settings {

  /** 1 BTC in satoshis. */
  const SatoshisPerBtc: int := 100_000_000

  /** `dormancy_threshold_days`. */
  const DormancyThresholdDays: int := 365

  /** `int(min_balance_threshold_btc * 100_000_000)` with the default of 10 BTC. */
  const MinBalanceSatoshis: int := 10 * SatoshisPerBtc

  /** `alert_cooldown_minutes`, in seconds. */
  const AlertCooldownSeconds: int := 30 * 60

  /** `min_dormant_wallets_for_alert`. */
  const MinDormantWalletsForAlert: nat := 5

  /** `emergency_time_window_minutes`, in seconds. */
  const EmergencyWindowSeconds: int := 30 * 60

  /** `batch_size`. */
  const BatchSize: nat := 1

  /** `blockcypher_rate_limit` and `blockchair_rate_limit`, in requests per second. */
  const BlockcypherRateLimit: real := 3.0
  const BlockchairRateLimit: real := 5.0
}
