# SatoshisEndgame surveillance core in Dafny

SatoshisEndgame watches Bitcoin addresses whose public keys are exposed on
chain (pay-to-public-key outputs and reused pay-to-public-key-hash
addresses). Such coins would be the first to move if a quantum computer
could recover private keys. The system scores these addresses for risk,
polls balances through rate-limited blockchain APIs, and scans new blocks
for spends from watched addresses. It turns balance changes into wallet
activities and runs four emergency-pattern rules over them: dormant-wallet
surge, coordinated movement, high-value concentration and transaction burst.
Alerts go to a Discord webhook behind a per-key cooldown and a
sliding-window rate limiter.

This project models that core and proves properties of it. One Dafny
module stands for each source file:

- `MonitoringConfig`: tier selection by risk score and daily request budget.
- `Blockchain`: token-bucket rate limiter, provider order and fallback, batch
  fetching.
- `AddressManager`: hex and P2PK script handling, vulnerability
  classification, risk score, ordering and filtering, the tracker set.
- `QuantumDetector`: the four pattern rules, the time-window grouping,
  severity and market impact.
- `NotificationService`: the alert key, the cooldown gate, the webhook rate
  limiter, and the emergency and anomaly alerts.
- `MonitoringService`: wallet updates from fresh balances, the monitoring
  cycle, start and stop, and the quick check of high-risk wallets.
- `BlockMonitor`: address extraction, movement analysis, and block-height
  progress.
- `InitData`: the vulnerable-address file parser and sample-wallet seeding.

There are also shared modules:

- `Settings`: the configuration defaults.
- `Seqs`: filtering, grouping, chunking and flattening.
- `Statistics`: mean, variance, and the two dispersion tests with their
  denominators cleared.
- `Text`: Python's `strip` and `split`, and integer rendering.
- `Wrappers`: `Option` and `Result`.

Modelling conventions:

- Satoshi amounts and timestamps are unbounded integers. Timestamps are
  whole seconds since the epoch.
- Python floats are exact reals.
- `np.std` is a parameter `sqrt`, constrained to return the non-negative
  square root.
- Network lookups, block fetches, the clock and the database queries that
  feed the core are parameters.
- Stateful services are classes whose fields are the dictionaries, sets and
  counters the source mutates.

Where the code and its documentation disagree, the model follows the code:

- `_group_by_time_window` (`src/services/quantum_detector.py:245-249`)
  evaluates `minute % window_seconds / 60`. Because of operator precedence,
  this subtracts `minute / 60` minutes, that is `minute` seconds. The
  grouping key is therefore distinct for every calendar minute, not for
  every 30- or 10-minute window. `QuantumDetector.SameBucketIffSameMinute`
  proves the model keys by the minute, and the surge and coordination rules
  are modelled with that grouping.
- The anomaly flag's drain test at `src/services/monitoring_service.py:278`
  and the rate limiter at `src/core/blockchain.py:51-63` are logged under
  "## Findings". The operations keep the code's behaviour: the transaction
  record takes the flag as written (`IsAnomalousAsWritten`), and the rate
  limiter takes the step as written. The corrected definitions are proved
  beside them.

## Model

| member | source | states |
|---|---|---|
| MonitoringConfig.FirstTierIff | src/config/monitoring_config.py:57-63 | the tier found is the first tier whose range contains the score; none is found exactly when no tier contains it |
| MonitoringConfig.GetTierForScore | src/config/monitoring_config.py:57-63 | the loop returns the first tier whose [min, max] range contains the score, or none |
| MonitoringConfig.DefaultTierForScore | src/config/monitoring_config.py:34-63 | with the default strategy: scores of 95 or more are critical, 80-94 high, 60-79 medium; below 60 and the fractional gaps between tiers get no tier |
| MonitoringConfig.Truncate | src/config/monitoring_config.py:71 | `int()` truncates toward zero, for positive and negative arguments |
| MonitoringConfig.CalculateDailyRequests | src/config/monitoring_config.py:65-71 | sums `max_addresses * 24*60 / interval` over the tiers and truncates; a zero interval is the division error |
| MonitoringConfig.DailyRequests | src/config/monitoring_config.py:65-71 | no count exactly when some tier's interval is zero, the division error |
| MonitoringConfig.DailyTotalNonNegative | src/config/monitoring_config.py:65-71 | the daily total is never negative when limits and intervals are non-negative |
| MonitoringConfig.DefaultDailyRequests | src/config/monitoring_config.py:28-71 | the default strategy needs 3000 requests a day |
| MonitoringConfig.IsWithinLimits | src/config/monitoring_config.py:73-75 | answers whether the daily requests fit the daily API limit; there is no answer when an interval is zero |
| MonitoringConfig.DefaultNotWithinLimits | src/config/monitoring_config.py:29-75 | the default strategy does not fit its own 1000-a-day limit |
| Blockchain.Refill | src/core/blockchain.py:55 | refilled tokens are `min(rate, tokens + elapsed*rate)` |
| Blockchain.AcquireStep | src/core/blockchain.py:51-63 | tokens stay in [0, rate], the sleep is non-negative, and `last_update` becomes `now` |
| Blockchain.AcquireSleeps | src/core/blockchain.py:51-63 | the caller sleeps exactly when fewer than one token is available, and then for as long as the missing fraction takes to refill; otherwise one token is spent |
| Blockchain.AcquireSleepBounded | src/core/blockchain.py:58-60 | no sleep is longer than `1/rate` |
| Blockchain.AcquireAtRateOne | src/core/blockchain.py:51-63 | the step written out at one request per second |
| Blockchain.RateLimiter.constructor | src/core/blockchain.py:45-49 | the bucket starts full at `rate` tokens |
| Blockchain.RateLimiter.Acquire | src/core/blockchain.py:51-63 | updates tokens and `last_update` and returns the sleep exactly as the code does (see Findings) |
| Blockchain.CorrectedAcquireStep | src/core/blockchain.py:51-63 | the corrected step stamps `last_update` at the wake-up time `now + sleep` |
| Blockchain.CorrectedStepPaid | src/core/blockchain.py:51-63 | each corrected grant is paid for by one token of elapsed refill or stock |
| Blockchain.CorrectedPaysPerGrant | src/core/blockchain.py:51-63 | every corrected step pays one token per grant |
| Blockchain.RunPaid | src/core/blockchain.py:51-63 | across any run of a paying step, the tokens stay in [0, rate] and the grants are paid for by the initial stock plus the refill |
| Blockchain.RunGrantBound | src/core/blockchain.py:51-63 | a paying step grants at most `tokens + rate * elapsed` requests |
| Blockchain.CorrectedGrantBound | src/core/blockchain.py:51-63 | the corrected limiter never grants more than `tokens + rate * elapsed` requests |
| Blockchain.CorrectedKeepsRate | src/core/blockchain.py:51-63 | the input that breaks the code makes the corrected limiter wait its full second |
| Blockchain.AsWrittenExceedsRate | src/core/blockchain.py:51-63 | at one request a second, the acquires as written at 0, 0, 1, 1 and 2 s from a full one-token bucket: take, sleep, take, sleep, take |
| Blockchain.Pairs | src/core/blockchain.py:51-63 | `n` pairs of back-to-back call times, `2 n` calls in all |
| Blockchain.AsWrittenPairsRun | src/core/blockchain.py:51-63 | as written, from an empty bucket at `x`, `n` pairs of back-to-back calls are serialised and end at `x + n`: two grants per second at rate 1 |
| Blockchain.AsWrittenRunOverBound | src/core/blockchain.py:51-63 | as written, a full rate-1 bucket grants `2n + 1` back-to-back acquires by time `n`, more than the `1 + n` of `RunGrantBound` |
| Blockchain.AsWrittenNotPaid | src/core/blockchain.py:51-63 | the step as written does not pay for each grant |
| Blockchain.SuccessesShape | src/core/blockchain.py:234-245 | each result comes from a successful per-address lookup; when every lookup succeeds, all are returned in order |
| Blockchain.BlockCypherBatch | src/core/blockchain.py:234-245 | the loop keeps exactly the successful per-address lookups |
| Blockchain.ChunkedFetchIff | src/core/blockchain.py:137-161 | the chunked batch succeeds exactly when every chunk succeeds; otherwise it fails with the first failing chunk's error |
| Blockchain.ChunkedFetchStep | src/core/blockchain.py:137-161 | one step of the batch takes the next 100 addresses and prepends their results |
| Blockchain.BlockchairBatch | src/core/blockchain.py:137-161 | the loop over 100-address chunks computes the chunked fetch |
| Blockchain.ProviderBatch | src/core/blockchain.py:137-245 | dispatches to the adapter's batch implementation |
| Blockchain.ProviderOrder | src/core/blockchain.py:285-294 | two distinct providers; BlockCypher comes first exactly when only it has an API key |
| Blockchain.FirstSuccessIff | src/core/blockchain.py:317-346 | the answer is that of the first provider that succeeds; none when all fail |
| Blockchain.BatchNeverExhausted | src/core/blockchain.py:348-382 | a batch through the fallback chain always yields a list: BlockCypher's successes or Blockchair's chunked result |
| Blockchain.BlockchainManager.constructor | src/core/blockchain.py:267-272 | no providers and zero counters |
| Blockchain.BlockchainManager.Initialize | src/core/blockchain.py:274-294 | the provider list becomes the key-dependent order; the counters are kept |
| Blockchain.BlockchainManager.GetAddressInfo | src/core/blockchain.py:317-346 | returns the first provider's success and counts it, or counts one failure |
| Blockchain.BlockchainManager.GetAddressesBatch | src/core/blockchain.py:348-382 | returns the fallback chain's result and counts every address as a success, or all as failures when no provider answers |
| Blockchain.BlockchainManager.GetRecentTransactions | src/core/blockchain.py:384-398 | the first provider's transactions, or the empty list |
| Blockchain.BlockchainManager.GetRequestStats | src/core/blockchain.py:400-412 | total = successes + failures; the success rate is the percentage (0 when there were no requests); the primary and fallback provider names |
| Blockchain.BlockchainManager.GetLatestBlockHeight | src/core/blockchain.py:414-426 | the placeholder height 820000 once a provider exists, none otherwise |
| Blockchain.BlockchainManager.GetBlock | src/core/blockchain.py:428-443 | an empty placeholder block at the requested height once a provider exists |
| Blockchain.ProviderNames | src/core/blockchain.py:410-411 | names each provider in order |
| Blockchain.InitializedBatchNeverFails | src/core/blockchain.py:348-382 | after initialisation, a batch never exhausts the fallback chain |
| AddressManager.DecodeHex | src/core/address_manager.py:39-40 | decoding yields at most half as many bytes as hex digits |
| AddressManager.EncodeHex | src/core/address_manager.py:58-66 | two hex digits per byte |
| AddressManager.HexRoundTrip | src/core/address_manager.py:58-66 | decoding an encoded byte string gives it back |
| AddressManager.P2pkScript | src/core/address_manager.py:42-48 | a P2PK script is the key plus its push byte and OP_CHECKSIG |
| AddressManager.ExtractKeyBytes | src/core/address_manager.py:60-68 | an extracted key is 65 bytes (uncompressed) or 33 bytes (compressed) |
| AddressManager.ExtractPublicKeyFromP2pk | src/core/address_manager.py:55-70 | an extracted key is 130 or 66 hex digits |
| AddressManager.P2pkRoundTrip | src/core/address_manager.py:34-70 | every script recognised as P2PK yields a key, and the script is exactly that key wrapped as P2PK |
| AddressManager.BuiltScriptIsP2pk | src/core/address_manager.py:34-70 | a script built from a key is recognised as P2PK and gives the key back |
| AddressManager.IsAddressVulnerable | src/core/address_manager.py:72-90 | vulnerable exactly when a type is reported; "P2PK" exactly for P2PK scripts; "REUSED_P2PKH" exactly for a non-P2PK script on a `1…` address that has spent |
| AddressManager.IsP2pkhAddress | src/core/address_manager.py:88-90 | a `1…` address of 26 to 35 characters (used by `IsAddressVulnerable`, whose contract states the reused-P2PKH case) |
| AddressManager.BalancePoints | src/core/address_manager.py:99-109 | 0 points for an empty balance; 40 from 1000 BTC, 30 from 100 BTC, 20 from 10 BTC, 10 below, each threshold inclusive |
| AddressManager.DormancyPoints | src/core/address_manager.py:111-121 | 30 above 3650 days, 25 above 1825, 20 above 730, 15 above 365, 5 otherwise |
| AddressManager.TypePoints | src/core/address_manager.py:123-127 | 30 exactly for P2PK, 20 exactly for reused P2PKH, 0 for any other type |
| AddressManager.CalculateRiskScore | src/core/address_manager.py:92-129 | the score is the sum of the three factors, capped at 100, and lies in [5, 100] |
| AddressManager.RiskScoreMonotone | src/core/address_manager.py:92-129 | more balance and longer dormancy never lower the score |
| AddressManager.InsertByRiskPermutes | src/core/address_manager.py:147 | insertion adds exactly the new element |
| AddressManager.InsertByRiskBelow | src/core/address_manager.py:147 | insertion keeps every score below a common bound |
| AddressManager.InsertByRiskSorted | src/core/address_manager.py:147 | insertion into a descending list keeps it descending |
| AddressManager.SortByRiskSortsAndPermutes | src/core/address_manager.py:147 | the sort is descending by risk score and a permutation of its input |
| AddressManager.InsertByRiskStable | src/core/address_manager.py:147 | insertion keeps the input order among equal scores |
| AddressManager.SortByRiskStable | src/core/address_manager.py:147 | the sort is stable, as Python's `sort` is |
| AddressManager.EligibleAddresses | src/core/address_manager.py:133-144 | keeps exactly the addresses with at least 10 BTC and 365 days of dormancy, in order |
| AddressManager.FilterMonitoredAddresses | src/core/address_manager.py:131-149 | the eligible addresses, all of them, sorted by descending risk, stable and a permutation |
| AddressManager.DetectSatoshiEraAddresses | src/core/address_manager.py:151-171 | exactly the P2PK addresses with no recorded activity or last activity before 2012 and a balance of exactly 50 or 25 BTC, in list order |
| AddressManager.AddressTracker.constructor | src/core/address_manager.py:177-180 | the tracked set starts empty |
| AddressManager.AddressTracker.AddVulnerableAddress | src/core/address_manager.py:182-184 | adds the address to the tracked set |
| AddressManager.AddressTracker.RemoveAddress | src/core/address_manager.py:192-200 | removes the address; removing an untracked one changes nothing |
| AddressManager.AddressTracker.IsTracked | src/core/address_manager.py:206-208 | membership in the tracked set (stated through `AddVulnerableAddress` and `RemoveAddress`) |
| AddressManager.AddressTracker.GetTrackedAddresses | src/core/address_manager.py:202-204 | lists each tracked address exactly once |
| AddressManager.AddressTracker.GetStatistics | src/core/address_manager.py:210-216 | the tracked count and up to ten distinct tracked addresses |
| QuantumDetector.Min | src/services/quantum_detector.py:106 | the smaller of two reals |
| QuantumDetector.WindowStartClosedForm | src/services/quantum_detector.py:240-250 | the bucket key of `_group_by_time_window` as written, in closed form |
| QuantumDetector.SameBucketIffSameMinute | src/services/quantum_detector.py:240-250 | two activities share a bucket exactly when they fall in the same calendar minute, whatever the window |
| QuantumDetector.WindowStartMonotone | src/services/quantum_detector.py:240-250 | a later minute has a later bucket key |
| QuantumDetector.GroupByTimeWindow | src/services/quantum_detector.py:237-252 | groups the activities by bucket, keeping first-seen key order and each group's order |
| QuantumDetector.WalletCountPoints | src/services/quantum_detector.py:259-267 | 40 points exactly from 20 wallets, 30 from 10 to 19, 20 from 5 to 9, else 10 |
| QuantumDetector.ValuePoints | src/services/quantum_detector.py:269-277 | 40 points exactly from 10000 BTC, 30 from 1000 up to 10000, 20 from 100 up to 1000, else 10 |
| QuantumDetector.DormancyYearsPoints | src/services/quantum_detector.py:279-287 | 20 points exactly from 10 years, 15 from 5 up to 10, 10 from 2 up to 5, else 5 |
| QuantumDetector.SeverityScore | src/services/quantum_detector.py:254-288 | the score is the sum of the three factors' points and lies in [25, 100] |
| QuantumDetector.SeverityOfScore | src/services/quantum_detector.py:289-297 | CRITICAL exactly from 80, HIGH exactly from 60 to 79, MEDIUM exactly from 40 to 59, LOW exactly below 40 |
| QuantumDetector.SeverityMonotone | src/services/quantum_detector.py:254-297 | more wallets, more value and longer dormancy never lower the score or the severity |
| QuantumDetector.SeverityExample | src/services/quantum_detector.py:254-297 | 5 wallets, 600 BTC and 10 years score 60, which is HIGH |
| QuantumDetector.SeverityExtremes | src/services/quantum_detector.py:254-297 | the minimum inputs are LOW; 20 wallets, 10000 BTC and 10 years are CRITICAL |
| QuantumDetector.FirstSurgeKey | src/services/quantum_detector.py:88-91 | a listed key whose bucket holds at least five dormant activities, or none exactly when no bucket qualifies |
| QuantumDetector.FirstSurgeKeyIsFirst | src/services/quantum_detector.py:88-91 | the key found is the first qualifying one: every key listed before it has a bucket of fewer than five |
| QuantumDetector.SurgeGroupSameMinute | src/services/quantum_detector.py:240-250 | a surge bucket holds activities of a single minute |
| QuantumDetector.SurgeGroupMembers | src/services/quantum_detector.py:79-91 | a surge bucket holds every dormant activity of its minute and nothing else |
| QuantumDetector.TotalBtc | src/services/quantum_detector.py:94-99 | the bucket's total balance converted to BTC: times 100000000 it gives the total in satoshis |
| QuantumDetector.MeanDormancyYears | src/services/quantum_detector.py:93-100 | the bucket's mean dormancy in years: times 365 and the bucket's size it gives the total dormancy in days |
| QuantumDetector.SurgePatternFields | src/services/quantum_detector.py:93-116 | a surge pattern lists the bucket's addresses, totals its balances, and has confidence `min(0.95, n/10)`, at least 0.5 from five wallets |
| QuantumDetector.SurgePatternSeverity | src/services/quantum_detector.py:97-104 | a surge pattern's severity is that of the bucket's size, total BTC and mean dormancy in years, and it is CRITICAL exactly when their points reach 80 |
| QuantumDetector.DormantSurge | src/services/quantum_detector.py:77-118 | what the rule returns is a dormant-wallet-surge pattern |
| QuantumDetector.DormantSurgeOfFirstKey | src/services/quantum_detector.py:88-116 | a reported surge is the pattern of the bucket of the key the scan finds, which has at least five members |
| QuantumDetector.DetectDormantWalletSurge | src/services/quantum_detector.py:77-118 | the grouping loop returns the rule's result |
| QuantumDetector.DormantSurgeIff | src/services/quantum_detector.py:79-91 | a surge is reported exactly when some bucket of dormant activities holds at least five |
| QuantumDetector.DormantSurgeShape | src/services/quantum_detector.py:79-116 | the pattern lists the whole bucket of the first qualifying key: every dormant activity of that minute and no other, at least five, in input order; it totals their balances, has confidence `min(0.95, n/10)` and the emergency window |
| QuantumDetector.CoordinationGroupSameMinute | src/services/quantum_detector.py:240-250 | a coordination bucket holds activities of a single minute |
| QuantumDetector.FirstCoordinatedKey | src/services/quantum_detector.py:128-137 | a listed key whose bucket has five or more activities with low amount dispersion, or none exactly when no bucket does |
| QuantumDetector.FirstCoordinatedKeyIsFirst | src/services/quantum_detector.py:128-137 | the key found is the first coordinated one: no bucket of a key listed before it is coordinated |
| QuantumDetector.FirstCoordinatedStep | src/services/quantum_detector.py:128-152 | one step of the scan over buckets |
| QuantumDetector.CoordinatedMovements | src/services/quantum_detector.py:120-154 | what the rule returns is a coordinated-movement pattern |
| QuantumDetector.DetectCoordinatedMovements | src/services/quantum_detector.py:120-154 | the grouping loop returns the rule's result |
| QuantumDetector.CoordinatedShape | src/services/quantum_detector.py:126-152 | HIGH, confidence 0.8, over the whole bucket of the first coordinated key: every activity of that minute and no other, five or more, amounts with variance/mean² below 0.1; the total is their balances |
| QuantumDetector.IdenticalAmountsReported | src/services/quantum_detector.py:132-137 | five identical positive amounts in one bucket are always reported |
| QuantumDetector.LatestTime | src/services/quantum_detector.py:169-170 | the maximum transaction time |
| QuantumDetector.EarliestTime | src/services/quantum_detector.py:169-170 | the minimum transaction time |
| QuantumDetector.ValueConcentration | src/services/quantum_detector.py:156-189 | what the rule returns is a high-value-concentration pattern |
| QuantumDetector.ValueConcentrationIff | src/services/quantum_detector.py:158-187 | reported exactly when three or more activities hold 100 BTC or more within the emergency window; CRITICAL, confidence 0.9, over exactly those |
| QuantumDetector.InsertInt | src/services/quantum_detector.py:207 | insertion into a sorted list stays sorted |
| QuantumDetector.SortInts | src/services/quantum_detector.py:207 | the sort is ascending and keeps the length |
| QuantumDetector.InsertIntPermutes | src/services/quantum_detector.py:207 | insertion adds exactly the new element |
| QuantumDetector.SortIntsPermutes | src/services/quantum_detector.py:207 | the sort is a permutation |
| QuantumDetector.Intervals | src/services/quantum_detector.py:208-210 | n-1 consecutive differences |
| QuantumDetector.IntervalsTelescope | src/services/quantum_detector.py:208-210 | the intervals sum to the last time minus the first |
| QuantumDetector.SortedIntervalsNonNegative | src/services/quantum_detector.py:207-210 | intervals of sorted times are non-negative |
| QuantumDetector.TimeDifferences | src/services/quantum_detector.py:206-210 | the loop computes the consecutive intervals |
| QuantumDetector.BurstIntervals | src/services/quantum_detector.py:205-210 | n-1 non-negative intervals between time-sorted activities |
| QuantumDetector.BurstReport | src/services/quantum_detector.py:220-233 | a MEDIUM transaction burst on one wallet with confidence at most 0.9 |
| QuantumDetector.BurstPattern | src/services/quantum_detector.py:205-233 | a burst needs five or more activities and names the one wallet |
| QuantumDetector.BurstIff | src/services/quantum_detector.py:212-220 | a burst is reported exactly when there are five or more activities and the z-score test holds |
| QuantumDetector.SqrtOfVariance | src/services/quantum_detector.py:213-214 | the standard deviation squares to the variance and is positive exactly when the variance is |
| QuantumDetector.EvenlySpacedNeverBurst | src/services/quantum_detector.py:217 | evenly spaced activity has zero deviation and is never a burst |
| QuantumDetector.CheckWalletBurst | src/services/quantum_detector.py:205-233 | the method computes the burst rule for one wallet |
| QuantumDetector.CheckWallet | src/services/quantum_detector.py:200-233 | the per-wallet step, including the skip of wallets with fewer than two activities |
| QuantumDetector.DetectStatisticalAnomalies | src/services/quantum_detector.py:191-235 | the loop over per-wallet groups returns the burst patterns |
| QuantumDetector.BurstsFromShape | src/services/quantum_detector.py:200-233 | one MEDIUM burst per qualifying wallet, with no wallet named twice |
| QuantumDetector.BurstsFromIff | src/services/quantum_detector.py:200-233 | a wallet is named exactly when it is among the keys and its activities pass the burst test |
| QuantumDetector.BurstPatternsShape | src/services/quantum_detector.py:191-235 | a wallet is reported exactly when it has five or more activities that pass the burst test |
| QuantumDetector.BurstsFromOfType | src/services/quantum_detector.py:221-223 | every statistical pattern is a transaction burst |
| QuantumDetector.AnalyzeRecentActivity | src/services/quantum_detector.py:52-75 | runs the four rules and concatenates their results |
| QuantumDetector.RecentActivityOrder | src/services/quantum_detector.py:52-75 | patterns come in rule order, and only transaction bursts repeat |
| QuantumDetector.CalculateMarketImpact | src/services/quantum_detector.py:299-312 | the impact estimate of the activities (bounds, linearity, growth and confidence stated by `MarketImpactBounds`) |
| QuantumDetector.MarketImpactBounds | src/services/quantum_detector.py:299-312 | the price impact is capped at 20%, is linear below 20000 BTC, grows with the activities, and the confidence is "medium" exactly from ten activities |
| Statistics.TotalConcat | src/services/quantum_detector.py:93-94 | sums split over concatenation |
| Statistics.ConstantSpread | src/services/quantum_detector.py:133-137 | identical values have zero spread |
| Statistics.DeviationsExpand | src/services/quantum_detector.py:133-137 | the sum of squared deviations expands into sums and sums of squares |
| Statistics.SpreadNonNegative | src/services/quantum_detector.py:133-137 | the cleared variance numerator is never negative |
| Statistics.VarianceNonNegative | src/services/quantum_detector.py:133-137 | the population variance is never negative |
| Statistics.IdenticalLowDispersion | src/services/quantum_detector.py:133-137 | identical positive amounts pass the dispersion test |
| Statistics.LowDispersionIsRatio | src/services/quantum_detector.py:133-137 | the cleared integer test equals `variance / mean² < 0.1` |
| Statistics.LowDispersionCleared | src/services/quantum_detector.py:133-137 | the same equivalence stated on totals |
| Statistics.BurstTestIsZScore | src/services/quantum_detector.py:213-220 | the cleared integer test equals `std > 0 and mean < 300 and (300 - mean) / std > 3` |
| Statistics.BurstTestCleared | src/services/quantum_detector.py:213-220 | the same equivalence stated on totals |
| Text.Strip | src/utils/init_data.py:29 | the result is stripped and empty exactly when the line was all whitespace |
| Text.StripIdempotent | src/utils/init_data.py:29 | stripping twice equals stripping once |
| Text.Split | src/utils/init_data.py:33 | at least one part, none containing the separator |
| Text.JoinSplit | src/utils/init_data.py:33 | joining the parts of a split gives the line back |
| Text.SplitJoin | src/utils/init_data.py:33 | splitting a join of separator-free parts gives the parts back |
| Text.Decimal | src/services/notification_service.py:90 | decimal digits without a leading zero |
| Text.DecimalRoundTrip | src/services/notification_service.py:90 | reading the digits back gives the number |
| Text.DecimalInjective | src/services/notification_service.py:90 | different counts render differently |
| Seqs.Filter | src/core/address_manager.py:133-144 | keeps only elements of the input that pass |
| Seqs.FilterKeeps | src/core/address_manager.py:133-144 | keeps every element that passes |
| Seqs.GroupBy | src/services/quantum_detector.py:196-198 | groups elements by key, with keys in first-seen order |
| Seqs.Chunks | src/services/monitoring_service.py:151-152 | chunks are non-empty and at most the batch size; all but the last are full |
| Seqs.ChunksCover | src/services/monitoring_service.py:151-152 | the chunks flatten back to the address list |
| NotificationService.AlertKey | src/services/notification_service.py:90 | the cooldown key of an alert (its parts stated by `AlertKeyJoin`, its equality by `AlertKeyIff`) |
| NotificationService.Gate | src/services/notification_service.py:87-105 | one cooldown decision on the map of last-sent times (stated by `DiscordNotificationService.ShouldSendAlert`, `CooldownSpacing` and `ResentAfterCooldown`) |
| NotificationService.AlertKeyJoin | src/services/notification_service.py:90 | the key is type, pattern and wallet count joined by `:` |
| NotificationService.AlertKeyIff | src/services/notification_service.py:90 | two alerts share a key exactly when type, pattern and wallet count agree |
| NotificationService.RecordedSince | src/services/notification_service.py:93-105 | after a send, the key's recorded time is at least the send time |
| NotificationService.CooldownSpacing | src/services/notification_service.py:87-105 | two sends of the same key are at least the 30-minute cooldown apart |
| NotificationService.ResentAfterCooldown | src/services/notification_service.py:93-105 | the same alert is sent again once the cooldown has passed |
| NotificationService.DropOld | src/services/notification_service.py:51-54 | dropping stale request times never adds any |
| NotificationService.DropOldShape | src/services/notification_service.py:51-54 | exactly the times older than the cutoff are dropped from the front |
| NotificationService.Append | src/services/notification_service.py:43 | the bounded deque holds at most its maximum and ends with the new time |
| NotificationService.Admit | src/services/notification_service.py:46-64 | the window never holds more than the maximum |
| NotificationService.AdmitStep | src/services/notification_service.py:46-64 | an admission keeps the window invariant and lands more than 60 s after the grant `max` places earlier |
| NotificationService.AdmitWindow | src/services/notification_service.py:46-64 | an admission keeps the window invariant |
| NotificationService.AdmitSpacing | src/services/notification_service.py:46-64 | a full window delays the admission past 60 s after the oldest grant |
| NotificationService.RunLimiter | src/services/notification_service.py:46-64 | one grant per call; the window stays bounded |
| NotificationService.SlidingWindowBound | src/services/notification_service.py:38-64 | over any run of calls, no 60-second window holds more than `max_requests` grants |
| NotificationService.WebhookLimiter.constructor | src/services/notification_service.py:41-44 | an empty window with the given maximum |
| NotificationService.WebhookLimiter.Acquire | src/services/notification_service.py:46-64 | the window becomes the admission's window |
| NotificationService.DiscordNotificationService.constructor | src/services/notification_service.py:70-77 | empty cooldown map and a 30-a-minute limiter |
| NotificationService.DiscordNotificationService.ShouldSendAlert | src/services/notification_service.py:87-105 | sends exactly when the key is new or its cooldown has passed, and records the time only then |
| NotificationService.DiscordNotificationService.SendAlert | src/services/notification_service.py:182-226 | a suppressed alert neither waits on the limiter nor succeeds; a sent one waits and succeeds exactly on HTTP 204 |
| NotificationService.QuantumEmergencyAlert | src/services/notification_service.py:245-267 | no alert exactly for no wallets; otherwise type "quantum_emergency", severity CRITICAL, pattern "dormant_wallet_surge", every wallet's address in order, and the sum of their balances |
| NotificationService.AnomalySeverity | src/services/notification_service.py:272 | HIGH exactly for statistical anomalies, MEDIUM otherwise |
| NotificationService.AnomalyAlert | src/services/notification_service.py:269-284 | the wallet-anomaly alert for one wallet, with the balance from the details or 0 (its key behaviour stated by `AnomalyAlertsSuppressOtherWallets`) |
| NotificationService.EmergencyAlertsShareKey | src/services/notification_service.py:245-267 | two emergency alerts over equally many wallets share a cooldown key, whichever wallets they are |
| NotificationService.AnomalyAlertsSuppressOtherWallets | src/services/notification_service.py:269-284 | an anomaly alert for one wallet suppresses the same anomaly type for any wallet within the cooldown |
| MonitoringService.IsAnomalousAsWritten | src/services/monitoring_service.py:267-281 | the flag as written: over 100 BTC moved, dormancy over 365 days, or a withdrawal from a zero balance read before the update (meaning stated by `AsWrittenDrainTestIsDead`) |
| MonitoringService.IsAnomalous | src/services/monitoring_service.py:267-281 | the corrected flag, whose drain test looks at the balance after the change (meaning stated by `AnomalyIff`) |
| MonitoringService.AsWrittenDrainTestIsDead | src/services/monitoring_service.py:267-281 | as written, the flag reduces to "large movement or long dormancy" |
| MonitoringService.AsWrittenMissesDrain | src/services/monitoring_service.py:277-279 | a 50 BTC wallet drained to zero is not flagged as written and is flagged when corrected |
| MonitoringService.AnomalyIff | src/services/monitoring_service.py:267-281 | flagged exactly for a movement over 100 BTC, dormancy over 365 days, or a withdrawal that empties the wallet |
| MonitoringService.NewWalletType | src/services/monitoring_service.py:249 | P2PKH exactly for addresses starting with `1`, OTHER otherwise |
| MonitoringService.NewWalletNotVulnerable | src/services/monitoring_service.py:241-265 | a new wallet is active, not vulnerable, not dormant, and scored by balance plus 5 |
| MonitoringService.ProcessUpdate | src/services/monitoring_service.py:183-239 | one fetched balance applied to the stored row (meaning stated by `UpdateMeaning` and `UpdateQuietOnRepeat`) |
| MonitoringService.UpdateMeaning | src/services/monitoring_service.py:183-239 | an activity and a transaction exist exactly when a known wallet's balance changed; their amount, direction and times; the anomaly flag as written on the balance before the change, which for non-negative balances means a movement over 100 BTC or dormancy over 365 days |
| MonitoringService.UpdateQuietOnRepeat | src/services/monitoring_service.py:197-239 | replaying the same balance records nothing and changes nothing |
| MonitoringService.ApplyOneShape | src/services/monitoring_service.py:158-162 | one update appends at most one transaction and one activity and leaves other wallets alone |
| MonitoringService.ApplyUpdatesShape | src/services/monitoring_service.py:158-162 | a batch appends at most one record per address, keeps the history and leaves unmentioned wallets alone |
| MonitoringService.ApplyUpdatesConcat | src/services/monitoring_service.py:151-162 | applying two batches in turn equals applying them together |
| MonitoringService.CycleVisitsEveryAddress | src/services/monitoring_service.py:148-162 | when every chunk is answered, the cycle looks up every address exactly once, in order |
| MonitoringService.SingleActivityRaisesNothing | src/services/monitoring_service.py:372-377 | one activity matches none of the four rules |
| MonitoringService.BurstsFromQuiet | src/services/quantum_detector.py:205 | wallets with fewer than five activities raise no burst |
| MonitoringService.QuickRunHandlesNothing | src/services/monitoring_service.py:338-377 | the quick check never handles an emergency pattern |
| MonitoringService.FirstWallet | src/services/monitoring_service.py:361 | the first row for the address, or none when there is none |
| MonitoringService.SurgeDetails | src/services/monitoring_service.py:309-321 | the details are exactly the stored addresses among the given ones, in their order, each with its stored balance and dormancy |
| MonitoringService.EmergencyNotice | src/services/monitoring_service.py:306-336 | a surge gives a CRITICAL quantum-emergency alert over exactly the stored wallets among its first ten, in order, and nothing exactly when none is stored; any other pattern gives a generic alert with its name, severity, wallets and total |
| MonitoringService.MonitoringService.constructor | src/services/monitoring_service.py:25-36 | not running, nothing monitored, the given wallet table |
| MonitoringService.MonitoringService.ProcessAddressUpdate | src/services/monitoring_service.py:183-239 | the wallet row and the transaction log become the update's (anomaly flag as written), and its activity is returned |
| MonitoringService.MonitoringService.ApplyAnswers | src/services/monitoring_service.py:158-162 | the loop applies a batch of answers in order |
| MonitoringService.MonitoringService.ApplyChunks | src/services/monitoring_service.py:151-162 | fetches chunk by chunk and applies the answers until the first failure |
| MonitoringService.MonitoringService.MonitorAllAddresses | src/services/monitoring_service.py:141-181 | over the monitored addresses listed once each, applies every fetched answer and returns the HIGH and CRITICAL patterns of the activities, or none after a failure or without activity |
| MonitoringService.MonitoringService.Start | src/services/monitoring_service.py:117-128 | a second start does nothing; the first marks the service running and runs one cycle |
| MonitoringService.MonitoringService.Stop | src/services/monitoring_service.py:130-139 | marks the service stopped and keeps its tables |
| MonitoringService.MonitoringService.QuickAnswer | src/services/monitoring_service.py:359-377 | applies one answer of the quick check |
| MonitoringService.MonitoringService.QuickCheckHighRisk | src/services/monitoring_service.py:338-377 | does nothing without rows or after a failed fetch; otherwise applies every answer |
| MonitoringService.UrgentPatterns | src/services/monitoring_service.py:168-170 | keeps exactly the HIGH and CRITICAL patterns, in order |
| BlockMonitor.EntryAddressesIff | src/services/block_monitor.py:138-145 | an address is collected from entries exactly when some entry names it and it is non-empty |
| BlockMonitor.BlockAddressesIff | src/services/block_monitor.py:132-147 | an address is collected from a block exactly when it is non-empty and some input or output names it |
| BlockMonitor.ExtractAddressesFromBlock | src/services/block_monitor.py:132-147 | the loop collects the block's addresses |
| BlockMonitor.SpendTotalTagged | src/services/block_monitor.py:191 | only spends count toward the moved total |
| BlockMonitor.MatchesIff | src/services/block_monitor.py:166-183 | some entry matches exactly when the address is named |
| BlockMonitor.EntryMovementsMeaning | src/services/block_monitor.py:164-183 | the entries' spend total is the sum of the matching amounts for inputs and 0 for outputs |
| BlockMonitor.TxMovementsMeaning | src/services/block_monitor.py:164-183 | a transaction's spend total is its matching inputs; it is empty exactly when the address is not named |
| BlockMonitor.RelevantSpendTotal | src/services/block_monitor.py:191 | the moved total is the sum of the address's input amounts in the block |
| BlockMonitor.RelevantNonEmpty | src/services/block_monitor.py:185 | relevant transactions exist exactly when the address appears |
| BlockMonitor.RelevantTxsFails | src/services/block_monitor.py:164-195 | once a transaction that names the address but has no `hash` has made the list fail, the whole block fails (the `KeyError` is caught for the whole lookup) |
| BlockMonitor.AnalyzeMovement | src/services/block_monitor.py:149-198 | a movement names the address and height |
| BlockMonitor.MovementIff | src/services/block_monitor.py:155-198 | a movement is reported exactly when the lookup answers, the relevant list builds (no transaction naming the address lacks a `hash`) and the address appears; previous balance, time and total spent |
| BlockMonitor.ScanEntries | src/services/block_monitor.py:166-183 | the loop collects the entries that name the address |
| BlockMonitor.AnalyzeAddressMovement | src/services/block_monitor.py:149-198 | the loop computes the movement |
| BlockMonitor.BlockResult | src/services/block_monitor.py:83-130 | what processing one block returns: nothing for a missing block, else one movement per tracked address named in the block that has one (stated by `AtMostOnePerAddress`, `EmptyBlockYieldsNothing` and `OnlyTrackedAddresses`) |
| BlockMonitor.ReportedStep | src/services/block_monitor.py:111-125 | one step of the per-address loop keeps the report invariant |
| BlockMonitor.AtMostOnePerAddress | src/services/block_monitor.py:97-125 | at most one movement per tracked address that appears in the block |
| BlockMonitor.EmptyBlockYieldsNothing | src/services/block_monitor.py:89-100 | a block without transactions yields no movement |
| BlockMonitor.OnlyTrackedAddresses | src/services/block_monitor.py:97-125 | every movement is for a tracked address that appears in the block |
| BlockMonitor.NextHeight | src/services/block_monitor.py:50-81 | the height `check_new_blocks` leaves recorded (stated by `NoBackfill`, `HeightMonotone` and `SameTipScansNothing`) |
| BlockMonitor.NoBackfill | src/services/block_monitor.py:58-60 | the first reading only records the tip and scans nothing |
| BlockMonitor.HeightMonotone | src/services/block_monitor.py:56-81 | the recorded height never decreases, and the scan covers exactly the heights up to the tip |
| BlockMonitor.SameTipScansNothing | src/services/block_monitor.py:63 | reading the same tip again scans nothing |
| BlockMonitor.BlockMonitorService.constructor | src/services/block_monitor.py:23-27 | no addresses and no height |
| BlockMonitor.BlockMonitorService.Initialize | src/services/block_monitor.py:29-48 | the address set becomes the active addresses; the height becomes the tip, is cleared without one, and is kept when the read fails |
| BlockMonitor.BlockMonitorService.ProcessBlock | src/services/block_monitor.py:83-130 | the movements of the tracked addresses in the block |
| BlockMonitor.BlockMonitorService.CheckNewBlocks | src/services/block_monitor.py:50-81 | scans each new height in order, concatenates their movements, and advances the height |
| BlockMonitor.BlockMonitorService.UpdateMonitoredAddresses | src/services/block_monitor.py:200-207 | adds the addresses |
| BlockMonitor.BlockMonitorService.RemoveMonitoredAddresses | src/services/block_monitor.py:209-216 | removes the addresses |
| BlockMonitor.BlockMonitorService.GetStats | src/services/block_monitor.py:218-224 | the address count and height; active exactly when a height is known |
| InitData.ParseLine | src/utils/init_data.py:29-39 | one line of the address file (meaning stated by `ParseLineMeaning`) |
| InitData.ParseLineMeaning | src/utils/init_data.py:29-39 | a line yields a record exactly when, stripped, it is non-empty, not a comment and has a comma; the fields are stripped and comma-free |
| InitData.ParseLines | src/utils/init_data.py:26-41 | at most one record per line |
| InitData.LoadVulnerableAddresses | src/utils/init_data.py:18-41 | nothing for a missing file, otherwise the parsed records |
| InitData.SkippedLine | src/utils/init_data.py:29-31 | blank and comment lines contribute nothing |
| InitData.ParseThreeFields | src/utils/init_data.py:33-39 | the first three fields become address, type and notes |
| InitData.ParseRender | src/utils/init_data.py:33-39 | parsing a rendered record gives it back |
| InitData.ParseRenderAll | src/utils/init_data.py:26-41 | parsing a rendered file gives the records back |
| InitData.WalletTypeFor | src/utils/init_data.py:77 | P2PK exactly for P2PK records, P2PKH otherwise |
| InitData.SampleWallet | src/utils/init_data.py:75-89 | the row seeded for a listed address (its score stated by `SampleRiskScores`) |
| InitData.SampleRiskScores | src/utils/init_data.py:75-89 | sample wallets score 75 for P2PK, 65 for reused P2PKH, 45 otherwise |
| InitData.Seed | src/utils/init_data.py:61-94 | the table after seeding (stated by `SeedKeeps` and `SeedFirstListing`) |
| InitData.SeedKeeps | src/utils/init_data.py:63-92 | existing wallets are kept, every listed address is present, and nothing else is added |
| InitData.SeedFirstListing | src/utils/init_data.py:63-92 | a newly added wallet comes from the first listing of its address |
| InitData.AddRecords | src/utils/init_data.py:61-94 | the loop seeds the table and counts the new wallets |
| InitData.InitializeSampleData | src/utils/init_data.py:44-97 | seeds the table from the file and counts the new wallets |

## Left out

- Network transport, JSON decoding and each adapter's field extraction are left out. Per-address lookups, batch fetches, recent-transaction calls and block fetches are function parameters. `_parse_timestamp` and the metadata dictionaries are not modelled.
- Database access is left out: sessions, ORM queries and commits. The wallet and transaction tables are maps and sequences owned by the services. Left out with it:
  - `_load_monitored_addresses` and `initialize`.
  - `database_maintenance`, `create_wallet_snapshots` and `_get_transaction_count`.
  - The `Alert` row written by `_handle_emergency_pattern`.
  - The high-risk query of the quick check, whose rows are a parameter.
- The scheduler, the asyncio tasks and locks, and the block-monitoring loop's sleep are left out. Each call is modelled as running alone.
- Blockchain.RateLimiter.constructor: requires a positive rate. With a zero rate the code divides by zero on the first empty bucket, and every configured rate is positive.
- NotificationService.WebhookLimiter.constructor: requires a positive maximum. A `deque(maxlen=0)` would drop every time stamp and `acquire` would then index an empty deque. The service always uses 30.
- NotificationService.DiscordNotificationService.SendAlert: the webhook call is an outcome parameter. The embed layout (`_create_embed`: title, colour, fields, timestamp) is not modelled.
- `send_startup_notification` and `send_test_alert` are left out. They only send fixed alerts built from constants.
- Each operation reads the clock once, as one `now` parameter. The code calls `datetime.utcnow()` several times.
- The time the event loop oversleeps is an `overshoot` parameter.
- Floats are exact reals, and `np.std` is a square-root parameter.
- Blockchain.BlockchainManager.GetRequestStats: the success rate is not rounded to two decimals.
- The order of Python `set` iteration is left open: `list(set)` in the monitoring cycle, and the set of active dormant addresses. The address order is a parameter.
- Microseconds are dropped from timestamps.
- MonitoringService.MonitoringService.ProcessAddressUpdate: database exceptions inside `process_address_update` are not modelled.
- MonitoringService.MonitoringService.MonitorAllAddresses: a failing batch fetch is the only exception path modelled.
- Blockchain.BlockchainManager.GetRecentTransactions: BlockCypher's slicing of the transaction list to `limit` is left to the provider parameter.
- InitData.InitializeSampleData: the `notes` field goes into wallet metadata, which is not modelled.
- Logging is not modelled.
- `src/config/settings.py` validation is left out; only its defaults are constants in `Settings`.
- MonitoringService.MonitoringService.QuickCheckHighRisk: as in the code, it never finds a pattern, because it analyses one activity at a time (`MonitoringService.QuickRunHandlesNothing`).

## Findings

| source | as written | input that shows it | evidently intended | confidence | as-written member | corrected member |
|---|---|---|---|---|---|---|
| src/core/blockchain.py:51-63 | after a sleep the bucket is emptied but `last_update` stays at the time of the call, so the next call credits the slept time again | rate 1 per second with a full one-token bucket, calls at 0, 0, 1, 1 and 2 s: five requests are granted within 2 s, while a bucket of 1 token refilling at 1 per second allows 3 (in general `2 n + 1` grants by time `n`, against `1 + n`) | the caller pays for the sleep: `last_update` should move to the wake-up time | medium, not executed | Blockchain.AsWrittenRunOverBound | Blockchain.CorrectedGrantBound |
| src/services/monitoring_service.py:278 | the drain test reads `wallet.current_balance` before line 216 stores the new balance, so it asks for a zero balance before a withdrawal, which never happens | a wallet holding 50 BTC, dormant 0 days, withdraws all 50 BTC: not flagged as anomalous | flag a withdrawal that leaves the balance at zero | high, not executed | MonitoringService.AsWrittenMissesDrain | MonitoringService.AnomalyIff |
