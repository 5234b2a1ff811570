/**
 * The balance-driven pieces of `monitoring_service.py`: turning a fetched
 * balance into a transaction record and a wallet activity, the anomaly flag
 * on that record, the batched monitoring cycle with its severity filter, the
 * quick check of high-risk wallets and the choice of notification for a
 * detected pattern. The wallet table is a map from address to row, the
 * transaction table a list the service appends to.
 */
module MonitoringService {
  import opened Wrappers
  import opened Settings
  import Seqs
  import Blockchain
  import AddressManager
  import QD = QuantumDetector
  import NS = NotificationService

  /** A row of the wallet table, as far as this service reads or writes it. */
  datatype WalletRow = WalletRow(
    address: string,
    walletType: string,
    vulnerabilityType: Option<string>,
    isVulnerable: bool,
    isActive: bool,
    currentBalance: int,
    lastActivity: Option<int>,
    transactionCount: int,
    riskScore: real,
    dormancyDays: int)

  /** A row of the transaction table; the hash is the literal placeholder "pending". */
  datatype TransactionRecord = TransactionRecord(
    walletAddress: string,
    txhash: string,
    blockTime: int,
    amount: int,
    txType: string,
    isAnomalous: bool)

  function Abs(x: int): nat
  {
    if x < 0 then -x else x
  }

  // ---------------------------------------------------------------------------
  // Anomaly flag

  const LargeMovement: int := 100 * SatoshisPerBtc
  const AnomalyDormancyDays: int := 365

  /**
   * `_is_anomalous_transaction` as written: a movement of more than 100 BTC,
   * a wallet dormant for more than 365 days, or a withdrawal from a wallet
   * whose balance, read before the update, is already 0.
   */
  function IsAnomalousAsWritten(balanceBefore: int, dormancyDays: int, change: int): bool
  {
    if Abs(change) > LargeMovement then true
    else if dormancyDays > AnomalyDormancyDays then true
    else if change < 0 && balanceBefore == 0 then true
    else false
  }

  /** The anomaly flag with the complete-drain test on the balance after the change. */
  function IsAnomalous(balanceBefore: int, dormancyDays: int, change: int): bool
  {
    if Abs(change) > LargeMovement then true
    else if dormancyDays > AnomalyDormancyDays then true
    else if change < 0 && balanceBefore + change == 0 then true
    else false
  }

  /**
   * As written, the drain test never fires for a real withdrawal: a balance
   * that is 0 before the change cannot go down without going negative, so
   * only the size and dormancy tests decide.
   */
  lemma AsWrittenDrainTestIsDead(balanceBefore: int, dormancyDays: int, change: int)
    requires balanceBefore >= 0 && balanceBefore + change >= 0
    ensures IsAnomalousAsWritten(balanceBefore, dormancyDays, change) <==>
      Abs(change) > LargeMovement || dormancyDays > AnomalyDormancyDays
  {
  }

  /** Emptying a wallet of 50 BTC that was active within the year is not flagged as written. */
  lemma AsWrittenMissesDrain()
    ensures !IsAnomalousAsWritten(50 * SatoshisPerBtc, 0, -50 * SatoshisPerBtc)
    ensures IsAnomalous(50 * SatoshisPerBtc, 0, -50 * SatoshisPerBtc)
  {
  }

  /**
   * The corrected flag is raised exactly for a movement of more than
   * 100 BTC, a wallet dormant for more than a year, or a withdrawal that
   * leaves the wallet empty; for balances that stay non-negative it flags
   * everything the written test flags.
   */
  lemma AnomalyIff(balanceBefore: int, dormancyDays: int, change: int)
    ensures IsAnomalous(balanceBefore, dormancyDays, change) <==>
      Abs(change) > LargeMovement || dormancyDays > AnomalyDormancyDays || (change < 0 && balanceBefore + change == 0)
    ensures balanceBefore >= 0 && balanceBefore + change >= 0 && IsAnomalousAsWritten(balanceBefore, dormancyDays, change) ==>
      IsAnomalous(balanceBefore, dormancyDays, change)
  {
  }

  // ---------------------------------------------------------------------------
  // One address update

  /** `_create_wallet_record`'s wallet type: "P2PKH" for an address starting with '1'. */
  function NewWalletType(address: string): (t: string)
    ensures t == "P2PKH" <==> |address| > 0 && address[0] == '1'
    ensures t == "P2PKH" || t == "OTHER"
  {
    if |address| > 0 && address[0] == '1' then "P2PKH" else "OTHER"
  }

  /**
   * `_create_wallet_record`: the address is classified from the address
   * alone (no script, not known to have spent) and scored with dormancy 0.
   */
  function NewWalletRecord(info: Blockchain.AddressInfo): WalletRow
  {
    var v := AddressManager.IsAddressVulnerable(info.address, None, false);
    WalletRow(
      info.address, NewWalletType(info.address), if v.0 then Some(v.1) else None, v.0, true,
      info.balance, info.lastActivity, info.transactionCount,
      AddressManager.CalculateRiskScore(info.balance, 0, v.1), 0)
  }

  /**
   * A wallet first seen here is never marked vulnerable, since neither a
   * script nor a spend is known; its risk score is the balance points plus
   * the 5 points of a short dormancy.
   */
  lemma NewWalletNotVulnerable(info: Blockchain.AddressInfo)
    ensures var w := NewWalletRecord(info);
      && w.address == info.address && w.currentBalance == info.balance
      && !w.isVulnerable && w.vulnerabilityType.None? && w.isActive && w.dormancyDays == 0
      && w.riskScore == (AddressManager.BalancePoints(info.balance) + 5) as real
  {
  }

  /** What one fetched balance does to the stored wallet: its new row, the transaction recorded and the activity reported. */
  datatype Update = Update(wallet: WalletRow, transaction: Option<TransactionRecord>, activity: Option<QD.WalletActivity>)

  /**
   * `_process_address_update`: an unknown address gets a fresh row; when the
   * stored balance differs from the fetched one, a transaction of the
   * difference is recorded, the row takes the new balance, the activity time
   * `now` and the new transaction count, and an activity is reported whose
   * dormancy is measured from that new activity time.
   */
  function ProcessUpdate(stored: Option<WalletRow>, info: Blockchain.AddressInfo, now: int): Update
  {
    var w := if stored.Some? then stored.value else NewWalletRecord(info);
    if w.currentBalance == info.balance then Update(w, None, None)
    else
      var change := info.balance - w.currentBalance;
      var tx := TransactionRecord(
        w.address, "pending", now, Abs(change), if change < 0 then "out" else "in",
        IsAnomalousAsWritten(w.currentBalance, w.dormancyDays, change));
      var updated := w.(currentBalance := info.balance, lastActivity := Some(now), transactionCount := info.transactionCount);
      var activity := QD.WalletActivity(
        w.address, now, Abs(change), info.balance, 0, Some(now),
        if w.vulnerabilityType.Some? then w.vulnerabilityType.value else "");
      Update(updated, Some(tx), Some(activity))
  }

  /**
   * A transaction and an activity are produced exactly when a stored wallet's
   * balance differs from the fetched one; a wallet seen for the first time is
   * stored with the fetched balance and yields neither. The amount is the
   * absolute difference, the type "out" exactly for a decrease, and the
   * activity always reports dormancy 0 with the new activity time as the
   * previous one. The anomaly flag is the written one, tested on the balance
   * before the change; for non-negative balances it is raised exactly for a
   * movement of more than 100 BTC or a wallet dormant for more than a year.
   * Afterwards the row holds the fetched balance.
   */
  lemma UpdateMeaning(stored: Option<WalletRow>, info: Blockchain.AddressInfo, now: int)
    ensures var u := ProcessUpdate(stored, info, now);
      && (u.activity.Some? <==> stored.Some? && stored.value.currentBalance != info.balance)
      && (u.transaction.Some? <==> u.activity.Some?)
      && u.wallet.currentBalance == info.balance
      && (u.activity.Some? ==>
            var old_ := stored.value.currentBalance;
            && u.transaction.value.amount == Abs(info.balance - old_) > 0
            && (u.transaction.value.txType == "out" <==> info.balance < old_)
            && u.transaction.value.isAnomalous == IsAnomalousAsWritten(old_, stored.value.dormancyDays, info.balance - old_)
            && (old_ >= 0 && info.balance >= 0 ==>
                  (u.transaction.value.isAnomalous <==>
                     Abs(info.balance - old_) > LargeMovement || stored.value.dormancyDays > AnomalyDormancyDays))
            && u.activity.value.amount == u.transaction.value.amount
            && u.activity.value.balance == info.balance
            && u.activity.value.dormancyDays == 0
            && u.activity.value.lastActivityBefore == Some(now)
            && u.wallet.lastActivity == Some(now))
  {
    if stored.None? {
      NewWalletNotVulnerable(info);
    } else if stored.value.currentBalance != info.balance {
      var old_ := stored.value.currentBalance;
      if old_ >= 0 && info.balance >= 0 {
        AsWrittenDrainTestIsDead(old_, stored.value.dormancyDays, info.balance - old_);
      }
    }
  }

  /** Fetching the same balance again right after an update reports nothing. */
  lemma UpdateQuietOnRepeat(stored: Option<WalletRow>, info: Blockchain.AddressInfo, now: int, later: int)
    ensures var u := ProcessUpdate(stored, info, now);
      var v := ProcessUpdate(Some(u.wallet), info, later);
      v.activity.None? && v.transaction.None? && v.wallet == u.wallet
  {
    UpdateMeaning(stored, info, now);
  }

  function Stored(wallets: map<string, WalletRow>, address: string): Option<WalletRow>
  {
    if address in wallets then Some(wallets[address]) else None
  }

  /** The wallet and transaction tables, and the activities reported so far in a cycle. */
  datatype Ledger = Ledger(wallets: map<string, WalletRow>, transactions: seq<TransactionRecord>, activities: seq<QD.WalletActivity>)

  /** One entry of a batch answer: a missing answer is skipped, a present one applied to its address's row. */
  function ApplyOne(l: Ledger, info: Option<Blockchain.AddressInfo>, now: int): Ledger
  {
    match info
    case None => l
    case Some(i) =>
      var u := ProcessUpdate(Stored(l.wallets, i.address), i, now);
      Ledger(l.wallets[i.address := u.wallet], l.transactions + OptionSeq(u.transaction), l.activities + OptionSeq(u.activity))
  }

  function ApplyUpdates(l: Ledger, infos: seq<Option<Blockchain.AddressInfo>>, now: int): Ledger
  {
    if infos == [] then l
    else ApplyOne(ApplyUpdates(l, infos[..|infos| - 1], now), infos[|infos| - 1], now)
  }

  /**
   * One answer adds at most one transaction and exactly as many activities,
   * and touches no row but that of the address it answers for.
   */
  lemma ApplyOneShape(l: Ledger, info: Option<Blockchain.AddressInfo>, now: int)
    ensures var r := ApplyOne(l, info, now);
      && |l.transactions| <= |r.transactions| <= |l.transactions| + 1
      && |r.transactions| - |l.transactions| == |r.activities| - |l.activities|
      && r.transactions[..|l.transactions|] == l.transactions
      && r.activities[..|l.activities|] == l.activities
      && (forall a :: a in l.wallets && (info.None? || info.value.address != a) ==> a in r.wallets && r.wallets[a] == l.wallets[a])
  {
    if info.Some? {
      UpdateMeaning(Stored(l.wallets, info.value.address), info.value, now);
    }
  }

  /**
   * Applying a run of answers only adds to the transaction and activity
   * lists, one transaction per activity and at most one per answer, and
   * only touches the rows of the addresses answered for.
   */
  lemma {:induction false} ApplyUpdatesShape(l: Ledger, infos: seq<Option<Blockchain.AddressInfo>>, now: int)
    ensures var r := ApplyUpdates(l, infos, now);
      && |l.transactions| <= |r.transactions| <= |l.transactions| + |infos|
      && |r.transactions| - |l.transactions| == |r.activities| - |l.activities|
      && r.transactions[..|l.transactions|] == l.transactions
      && r.activities[..|l.activities|] == l.activities
      && (forall a :: a in l.wallets && (forall k :: 0 <= k < |infos| ==> infos[k].None? || infos[k].value.address != a)
            ==> a in r.wallets && r.wallets[a] == l.wallets[a])
  {
    if infos != [] {
      var init := infos[..|infos| - 1];
      var info := infos[|infos| - 1];
      ApplyUpdatesShape(l, init, now);
      var m := ApplyUpdates(l, init, now);
      ApplyOneShape(m, info, now);
      var r := ApplyUpdates(l, infos, now);
      assert r == ApplyOne(m, info, now);
      assert r.transactions[..|l.transactions|] == r.transactions[..|m.transactions|][..|l.transactions|];
      assert r.activities[..|l.activities|] == r.activities[..|m.activities|][..|l.activities|];
      forall a | a in l.wallets && (forall k :: 0 <= k < |infos| ==> infos[k].None? || infos[k].value.address != a)
        ensures a in r.wallets && r.wallets[a] == l.wallets[a]
      {
        assert forall k :: 0 <= k < |init| ==> init[k] == infos[k];
      }
    }
  }

  /** Answers applied in two runs give what they give in one. */
  lemma {:induction false} ApplyUpdatesConcat(l: Ledger, a: seq<Option<Blockchain.AddressInfo>>, b: seq<Option<Blockchain.AddressInfo>>, now: int)
    ensures ApplyUpdates(l, a + b, now) == ApplyUpdates(ApplyUpdates(l, a, now), b, now)
  {
    if b == [] {
      assert a + b == a;
    } else {
      ApplyUpdatesConcat(l, a, b[..|b| - 1], now);
      assert (a + b)[..|a + b| - 1] == a + b[..|b| - 1];
      assert (a + b)[|a + b| - 1] == b[|b| - 1];
    }
  }

  /** Rows are stored under their own address. */
  predicate Keyed(wallets: map<string, WalletRow>)
  {
    forall a :: a in wallets ==> wallets[a].address == a
  }

  // ---------------------------------------------------------------------------
  // Batches of addresses

  /** The answers gathered by a cycle, and whether a batch request raised and ended it. */
  datatype Fetched = Fetched(infos: seq<Option<Blockchain.AddressInfo>>, failed: bool)

  function Prefixed(v: seq<Option<Blockchain.AddressInfo>>, f: Fetched): Fetched
  {
    Fetched(v + f.infos, f.failed)
  }

  /** Batch requests in order; the first one that raises ends the run with what came before it. */
  function FetchAll(chunks: seq<seq<string>>, fetch: seq<string> -> Result<seq<Option<Blockchain.AddressInfo>>, string>): Fetched
  {
    if chunks == [] then Fetched([], false)
    else
      match fetch(chunks[0])
      case Err(_) => Fetched([], true)
      case Ok(batch) => Prefixed(batch, FetchAll(chunks[1..], fetch))
  }

  /** One more answered batch moves from the remaining requests to the answers already in hand. */
  lemma FetchStep(chunks: seq<seq<string>>, i: nat, fetch: seq<string> -> Result<seq<Option<Blockchain.AddressInfo>>, string>,
                  infos: seq<Option<Blockchain.AddressInfo>>)
    requires i < |chunks| && fetch(chunks[i]).Ok?
    ensures Prefixed(infos, FetchAll(chunks[i..], fetch)) == Prefixed(infos + fetch(chunks[i]).value, FetchAll(chunks[i + 1..], fetch))
  {
    assert chunks[i..][0] == chunks[i] && chunks[i..][1..] == chunks[i + 1..];
    var batch, rest := fetch(chunks[i]).value, FetchAll(chunks[i + 1..], fetch);
    assert infos + (batch + rest.infos) == (infos + batch) + rest.infos;
  }

  /** The answers of a provider that knows every address, one per address in order. */
  function LookupAll(addresses: seq<string>, look: string -> Blockchain.AddressInfo): seq<Option<Blockchain.AddressInfo>>
  {
    if addresses == [] then [] else [Some(look(addresses[0]))] + LookupAll(addresses[1..], look)
  }

  lemma {:induction false} LookupAllConcat(a: seq<string>, b: seq<string>, look: string -> Blockchain.AddressInfo)
    ensures LookupAll(a + b, look) == LookupAll(a, look) + LookupAll(b, look)
  {
    if a != [] {
      LookupAllConcat(a[1..], b, look);
      assert (a + b)[1..] == a[1..] + b;
    } else {
      assert a + b == b;
    }
  }

  /** Every batch request answers, for each of its addresses in order, with what `look` says. */
  ghost predicate AnswersAll(fetch: seq<string> -> Result<seq<Option<Blockchain.AddressInfo>>, string>, look: string -> Blockchain.AddressInfo)
  {
    forall c :: fetch(c) == Ok(LookupAll(c, look))
  }

  /** A first batch that is answered contributes its answers ahead of those of the remaining batches. */
  lemma FetchFirst(c: seq<string>, rest: seq<seq<string>>,
                   fetch: seq<string> -> Result<seq<Option<Blockchain.AddressInfo>>, string>,
                   look: string -> Blockchain.AddressInfo)
    requires AnswersAll(fetch, look)
    ensures FetchAll([c] + rest, fetch) == Prefixed(LookupAll(c, look), FetchAll(rest, fetch))
  {
    assert ([c] + rest)[0] == c && ([c] + rest)[1..] == rest;
    assert fetch(c) == Ok(LookupAll(c, look));
  }

  /**
   * When every batch request answers, for each of its addresses in order,
   * with what `look` says, the cycle's batches of `n` addresses visit every
   * address once, in list order, and nothing fails.
   */
  lemma {:induction false} CycleVisitsEveryAddress(addresses: seq<string>, n: nat,
                                                  fetch: seq<string> -> Result<seq<Option<Blockchain.AddressInfo>>, string>,
                                                  look: string -> Blockchain.AddressInfo)
    requires n > 0
    requires AnswersAll(fetch, look)
    ensures FetchAll(Seqs.Chunks(addresses, n), fetch) == Fetched(LookupAll(addresses, look), false)
    decreases |addresses|
  {
    if addresses == [] {
    } else if |addresses| <= n {
      assert Seqs.Chunks(addresses, n) == [addresses] + [];
      FetchFirst(addresses, [], fetch, look);
      assert LookupAll(addresses, look) + [] == LookupAll(addresses, look);
    } else {
      var head, tail := addresses[..n], addresses[n..];
      CycleVisitsEveryAddress(tail, n, fetch, look);
      assert Seqs.Chunks(addresses, n) == [head] + Seqs.Chunks(tail, n);
      FetchFirst(head, Seqs.Chunks(tail, n), fetch, look);
      LookupAllConcat(head, tail, look);
      assert head + tail == addresses;
    }
  }

  /** The patterns a full cycle hands on: HIGH and CRITICAL only. */
  predicate IsUrgent(p: QD.EmergencyPattern)
  {
    p.severity == QD.High || p.severity == QD.Critical
  }

  /**
   * A single activity never makes a pattern: a surge needs five dormant
   * wallets, a coordination and a concentration three activities, a burst
   * five activities of one wallet.
   */
  lemma SingleActivityRaisesNothing(a: QD.WalletActivity, sqrt: real -> real)
    ensures QD.RecentActivityPatterns([a], sqrt) == []
  {
    var s := [a];
    assert |Seqs.Filter(s, QD.IsDormant)| <= 1;
    assert |Seqs.Filter(s, QD.IsHighValue)| <= 1;
    var ks := Seqs.FirstKeys(s, QD.Address);
    assert QD.BurstPatterns(s, sqrt) == QD.BurstsFrom(s, ks, sqrt);
    BurstsFromQuiet(s, ks, sqrt);
  }

  /** Wallets with fewer than five activities never burst. */
  lemma {:induction false} BurstsFromQuiet(s: seq<QD.WalletActivity>, ks: seq<string>, sqrt: real -> real)
    requires |s| < 5
    ensures QD.BurstsFrom(s, ks, sqrt) == []
  {
    if ks != [] {
      BurstsFromQuiet(s, ks[..|ks| - 1], sqrt);
      var members := Seqs.Members(s, QD.Address, ks[|ks| - 1]);
      assert |members| <= |s|;
      assert QD.BurstPattern(ks[|ks| - 1], members, sqrt).None?;
    }
  }

  // ---------------------------------------------------------------------------
  // The quick check of high-risk wallets

  /** `next(w for w in high_risk_wallets if w.address == address)`. */
  function FirstWallet(rows: seq<WalletRow>, address: string): (r: Option<WalletRow>)
    ensures r.Some? ==> r.value in rows && r.value.address == address
    ensures r.None? ==> forall i :: 0 <= i < |rows| ==> rows[i].address != address
  {
    if rows == [] then None
    else if rows[0].address == address then Some(rows[0])
    else
      var r := FirstWallet(rows[1..], address);
      assert forall i :: 1 <= i < |rows| ==> rows[i] == rows[1..][i - 1];
      r
  }

  function RowAddress(w: WalletRow): string { w.address }

  /** The ledger and the patterns handled after one answer of the quick check. */
  datatype QuickState = QuickState(ledger: Ledger, handled: seq<QD.EmergencyPattern>)

  /**
   * One answer of the quick check: processed only when the wallet is among
   * the high-risk rows read at the start and that row's balance differs;
   * every pattern found in the single resulting activity is handled.
   */
  function QuickStep(s: QuickState, highRisk: seq<WalletRow>, info: Option<Blockchain.AddressInfo>, now: int, sqrt: real -> real): QuickState
  {
    if info.None? then s
    else
      var w := FirstWallet(highRisk, info.value.address);
      if w.None? || w.value.currentBalance == info.value.balance then s
      else
        var u := ProcessUpdate(Stored(s.ledger.wallets, info.value.address), info.value, now);
        var l := ApplyOne(s.ledger, info, now);
        QuickState(l, s.handled + (if u.activity.Some? then QD.RecentActivityPatterns([u.activity.value], sqrt) else []))
  }

  function QuickRun(s: QuickState, highRisk: seq<WalletRow>, infos: seq<Option<Blockchain.AddressInfo>>, now: int, sqrt: real -> real): QuickState
  {
    if infos == [] then s
    else QuickStep(QuickRun(s, highRisk, infos[..|infos| - 1], now, sqrt), highRisk, infos[|infos| - 1], now, sqrt)
  }

  /** The quick check handles every pattern it finds, but analysing one activity at a time it never finds any. */
  lemma {:induction false} QuickRunHandlesNothing(s: QuickState, highRisk: seq<WalletRow>, infos: seq<Option<Blockchain.AddressInfo>>,
                                                  now: int, sqrt: real -> real)
    ensures QuickRun(s, highRisk, infos, now, sqrt).handled == s.handled
  {
    if infos != [] {
      var m := QuickRun(s, highRisk, infos[..|infos| - 1], now, sqrt);
      QuickRunHandlesNothing(s, highRisk, infos[..|infos| - 1], now, sqrt);
      var info := infos[|infos| - 1];
      if info.Some? {
        var u := ProcessUpdate(Stored(m.ledger.wallets, info.value.address), info.value, now);
        if u.activity.Some? {
          SingleActivityRaisesNothing(u.activity.value, sqrt);
          assert m.handled + [] == m.handled;
        }
      }
    }
  }

  // ---------------------------------------------------------------------------
  // Handling a pattern

  function PatternName(t: QD.PatternType): string
  {
    match t
    case DormantWalletSurge => "dormant_wallet_surge"
    case CoordinatedMovement => "coordinated_movement"
    case HighValueConcentration => "high_value_concentration"
    case TransactionBurst => "transaction_burst"
  }

  function SeverityName(s: QD.Severity): string
  {
    match s
    case Low => "LOW"
    case Medium => "MEDIUM"
    case High => "HIGH"
    case Critical => "CRITICAL"
  }

  /** Whether an address has a row in the wallet table. */
  function InTable(wallets: map<string, WalletRow>): string -> bool
  {
    a => a in wallets
  }

  /**
   * The wallet details looked up for a surge: the stored rows of the given
   * addresses, skipping unknown ones, in the order of the addresses.
   */
  function SurgeDetails(addresses: seq<string>, wallets: map<string, WalletRow>): (ds: seq<NS.DormantWallet>)
    requires Keyed(wallets)
    ensures Seqs.Map(ds, NS.WalletAddress) == Seqs.Filter(addresses, InTable(wallets))
    ensures forall i :: 0 <= i < |ds| ==>
      ds[i].address in addresses && ds[i].address in wallets &&
      ds[i].balance == wallets[ds[i].address].currentBalance && ds[i].dormancyDays == wallets[ds[i].address].dormancyDays
  {
    if addresses == [] then []
    else
      var init := addresses[..|addresses| - 1];
      var rest := SurgeDetails(init, wallets);
      var a := addresses[|addresses| - 1];
      assert forall x :: x in init ==> x in addresses;
      assert Seqs.Filter(addresses, InTable(wallets)) ==
             Seqs.Filter(init, InTable(wallets)) + (if a in wallets then [a] else []);
      if a in wallets then
        var w := wallets[a];
        var ds := rest + [NS.DormantWallet(w.address, w.currentBalance, w.dormancyDays)];
        assert forall i :: 0 <= i < |rest| ==> ds[i] == rest[i];
        assert ds[..|ds| - 1] == rest;
        assert Seqs.Map(ds, NS.WalletAddress) == Seqs.Map(rest, NS.WalletAddress) + [a];
        ds
      else rest
  }

  /** The affected wallets a surge notice covers: the first ten. */
  function FirstTen(addresses: seq<string>): seq<string>
  {
    if |addresses| <= 10 then addresses else addresses[..10]
  }

  /**
   * `_handle_emergency_pattern`'s notification: a surge sends the quantum
   * emergency alert for exactly those of the first ten affected wallets that
   * are stored, in their order (nothing when none is), any other pattern a
   * generic alert keyed by the pattern's name.
   */
  function EmergencyNotice(p: QD.EmergencyPattern, wallets: map<string, WalletRow>): (r: Option<NS.NotificationAlert>)
    requires Keyed(wallets)
    ensures p.patternType == QD.DormantWalletSurge ==>
      var shown := FirstTen(p.affectedWallets);
      && (r.None? <==> forall i :: 0 <= i < |shown| ==> shown[i] !in wallets)
      && (r.Some? ==>
            && r.value.walletAddresses == Seqs.Filter(shown, InTable(wallets))
            && |r.value.walletAddresses| <= 10
            && (forall i :: 0 <= i < |r.value.walletAddresses| ==> r.value.walletAddresses[i] in p.affectedWallets)
            && r.value.alertType == "quantum_emergency" && r.value.severity == "CRITICAL"
            && r.value.pattern == Some("dormant_wallet_surge"))
    ensures p.patternType != QD.DormantWalletSurge ==>
      r.Some? && r.value.walletAddresses == p.affectedWallets && r.value.totalValue == p.totalValue &&
      r.value.alertType == PatternName(p.patternType) && r.value.pattern == Some(PatternName(p.patternType)) &&
      r.value.severity == SeverityName(p.severity)
  {
    if p.patternType == QD.DormantWalletSurge then
      var shown := FirstTen(p.affectedWallets);
      assert forall x :: x in shown ==> x in p.affectedWallets;
      var ds := SurgeDetails(shown, wallets);
      Seqs.FilterKeeps(shown, InTable(wallets));
      assert ds == [] <==> Seqs.Map(ds, NS.WalletAddress) == [];
      NS.QuantumEmergencyAlert(ds)
    else
      Some(NS.NotificationAlert(PatternName(p.patternType), SeverityName(p.severity), p.affectedWallets, p.totalValue,
                                Some(PatternName(p.patternType))))
  }

  // ---------------------------------------------------------------------------
  // The service

  class MonitoringService {
    var monitoredAddresses: set<string>
    var wallets: map<string, WalletRow>
    var transactions: seq<TransactionRecord>
    var isRunning: bool

    /** A service over the given wallet table, with nothing monitored yet and not running. */
    constructor(table: map<string, WalletRow>)
      ensures monitoredAddresses == {} && wallets == table && transactions == [] && !isRunning
    {
      monitoredAddresses := {};
      wallets := table;
      transactions := [];
      isRunning := false;
    }

    function Contents(): Ledger
      reads this
    {
      Ledger(wallets, transactions, [])
    }

    /** `_process_address_update` on the tables. */
    method ProcessAddressUpdate(info: Blockchain.AddressInfo, now: int) returns (activity: Option<QD.WalletActivity>)
      requires Keyed(wallets)
      modifies this
      ensures var u := ProcessUpdate(Stored(old(wallets), info.address), info, now);
        && wallets == old(wallets)[info.address := u.wallet]
        && transactions == old(transactions) + OptionSeq(u.transaction)
        && activity == u.activity
      ensures Keyed(wallets)
      ensures monitoredAddresses == old(monitoredAddresses) && isRunning == old(isRunning)
    {
      var wallet: WalletRow;
      if info.address in wallets {
        wallet := wallets[info.address];
      } else {
        wallet := NewWalletRecord(info);
        wallets := wallets[info.address := wallet];
      }
      if wallet.currentBalance != info.balance {
        var change := info.balance - wallet.currentBalance;
        var transaction := TransactionRecord(
          wallet.address, "pending", now, Abs(change), if change < 0 then "out" else "in",
          IsAnomalousAsWritten(wallet.currentBalance, wallet.dormancyDays, change));
        transactions := transactions + [transaction];
        var updated := wallet.(currentBalance := info.balance, lastActivity := Some(now), transactionCount := info.transactionCount);
        wallets := wallets[info.address := updated];
        // `last_activity` was just set to `now`, so the dormancy measured from it is 0.
        var dormancyDays := 0;
        var vulnerabilityType := if wallet.vulnerabilityType.Some? then wallet.vulnerabilityType.value else "";
        return Some(QD.WalletActivity(wallet.address, now, Abs(change), info.balance, dormancyDays, Some(now), vulnerabilityType));
      }
      return None;
    }

    /** The answers of one batch applied in order, each activity appended to `activities`. */
    method ApplyAnswers(batch: seq<Option<Blockchain.AddressInfo>>, now: int, activities: seq<QD.WalletActivity>)
      returns (found: seq<QD.WalletActivity>)
      requires Keyed(wallets)
      modifies this
      ensures Ledger(wallets, transactions, found) == ApplyUpdates(Ledger(old(wallets), old(transactions), activities), batch, now)
      ensures Keyed(wallets)
      ensures monitoredAddresses == old(monitoredAddresses) && isRunning == old(isRunning)
    {
      ghost var start := Ledger(wallets, transactions, activities);
      found := activities;
      for j := 0 to |batch|
        invariant Ledger(wallets, transactions, found) == ApplyUpdates(start, batch[..j], now)
        invariant Keyed(wallets)
        invariant monitoredAddresses == old(monitoredAddresses) && isRunning == old(isRunning)
      {
        assert batch[..j + 1][..j] == batch[..j];
        if batch[j].Some? {
          var activity := ProcessAddressUpdate(batch[j].value, now);
          found := found + OptionSeq(activity);
        }
      }
      assert batch[..|batch|] == batch;
    }

    /** The batch loop of `monitor_all_addresses`: request each chunk in turn, apply its answers, stop at the first request that raises. */
    method ApplyChunks(chunks: seq<seq<string>>,
                       fetch: seq<string> -> Result<seq<Option<Blockchain.AddressInfo>>, string>, now: int)
      returns (activities: seq<QD.WalletActivity>, failed: bool)
      requires Keyed(wallets)
      modifies this
      ensures var f := FetchAll(chunks, fetch);
        var l := ApplyUpdates(old(Contents()), f.infos, now);
        && wallets == l.wallets && transactions == l.transactions && activities == l.activities && failed == f.failed
      ensures Keyed(wallets)
      ensures monitoredAddresses == old(monitoredAddresses) && isRunning == old(isRunning)
    {
      ghost var start := Contents();
      ghost var infos: seq<Option<Blockchain.AddressInfo>> := [];
      activities := [];
      for i := 0 to |chunks|
        invariant FetchAll(chunks, fetch) == Prefixed(infos, FetchAll(chunks[i..], fetch))
        invariant Ledger(wallets, transactions, activities) == ApplyUpdates(start, infos, now)
        invariant Keyed(wallets)
        invariant monitoredAddresses == old(monitoredAddresses) && isRunning == old(isRunning)
      {
        var answer := fetch(chunks[i]);
        if answer.Err? {
          assert chunks[i..][0] == chunks[i];
          assert infos + [] == infos;
          return activities, true;
        }
        var batch := answer.value;
        activities := ApplyAnswers(batch, now, activities);
        ApplyUpdatesConcat(start, infos, batch, now);
        FetchStep(chunks, i, fetch, infos);
        infos := infos + batch;
      }
      assert chunks[|chunks|..] == [];
      assert infos + [] == infos;
      failed := false;
    }

    /**
     * `monitor_all_addresses`: the monitored addresses, each listed once in
     * some order, are fetched in consecutive batches of `batch_size`; every
     * answer is applied in order and its activity collected. A batch request that
     * raises ends the cycle before any analysis. Otherwise, when there were
     * activities, the HIGH and CRITICAL patterns found in them are the ones
     * handed on.
     */
    method MonitorAllAddresses(addresses: seq<string>,
                               fetch: seq<string> -> Result<seq<Option<Blockchain.AddressInfo>>, string>,
                               now: int, sqrt: real -> real)
      returns (activities: seq<QD.WalletActivity>, urgent: seq<QD.EmergencyPattern>)
      requires Keyed(wallets)
      requires forall a :: a in addresses <==> a in monitoredAddresses
      requires |addresses| == |monitoredAddresses|
      modifies this
      ensures var f := FetchAll(Seqs.Chunks(addresses, BatchSize), fetch);
        var l := ApplyUpdates(old(Contents()), f.infos, now);
        && wallets == l.wallets && transactions == l.transactions && activities == l.activities
        && urgent == (if f.failed || activities == [] then []
                      else Seqs.Filter(QD.RecentActivityPatterns(activities, sqrt), IsUrgent))
      ensures Keyed(wallets)
      ensures monitoredAddresses == old(monitoredAddresses) && isRunning == old(isRunning)
    {
      var failed;
      activities, failed := ApplyChunks(Seqs.Chunks(addresses, BatchSize), fetch, now);
      urgent := [];
      if failed {
        return;
      }
      if activities != [] {
        var patterns := QD.AnalyzeRecentActivity(activities, sqrt);
        urgent := UrgentPatterns(patterns);
      }
    }

    /**
     * `start`: a service already running is left alone; otherwise it is
     * marked running and one monitoring cycle is run at once.
     */
    method Start(addresses: seq<string>,
                 fetch: seq<string> -> Result<seq<Option<Blockchain.AddressInfo>>, string>,
                 now: int, sqrt: real -> real)
      returns (started: bool, activities: seq<QD.WalletActivity>, urgent: seq<QD.EmergencyPattern>)
      requires Keyed(wallets)
      requires forall a :: a in addresses <==> a in monitoredAddresses
      requires |addresses| == |monitoredAddresses|
      modifies this
      ensures started <==> !old(isRunning)
      ensures isRunning && monitoredAddresses == old(monitoredAddresses) && Keyed(wallets)
      ensures !started ==> wallets == old(wallets) && transactions == old(transactions) && activities == [] && urgent == []
      ensures started ==>
        var f := FetchAll(Seqs.Chunks(addresses, BatchSize), fetch);
        var l := ApplyUpdates(old(Contents()), f.infos, now);
        && wallets == l.wallets && transactions == l.transactions && activities == l.activities
        && urgent == (if f.failed || activities == [] then []
                      else Seqs.Filter(QD.RecentActivityPatterns(activities, sqrt), IsUrgent))
    {
      if isRunning {
        return false, [], [];
      }
      isRunning := true;
      started := true;
      activities, urgent := MonitorAllAddresses(addresses, fetch, now, sqrt);
    }

    /** `stop`: a running service is marked stopped; the tables are kept. */
    method Stop()
      modifies this
      ensures !isRunning
      ensures wallets == old(wallets) && transactions == old(transactions) && monitoredAddresses == old(monitoredAddresses)
    {
      if !isRunning {
        return;
      }
      isRunning := false;
    }

    /** One answer of the quick check, with the patterns handled so far and, as a ghost, the activities so far. */
    method QuickAnswer(highRisk: seq<WalletRow>, info: Option<Blockchain.AddressInfo>, now: int, sqrt: real -> real,
                       handled: seq<QD.EmergencyPattern>, ghost activities: seq<QD.WalletActivity>)
      returns (handled': seq<QD.EmergencyPattern>, ghost activities': seq<QD.WalletActivity>)
      requires Keyed(wallets)
      modifies this
      ensures QuickState(Ledger(wallets, transactions, activities'), handled') ==
        QuickStep(QuickState(Ledger(old(wallets), old(transactions), activities), handled), highRisk, info, now, sqrt)
      ensures Keyed(wallets)
      ensures monitoredAddresses == old(monitoredAddresses) && isRunning == old(isRunning)
    {
      handled', activities' := handled, activities;
      if info.Some? {
        var wallet := FirstWallet(highRisk, info.value.address);
        if wallet.Some? && wallet.value.currentBalance != info.value.balance {
          var activity := ProcessAddressUpdate(info.value, now);
          activities' := activities + OptionSeq(activity);
          if activity.Some? {
            var patterns := QD.AnalyzeRecentActivity([activity.value], sqrt);
            handled' := handled + patterns;
          } else {
            assert handled + [] == handled;
          }
        }
      }
    }

    /**
     * `quick_check_high_risk`, given the high-risk rows read at its start:
     * one batch request for their addresses (if it raises, nothing more
     * happens), then each answered wallet whose row shows another balance is
     * processed and every pattern of its activity is handled.
     */
    method QuickCheckHighRisk(highRisk: seq<WalletRow>,
                              fetch: seq<string> -> Result<seq<Option<Blockchain.AddressInfo>>, string>,
                              now: int, sqrt: real -> real)
      returns (handled: seq<QD.EmergencyPattern>)
      requires Keyed(wallets)
      modifies this
      ensures highRisk == [] || fetch(Seqs.Map(highRisk, RowAddress)).Err? ==>
        wallets == old(wallets) && transactions == old(transactions) && handled == []
      ensures highRisk != [] && fetch(Seqs.Map(highRisk, RowAddress)).Ok? ==>
        var q := QuickRun(QuickState(old(Contents()), []), highRisk, fetch(Seqs.Map(highRisk, RowAddress)).value, now, sqrt);
        wallets == q.ledger.wallets && transactions == q.ledger.transactions && handled == q.handled
      ensures Keyed(wallets)
      ensures monitoredAddresses == old(monitoredAddresses) && isRunning == old(isRunning)
    {
      handled := [];
      if highRisk == [] {
        return;
      }
      var addresses := Seqs.Map(highRisk, RowAddress);
      var answer := fetch(addresses);
      if answer.Err? {
        return;
      }
      var infos := answer.value;
      ghost var start := QuickState(Contents(), []);
      ghost var activities: seq<QD.WalletActivity> := [];
      for j := 0 to |infos|
        invariant QuickState(Ledger(wallets, transactions, activities), handled) == QuickRun(start, highRisk, infos[..j], now, sqrt)
        invariant Keyed(wallets)
        invariant monitoredAddresses == old(monitoredAddresses) && isRunning == old(isRunning)
      {
        assert infos[..j + 1][..j] == infos[..j];
        handled, activities := QuickAnswer(highRisk, infos[j], now, sqrt, handled, activities);
      }
      assert infos[..|infos|] == infos;
    }
  }

  /** The filter of `monitor_all_addresses`: the HIGH and CRITICAL patterns, in order. */
  method UrgentPatterns(patterns: seq<QD.EmergencyPattern>) returns (urgent: seq<QD.EmergencyPattern>)
    ensures urgent == Seqs.Filter(patterns, IsUrgent)
  {
    urgent := [];
    for k := 0 to |patterns|
      invariant urgent == Seqs.Filter(patterns[..k], IsUrgent)
    {
      assert patterns[..k + 1][..k] == patterns[..k];
      if patterns[k].severity == QD.High || patterns[k].severity == QD.Critical {
        urgent := urgent + [patterns[k]];
      }
    }
    assert patterns[..|patterns|] == patterns;
  }
}
