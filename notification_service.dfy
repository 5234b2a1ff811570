/**
 * The alert gate of `notification_service.py`: a map from alert key to the
 * time the key was last sent, which suppresses a repeat within the
 * cooldown, and the webhook's sliding-window limiter, which keeps at most
 * `max_requests` send times of the last minute in a bounded deque.
 *
 * Wall-clock time (`datetime.utcnow()`) is an integer number of seconds and
 * the limiter's clock (`time.time()`) a real number of seconds; both are
 * parameters. So is the webhook's answer. The Discord embed is not modelled.
 */
module NotificationService {
  import opened Wrappers
  import opened Text
  import Seqs
  import Settings

  /** The fields of `NotificationAlert` that the gate and the callers' choices depend on. */
  datatype NotificationAlert = NotificationAlert(
    alertType: string, severity: string, walletAddresses: seq<string>, totalValue: int, pattern: Option<string>)

  /** How an f-string renders the optional pattern. */
  function PatternText(p: Option<string>): string
  {
    if p.Some? then p.value else "None"
  }

  /** `f"{alert.alert_type}:{alert.pattern}:{len(alert.wallet_addresses)}"`. */
  function AlertKey(alert: NotificationAlert): string
  {
    alert.alertType + ":" + PatternText(alert.pattern) + ":" + Decimal(|alert.walletAddresses|)
  }

  /** The key written as the three fields joined by `:`. */
  lemma AlertKeyJoin(alert: NotificationAlert)
    ensures AlertKey(alert) == Join([alert.alertType, PatternText(alert.pattern), Decimal(|alert.walletAddresses|)], ':')
  {
    var t, p, d := alert.alertType, PatternText(alert.pattern), Decimal(|alert.walletAddresses|);
    assert [t, p, d][1..] == [p, d];
    assert [p, d][1..] == [d];
    assert Join([p, d], ':') == p + [':'] + d;
    assert Join([t, p, d], ':') == t + [':'] + (p + [':'] + d);
    assert ":" == [':'];
  }

  /**
   * For types and patterns without a `:`, two alerts share a key exactly
   * when they have the same type, the same rendered pattern (so a missing
   * pattern and the text "None" collide) and the same number of wallets,
   * whichever wallets those are.
   */
  lemma AlertKeyIff(a: NotificationAlert, b: NotificationAlert)
    requires ':' !in a.alertType && ':' !in PatternText(a.pattern)
    requires ':' !in b.alertType && ':' !in PatternText(b.pattern)
    ensures AlertKey(a) == AlertKey(b) <==>
      a.alertType == b.alertType && PatternText(a.pattern) == PatternText(b.pattern) &&
      |a.walletAddresses| == |b.walletAddresses|
  {
    var pa := [a.alertType, PatternText(a.pattern), Decimal(|a.walletAddresses|)];
    var pb := [b.alertType, PatternText(b.pattern), Decimal(|b.walletAddresses|)];
    AlertKeyJoin(a);
    AlertKeyJoin(b);
    SplitJoin(pa, ':');
    SplitJoin(pb, ':');
    DecimalInjective(|a.walletAddresses|, |b.walletAddresses|);
    if AlertKey(a) == AlertKey(b) {
      assert pa == pb;
      assert pa[2] == pb[2];
    }
  }

  // ----- The cooldown gate -----

  datatype GateStep = GateStep(send: bool, recent: map<string, int>)

  /** `_should_send_alert` on the map of last-sent times: suppress within the cooldown, else record `now`. */
  function Gate(recent: map<string, int>, key: string, now: int): GateStep
  {
    if key in recent && now - recent[key] < Settings.AlertCooldownSeconds then GateStep(false, recent)
    else GateStep(true, recent[key := now])
  }

  /** An alert offered to the gate: its key and the time it was offered. */
  datatype AlertEvent = AlertEvent(key: string, time: int)

  /** The map after offering the events in order. */
  function GateRun(recent: map<string, int>, events: seq<AlertEvent>): map<string, int>
  {
    if events == [] then recent
    else
      var last := events[|events| - 1];
      Gate(GateRun(recent, events[..|events| - 1]), last.key, last.time).recent
  }

  /** Whether the `i`-th event of the run was sent. */
  function SentAt(recent: map<string, int>, events: seq<AlertEvent>, i: int): bool
    requires 0 <= i < |events|
  {
    Gate(GateRun(recent, events[..i]), events[i].key, events[i].time).send
  }

  ghost predicate Chronological(events: seq<AlertEvent>)
  {
    forall i, j :: 0 <= i < j < |events| ==> events[i].time <= events[j].time
  }

  /** After a send, the key stays recorded at that time or a later one. */
  lemma {:induction false} RecordedSince(recent: map<string, int>, events: seq<AlertEvent>, i: int, j: int)
    requires 0 <= i < j <= |events| && Chronological(events) && SentAt(recent, events, i)
    ensures events[i].key in GateRun(recent, events[..j])
    ensures GateRun(recent, events[..j])[events[i].key] >= events[i].time
    decreases j
  {
    assert events[..j][..j - 1] == events[..j - 1];
    if j > i + 1 {
      RecordedSince(recent, events, i, j - 1);
    }
  }

  /**
   * Along a run in time order, two sends of the same key are at least the
   * cooldown apart: a repeat within the cooldown is suppressed, and a
   * suppressed repeat does not extend the cooldown.
   */
  lemma CooldownSpacing(recent: map<string, int>, events: seq<AlertEvent>, i: int, j: int)
    requires 0 <= i < j < |events| && Chronological(events)
    requires SentAt(recent, events, i) && SentAt(recent, events, j) && events[i].key == events[j].key
    ensures events[j].time - events[i].time >= Settings.AlertCooldownSeconds
  {
    RecordedSince(recent, events, i, j);
  }

  /** A key that was sent is sent again as soon as the cooldown has passed: the comparison is strict. */
  lemma ResentAfterCooldown(recent: map<string, int>, key: string, t: int, later: int)
    requires Gate(recent, key, t).send && later - t >= Settings.AlertCooldownSeconds
    ensures Gate(Gate(recent, key, t).recent, key, later).send
  {
  }

  // ----- The webhook limiter -----

  /** The deque after `popleft` while the oldest time is before `cutoff`. */
  function DropOld(times: seq<real>, cutoff: real): (kept: seq<real>)
    ensures |kept| <= |times|
  {
    if times != [] && times[0] < cutoff then DropOld(times[1..], cutoff) else times
  }

  /** Eviction keeps the newest part of the deque and drops exactly a front run of times before the cutoff. */
  lemma {:induction false} DropOldShape(times: seq<real>, cutoff: real)
    ensures var kept := DropOld(times, cutoff);
      kept == times[|times| - |kept|..] && (kept != [] ==> kept[0] >= cutoff) &&
      forall k :: 0 <= k < |times| - |kept| ==> times[k] < cutoff
  {
    if times != [] && times[0] < cutoff {
      DropOldShape(times[1..], cutoff);
      var kept := DropOld(times, cutoff);
      forall k | 0 <= k < |times| - |kept| ensures times[k] < cutoff {
        if k > 0 {
          assert times[k] == times[1..][k - 1];
        }
      }
    }
  }

  /** `60 - (now - oldest) + 0.1` when the deque is full, else no wait. */
  function WaitTime(times: seq<real>, now: real, maxRequests: nat): real
  {
    if 0 < maxRequests <= |times| then 60.0 - (now - times[0]) + 0.1 else 0.0
  }

  /** `deque.append` on a deque bounded by `maxRequests`: a full deque drops its oldest entry. */
  function Append(times: seq<real>, x: real, maxRequests: nat): (r: seq<real>)
    requires 0 < maxRequests && |times| <= maxRequests
    ensures 0 < |r| <= maxRequests && r[|r| - 1] == x
  {
    if |times| < maxRequests then times + [x] else times[1..] + [x]
  }

  datatype Admission = Admission(times: seq<real>, stamp: real)

  /**
   * One `acquire`: evict the times before `now - 60`, sleep out the wait if
   * the window is full, and append the time read after the sleep. The clock
   * read after `asyncio.sleep(w)` shows `now + w + overshoot`.
   */
  function Admit(times: seq<real>, now: real, overshoot: real, maxRequests: nat): (a: Admission)
    requires 0 < maxRequests && |times| <= maxRequests
    ensures |a.times| <= maxRequests
  {
    var kept := DropOld(times, now - 60.0);
    var wait := WaitTime(kept, now, maxRequests);
    var stamp := if wait > 0.0 then now + wait + overshoot else now;
    Admission(Append(kept, stamp, maxRequests), stamp)
  }

  /**
   * What a run of admissions keeps: the deque holds the latest grants, and
   * every grant among the latest `maxRequests` that the deque no longer
   * holds was more than a minute before `t`.
   */
  ghost predicate WindowInv(window: seq<real>, grants: seq<real>, t: real, maxRequests: nat)
  {
    |window| <= maxRequests && |window| <= |grants| && window == grants[|grants| - |window|..] &&
    forall k :: 0 <= k < |grants| - |window| && |grants| - maxRequests <= k ==> grants[k] < t - 60.0
  }

  /** One admission keeps the invariant and grants more than a minute after the grant `maxRequests` before it. */
  lemma AdmitStep(window: seq<real>, grants: seq<real>, t: real, maxRequests: nat, now: real, overshoot: real)
    requires maxRequests > 0 && WindowInv(window, grants, t, maxRequests)
    requires now >= t && overshoot >= 0.0
    ensures var a := Admit(window, now, overshoot, maxRequests);
      WindowInv(a.times, grants + [a.stamp], now, maxRequests) && a.stamp >= now &&
      (|grants| >= maxRequests ==> a.stamp - grants[|grants| - maxRequests] > 60.0)
  {
    DropOldShape(window, now - 60.0);
    AdmitWindow(window, grants, t, maxRequests, now, overshoot);
    AdmitSpacing(window, grants, t, maxRequests, now, overshoot);
  }

  /** The deque after an admission is the newest part of the grants, and what it lost is over a minute old. */
  lemma AdmitWindow(window: seq<real>, grants: seq<real>, t: real, maxRequests: nat, now: real, overshoot: real)
    requires maxRequests > 0 && WindowInv(window, grants, t, maxRequests)
    requires now >= t
    requires var kept := DropOld(window, now - 60.0);
      kept == window[|window| - |kept|..] && forall k :: 0 <= k < |window| - |kept| ==> window[k] < now - 60.0
    ensures var a := Admit(window, now, overshoot, maxRequests);
      WindowInv(a.times, grants + [a.stamp], now, maxRequests)
  {
    var kept := DropOld(window, now - 60.0);
    var a := Admit(window, now, overshoot, maxRequests);
    var g := grants + [a.stamp];
    assert kept == grants[|grants| - |kept|..];
    if |kept| < maxRequests {
      assert a.times == kept + [a.stamp];
    } else {
      assert a.times == kept[1..] + [a.stamp];
    }
    assert a.times == g[|g| - |a.times|..];
    forall k | 0 <= k < |g| - |a.times| && |g| - maxRequests <= k
      ensures g[k] < now - 60.0
    {
      assert g[k] == grants[k];
      if k >= |grants| - |window| {
        assert grants[k] == window[k - (|grants| - |window|)];
      }
    }
  }

  /** The grant of an admission is at `now` or later, and more than a minute after the grant `maxRequests` before it. */
  lemma AdmitSpacing(window: seq<real>, grants: seq<real>, t: real, maxRequests: nat, now: real, overshoot: real)
    requires maxRequests > 0 && WindowInv(window, grants, t, maxRequests)
    requires now >= t && overshoot >= 0.0
    requires var kept := DropOld(window, now - 60.0);
      kept == window[|window| - |kept|..] && (kept != [] ==> kept[0] >= now - 60.0) &&
      forall k :: 0 <= k < |window| - |kept| ==> window[k] < now - 60.0
    ensures var a := Admit(window, now, overshoot, maxRequests);
      a.stamp >= now && (|grants| >= maxRequests ==> a.stamp - grants[|grants| - maxRequests] > 60.0)
  {
    var kept := DropOld(window, now - 60.0);
    var a := Admit(window, now, overshoot, maxRequests);
    if |grants| >= maxRequests {
      var k := |grants| - maxRequests;
      if |kept| < maxRequests {
        if k >= |grants| - |window| {
          assert grants[k] == window[k - (|grants| - |window|)];
        }
        assert grants[k] < now - 60.0;
      } else {
        assert kept[0] == window[|window| - |kept|];
        assert kept[0] == grants[k];
      }
    }
  }

  /** A call to `acquire`: the clock it reads first and the overshoot of its sleep. */
  datatype AcquireCall = AcquireCall(now: real, overshoot: real)

  datatype LimiterRun = LimiterRun(window: seq<real>, grants: seq<real>)

  /** The deque and the appended times after the calls, from an empty deque. */
  function RunLimiter(calls: seq<AcquireCall>, maxRequests: nat): (r: LimiterRun)
    requires maxRequests > 0
    ensures |r.window| <= maxRequests && |r.grants| == |calls|
  {
    if calls == [] then LimiterRun([], [])
    else
      var before := RunLimiter(calls[..|calls| - 1], maxRequests);
      var call := calls[|calls| - 1];
      var a := Admit(before.window, call.now, call.overshoot, maxRequests);
      LimiterRun(a.times, before.grants + [a.stamp])
  }

  /** Calls that read a clock that never goes back, and sleeps that never end early. */
  ghost predicate WellTimed(calls: seq<AcquireCall>)
  {
    (forall i, j :: 0 <= i < j < |calls| ==> calls[i].now <= calls[j].now) &&
    (forall i :: 0 <= i < |calls| ==> calls[i].overshoot >= 0.0)
  }

  /** Each grant comes more than 60 seconds after the grant `maxRequests` places before it. */
  ghost predicate Spaced(grants: seq<real>, maxRequests: nat)
  {
    forall i :: maxRequests <= i < |grants| ==> grants[i] - grants[i - maxRequests] > 60.0
  }

  lemma SpacedSnoc(grants: seq<real>, s: real, maxRequests: nat)
    requires maxRequests > 0 && Spaced(grants, maxRequests)
    requires |grants| >= maxRequests ==> s - grants[|grants| - maxRequests] > 60.0
    ensures Spaced(grants + [s], maxRequests)
  {
    var g := grants + [s];
    forall i | maxRequests <= i < |g| ensures g[i] - g[i - maxRequests] > 60.0 {
      if i < |grants| {
        assert g[i] == grants[i] && g[i - maxRequests] == grants[i - maxRequests];
      }
    }
  }

  lemma WellTimedInit(calls: seq<AcquireCall>)
    requires calls != [] && WellTimed(calls)
    ensures WellTimed(calls[..|calls| - 1])
    ensures |calls| > 1 ==> calls[|calls| - 2].now <= calls[|calls| - 1].now
  {
    var init := calls[..|calls| - 1];
    forall i, j | 0 <= i < j < |init| ensures init[i].now <= init[j].now {
      assert init[i] == calls[i] && init[j] == calls[j];
    }
    forall i | 0 <= i < |init| ensures init[i].overshoot >= 0.0 {
      assert init[i] == calls[i];
    }
  }

  /** One admission after a run keeps the invariant and the spacing. */
  lemma RunStep(before: LimiterRun, t: real, call: AcquireCall, maxRequests: nat)
    requires maxRequests > 0 && WindowInv(before.window, before.grants, t, maxRequests) && Spaced(before.grants, maxRequests)
    requires call.now >= t && call.overshoot >= 0.0
    ensures var a := Admit(before.window, call.now, call.overshoot, maxRequests);
      WindowInv(a.times, before.grants + [a.stamp], call.now, maxRequests) && Spaced(before.grants + [a.stamp], maxRequests)
  {
    AdmitStep(before.window, before.grants, t, maxRequests, call.now, call.overshoot);
    var a := Admit(before.window, call.now, call.overshoot, maxRequests);
    SpacedSnoc(before.grants, a.stamp, maxRequests);
  }

  /**
   * The limiter's promise: along well-timed calls, each grant comes more
   * than 60 seconds after the grant `maxRequests` places before it, so no
   * 60-second span holds more than `maxRequests` grants.
   */
  lemma {:induction false} SlidingWindowBound(calls: seq<AcquireCall>, maxRequests: nat)
    requires maxRequests > 0 && WellTimed(calls)
    ensures Spaced(RunLimiter(calls, maxRequests).grants, maxRequests)
    ensures calls != [] ==> WindowInv(RunLimiter(calls, maxRequests).window, RunLimiter(calls, maxRequests).grants,
                                      calls[|calls| - 1].now, maxRequests)
  {
    if calls != [] {
      var init := calls[..|calls| - 1];
      var call := calls[|calls| - 1];
      WellTimedInit(calls);
      SlidingWindowBound(init, maxRequests);
      var before := RunLimiter(init, maxRequests);
      var t := if init == [] then call.now else init[|init| - 1].now;
      assert call.overshoot >= 0.0;
      RunStep(before, t, call, maxRequests);
    }
  }

  class WebhookLimiter {
    const maxRequests: nat
    var requestTimes: seq<real>

    predicate Valid()
      reads this
    {
      maxRequests > 0 && |requestTimes| <= maxRequests
    }

    constructor (maxRequests: nat)
      requires maxRequests > 0
      ensures Valid() && this.maxRequests == maxRequests && requestTimes == []
    {
      this.maxRequests := maxRequests;
      requestTimes := [];
    }

    method Acquire(now: real, overshoot: real)
      requires Valid()
      modifies this
      ensures Valid()
      ensures requestTimes == Admit(old(requestTimes), now, overshoot, maxRequests).times
    {
      var cutoff := now - 60.0;
      while requestTimes != [] && requestTimes[0] < cutoff
        invariant DropOld(requestTimes, cutoff) == DropOld(old(requestTimes), cutoff)
        invariant |requestTimes| <= maxRequests
        decreases |requestTimes|
      {
        requestTimes := requestTimes[1..];
      }
      var stamp := now;
      if |requestTimes| >= maxRequests {
        var oldest := requestTimes[0];
        var wait := 60.0 - (now - oldest) + 0.1;
        if wait > 0.0 {
          stamp := now + wait + overshoot;
        }
      }
      if |requestTimes| < maxRequests {
        requestTimes := requestTimes + [stamp];
      } else {
        requestTimes := requestTimes[1..] + [stamp];
      }
    }
  }

  // ----- The service -----

  /** What the webhook call came to: an HTTP status, or an exception. */
  datatype WebhookOutcome = Status(code: int) | Raised

  class DiscordNotificationService {
    var recentAlerts: map<string, int>
    const limiter: WebhookLimiter

    predicate Valid()
      reads this, limiter
    {
      limiter.Valid()
    }

    constructor ()
      ensures Valid() && recentAlerts == map[] && fresh(limiter)
      ensures limiter.maxRequests == 30 && limiter.requestTimes == []
    {
      recentAlerts := map[];
      limiter := new WebhookLimiter(30);
    }

    method ShouldSendAlert(alert: NotificationAlert, now: int) returns (send: bool)
      modifies this
      ensures GateStep(send, recentAlerts) == Gate(old(recentAlerts), AlertKey(alert), now)
    {
      var key := AlertKey(alert);
      if key in recentAlerts {
        var sinceLast := now - recentAlerts[key];
        if sinceLast < Settings.AlertCooldownSeconds {
          return false;
        }
      }
      recentAlerts := recentAlerts[key := now];
      send := true;
    }

    /**
     * `send_alert`: a suppressed alert returns false before the limiter is
     * touched; otherwise the cooldown is recorded, the limiter admits the
     * call, and the result is whether the webhook answered 204, the
     * cooldown staying recorded when it did not.
     */
    method SendAlert(alert: NotificationAlert, now: int, clock: real, overshoot: real, outcome: WebhookOutcome)
      returns (ok: bool)
      requires Valid()
      modifies this, limiter
      ensures Valid()
      ensures recentAlerts == Gate(old(recentAlerts), AlertKey(alert), now).recent
      ensures Gate(old(recentAlerts), AlertKey(alert), now).send ==>
        limiter.requestTimes == Admit(old(limiter.requestTimes), clock, overshoot, limiter.maxRequests).times &&
        (ok <==> outcome == Status(204))
      ensures !Gate(old(recentAlerts), AlertKey(alert), now).send ==>
        limiter.requestTimes == old(limiter.requestTimes) && !ok
    {
      var send := ShouldSendAlert(alert, now);
      if !send {
        return false;
      }
      limiter.Acquire(clock, overshoot);
      ok := outcome == Status(204);
    }
  }

  // ----- The alerts the service builds -----

  /** The fields of a dormant-wallet record that `send_quantum_emergency_alert` reads. */
  datatype DormantWallet = DormantWallet(address: string, balance: int, dormancyDays: int)

  function WalletAddress(w: DormantWallet): string { w.address }

  function WalletBalance(w: DormantWallet): int { w.balance }

  /**
   * The alert of `send_quantum_emergency_alert`, or `None` for an empty
   * list, where computing the average dormancy divides by zero.
   */
  function QuantumEmergencyAlert(wallets: seq<DormantWallet>): (r: Option<NotificationAlert>)
    ensures r.None? <==> wallets == []
    ensures r.Some? ==>
      |r.value.walletAddresses| == |wallets| &&
      forall i :: 0 <= i < |wallets| ==> r.value.walletAddresses[i] == wallets[i].address
    ensures r.Some? ==>
      && r.value.alertType == "quantum_emergency" && r.value.severity == "CRITICAL"
      && r.value.totalValue == Seqs.Sum(wallets, WalletBalance)
      && r.value.pattern == Some("dormant_wallet_surge")
  {
    if wallets == [] then None
    else Some(NotificationAlert("quantum_emergency", "CRITICAL", Seqs.Map(wallets, WalletAddress),
                                Seqs.Sum(wallets, WalletBalance), Some("dormant_wallet_surge")))
  }

  /** `send_anomaly_alert`'s severity: "HIGH" exactly for a statistical anomaly. */
  function AnomalySeverity(anomalyType: string): (s: string)
    ensures s == "HIGH" <==> anomalyType == "statistical_anomaly"
    ensures s == "HIGH" || s == "MEDIUM"
  {
    if anomalyType == "statistical_anomaly" then "HIGH" else "MEDIUM"
  }

  /** The alert of `send_anomaly_alert`, its value `details.get('balance', 0)`. */
  function AnomalyAlert(walletAddress: string, anomalyType: string, balance: Option<int>): NotificationAlert
  {
    NotificationAlert("wallet_anomaly", AnomalySeverity(anomalyType), [walletAddress],
                      if balance.Some? then balance.value else 0, Some(anomalyType))
  }

  /** Emergency alerts about equally many wallets share a key, whichever wallets they are. */
  lemma EmergencyAlertsShareKey(w1: seq<DormantWallet>, w2: seq<DormantWallet>)
    requires w1 != [] && w2 != [] && |w1| == |w2|
    ensures AlertKey(QuantumEmergencyAlert(w1).value) == AlertKey(QuantumEmergencyAlert(w2).value)
  {
  }

  /**
   * Anomaly alerts of one type share a key whatever the wallet: once one
   * is sent, the same anomaly on any other wallet within the cooldown is
   * suppressed.
   */
  lemma AnomalyAlertsSuppressOtherWallets(recent: map<string, int>, a1: string, a2: string, anomalyType: string,
                                          b1: Option<int>, b2: Option<int>, t1: int, t2: int)
    requires 0 <= t2 - t1 < Settings.AlertCooldownSeconds
    ensures var k1, k2 := AlertKey(AnomalyAlert(a1, anomalyType, b1)), AlertKey(AnomalyAlert(a2, anomalyType, b2));
      Gate(recent, k1, t1).send ==> !Gate(Gate(recent, k1, t1).recent, k2, t2).send
  {
  }
}
