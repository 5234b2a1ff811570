/**
 * `src/core/blockchain.py`: the token-bucket rate limiter in front of every
 * provider request, the two provider adapters' batch loops, and the manager
 * that orders the providers and falls back from one to the next.
 *
 * A provider request (HTTP and JSON decoding) is a function parameter that
 * answers with `Ok(value)` or `Err(message)`, the latter standing for
 * `BlockchainAPIError`. Clocks are passed in as `real` seconds.
 */
module Blockchain {
  import opened Wrappers
  import opened Seqs
  import opened Settings

  /** `AddressInfo`; the provider-specific metadata dictionary is not modelled. */
  datatype AddressInfo = AddressInfo(address: string, balance: int, transactionCount: int, lastActivity: Option<int>)

  /** `Transaction` as the adapters build it; their input and output lists are always empty, so they are left out. */
  datatype Transaction = Transaction(txid: string, blockTime: int, totalValue: int)

  /** One input or output of a block transaction: its `address` and `value` keys, either of which may be missing. */
  datatype TxEntry = TxEntry(address: Option<string>, value: Option<int>)

  /** A block transaction: its `hash` key, which may be missing, and its inputs and outputs. */
  datatype BlockTx = BlockTx(hash: Option<string>, inputs: seq<TxEntry>, outputs: seq<TxEntry>)

  /** The block dictionary `get_block` returns; `timestamp` may be missing. */
  datatype Block = Block(height: int, timestamp: Option<int>, transactions: seq<BlockTx>)

  // ---------------------------------------------------------------------------
  // RateLimiter (token bucket)

  /** `min(rate, tokens + elapsed * rate)`. */
  function Refill(rate: real, tokens: real, elapsed: real): (t: real)
    ensures t <= rate && t <= tokens + elapsed * rate
    ensures t == rate || t == tokens + elapsed * rate
  {
    if tokens + elapsed * rate < rate then tokens + elapsed * rate else rate
  }

  /** The outcome of one `acquire`: the new `tokens` and `last_update`, and the time the caller sleeps. */
  datatype BucketStep = BucketStep(tokens: real, lastUpdate: real, sleep: real)

  /**
   * `RateLimiter.acquire` at time `now`, as written: refill, then either take
   * a token or sleep until one would have accrued and empty the bucket.
   * `last_update` is the time before the sleep.
   */
  function AcquireStep(rate: real, tokens: real, lastUpdate: real, now: real): (s: BucketStep)
    requires rate > 0.0
    ensures 0.0 <= s.tokens <= rate && s.sleep >= 0.0 && s.lastUpdate == now
  {
    var t := Refill(rate, tokens, now - lastUpdate);
    if t < 1.0 then BucketStep(0.0, now, (1.0 - t) / rate)
    else BucketStep(t - 1.0, now, 0.0)
  }

  /**
   * The caller sleeps exactly when fewer than one token has accrued, and then
   * for exactly the time the missing fraction of a token takes to accrue; a
   * caller that does not sleep takes exactly one token.
   */
  lemma AcquireSleeps(rate: real, tokens: real, lastUpdate: real, now: real)
    requires rate > 0.0
    ensures var t := Refill(rate, tokens, now - lastUpdate);
      var s := AcquireStep(rate, tokens, lastUpdate, now);
      && (s.sleep > 0.0 <==> t < 1.0)
      && (t < 1.0 ==> t + s.sleep * rate == 1.0 && s.tokens == 0.0)
      && (t >= 1.0 ==> s.tokens == t - 1.0 && s.sleep == 0.0)
  {
    var t := Refill(rate, tokens, now - lastUpdate);
    if t < 1.0 {
      var w := (1.0 - t) / rate;
      assert w * rate == 1.0 - t;
      assert w > 0.0;
    }
  }

  /** A bucket that is not empty and has not been drained never makes its caller wait longer than one token's worth. */
  lemma AcquireSleepBounded(rate: real, tokens: real, lastUpdate: real, now: real)
    requires rate > 0.0 && tokens >= 0.0 && now >= lastUpdate
    ensures AcquireStep(rate, tokens, lastUpdate, now).sleep <= 1.0 / rate
  {
    var t := Refill(rate, tokens, now - lastUpdate);
    assert (now - lastUpdate) * rate >= 0.0;
    if t < 1.0 {
      assert 1.0 - t <= 1.0;
      assert (1.0 - t) / rate <= 1.0 / rate by {
        ScaleDown(1.0 - t, 1.0, rate);
      }
    }
  }

  lemma ScaleDown(x: real, y: real, c: real)
    requires c > 0.0 && x <= y
    ensures x / c <= y / c
  {
    assert (y - x) / c >= 0.0;
    assert y / c - x / c == (y - x) / c;
  }

  /** `RateLimiter`: a token bucket holding at most `rate` tokens, refilled at `rate` tokens per second. */
  class RateLimiter {
    const rate: real
    var tokens: real
    var lastUpdate: real

    ghost predicate Valid()
      reads this
    {
      rate > 0.0 && 0.0 <= tokens <= rate
    }

    /** A new limiter starts full, at the monotonic time `now`. */
    constructor (rate: real, now: real)
      requires rate > 0.0
      ensures Valid() && this.rate == rate && tokens == rate && lastUpdate == now
    {
      this.rate := rate;
      tokens := rate;
      lastUpdate := now;
    }

    /** `acquire` at the monotonic time `now`; the sleep is returned instead of performed. */
    method Acquire(now: real) returns (sleep: real)
      requires Valid()
      modifies this
      ensures Valid()
      ensures BucketStep(tokens, lastUpdate, sleep) == AcquireStep(rate, old(tokens), old(lastUpdate), now)
    {
      var elapsed := now - lastUpdate;
      tokens := Refill(rate, tokens, elapsed);
      lastUpdate := now;
      sleep := 0.0;
      if tokens < 1.0 {
        sleep := (1.0 - tokens) / rate;
        tokens := 0.0;
      } else {
        tokens := tokens - 1.0;
      }
    }
  }

  /**
   * The evidently intended step: after a sleep the bucket is empty at the
   * time the caller wakes, so `last_update` is the time of the grant.
   */
  function CorrectedAcquireStep(rate: real, tokens: real, lastUpdate: real, now: real): (s: BucketStep)
    requires rate > 0.0
    ensures 0.0 <= s.tokens <= rate && s.sleep >= 0.0 && s.lastUpdate == now + s.sleep
  {
    var t := Refill(rate, tokens, now - lastUpdate);
    if t < 1.0 then
      var w := (1.0 - t) / rate;
      assert w > 0.0 by { assert w * rate == 1.0 - t; }
      BucketStep(0.0, now + w, w)
    else BucketStep(t - 1.0, now, 0.0)
  }

  /** The intended step at a fixed positive rate, as a function of the bucket and the call time. */
  function CorrectedStep(rate: real): (real, real, real) -> BucketStep
    requires rate > 0.0
  {
    (tokens: real, lastUpdate: real, now: real) => CorrectedAcquireStep(rate, tokens, lastUpdate, now)
  }

  /** The step as written at a fixed positive rate, as a function of the bucket and the call time. */
  function AsWrittenStep(rate: real): (real, real, real) -> BucketStep
    requires rate > 0.0
  {
    (tokens: real, lastUpdate: real, now: real) => AcquireStep(rate, tokens, lastUpdate, now)
  }

  /** The bucket after acquires at the times `calls`, each taken by `step`. */
  function Run(step: (real, real, real) -> BucketStep, tokens: real, lastUpdate: real, calls: seq<real>): BucketStep
    decreases |calls|
  {
    if calls == [] then BucketStep(tokens, lastUpdate, 0.0)
    else
      var s := step(tokens, lastUpdate, calls[0]);
      Run(step, s.tokens, s.lastUpdate, calls[1..])
  }

  /**
   * Acquires issued one after another, each no earlier than the bucket's
   * `lastUpdate`, which for the intended step is the previous grant (the
   * limiter's lock serialises callers, and a caller holds it while it sleeps).
   */
  ghost predicate Serialised(step: (real, real, real) -> BucketStep, tokens: real, lastUpdate: real, calls: seq<real>)
    decreases |calls|
  {
    calls == [] ||
      (calls[0] >= lastUpdate &&
        var s := step(tokens, lastUpdate, calls[0]);
        Serialised(step, s.tokens, s.lastUpdate, calls[1..]))
  }

  /** `k` grants that take the bucket from `tokens` at `lastUpdate` to `f` are paid for by the tokens spent and the time accrued. */
  ghost predicate Paid(rate: real, tokens: real, lastUpdate: real, k: real, f: BucketStep)
  {
    k <= tokens - f.tokens + rate * (f.lastUpdate - lastUpdate)
  }

  /** One acquire at `now` by `step`. */
  function Grant(step: (real, real, real) -> BucketStep, tokens: real, lastUpdate: real, now: real): BucketStep
  {
    step(tokens, lastUpdate, now)
  }

  /** A step that keeps the bucket within `[0, rate]` and pays for the grant it makes. */
  ghost predicate PaysPerGrant(step: (real, real, real) -> BucketStep, rate: real)
  {
    forall t: real, l: real, now: real {:trigger Grant(step, t, l, now)} :: 0.0 <= t <= rate && now >= l ==>
      0.0 <= Grant(step, t, l, now).tokens <= rate && Paid(rate, t, l, 1.0, Grant(step, t, l, now))
  }

  /** One intended acquire is paid for by the tokens it consumes and the time it advances the bucket. */
  lemma CorrectedStepPaid(rate: real, tokens: real, lastUpdate: real, now: real)
    requires rate > 0.0 && now >= lastUpdate
    ensures Paid(rate, tokens, lastUpdate, 1.0, CorrectedAcquireStep(rate, tokens, lastUpdate, now))
  {
    var t := Refill(rate, tokens, now - lastUpdate);
    var s := CorrectedAcquireStep(rate, tokens, lastUpdate, now);
    assert rate * (now - lastUpdate) == (now - lastUpdate) * rate;
    if t < 1.0 {
      var w := (1.0 - t) / rate;
      assert w * rate == 1.0 - t;
      assert rate * (s.lastUpdate - lastUpdate) == rate * (now - lastUpdate) + rate * w;
    }
  }

  lemma CorrectedPaysPerGrant(rate: real)
    requires rate > 0.0
    ensures PaysPerGrant(CorrectedStep(rate), rate)
  {
    forall t: real, l: real, now: real | 0.0 <= t <= rate && now >= l
      ensures 0.0 <= Grant(CorrectedStep(rate), t, l, now).tokens <= rate && Paid(rate, t, l, 1.0, Grant(CorrectedStep(rate), t, l, now))
    {
      CorrectedStepPaid(rate, t, l, now);
    }
  }

  /** A run of serialised acquires by a step that pays per grant pays for all of its grants. */
  lemma {:induction false} RunPaid(step: (real, real, real) -> BucketStep, rate: real, tokens: real, lastUpdate: real, calls: seq<real>)
    requires PaysPerGrant(step, rate) && 0.0 <= tokens <= rate
    requires Serialised(step, tokens, lastUpdate, calls)
    ensures 0.0 <= Run(step, tokens, lastUpdate, calls).tokens <= rate
    ensures Paid(rate, tokens, lastUpdate, |calls| as real, Run(step, tokens, lastUpdate, calls))
    decreases |calls|
  {
    if calls == [] {
      PaidNothing(rate, tokens, lastUpdate);
    } else {
      var s := Grant(step, tokens, lastUpdate, calls[0]);
      RunPaid(step, rate, s.tokens, s.lastUpdate, calls[1..]);
      var g := Run(step, s.tokens, s.lastUpdate, calls[1..]);
      PaidSum(rate, tokens, s.tokens, g.tokens, lastUpdate, s.lastUpdate, g.lastUpdate, |calls[1..]| as real);
    }
  }

  lemma PaidNothing(rate: real, tokens: real, lastUpdate: real)
    ensures Paid(rate, tokens, lastUpdate, 0.0, BucketStep(tokens, lastUpdate, 0.0))
  {
    assert rate * (lastUpdate - lastUpdate) == 0.0;
  }

  /** Payments add up: one grant paid from `(t0, l0)` to `(t1, l1)` and `k` from there to `(t2, l2)`. */
  lemma PaidSum(rate: real, t0: real, t1: real, t2: real, l0: real, l1: real, l2: real, k: real)
    requires Paid(rate, t0, l0, 1.0, BucketStep(t1, l1, 0.0))
    requires Paid(rate, t1, l1, k, BucketStep(t2, l2, 0.0))
    ensures Paid(rate, t0, l0, k + 1.0, BucketStep(t2, l2, 0.0))
  {
    assert rate * (l2 - l0) == rate * (l1 - l0) + rate * (l2 - l1);
  }

  /**
   * The token-bucket guarantee of the intended limiter: `k` serialised
   * acquires starting from `tokens` at `lastUpdate` are granted no faster than
   * `tokens + rate * (last grant - lastUpdate)`.
   */
  lemma CorrectedGrantBound(rate: real, tokens: real, lastUpdate: real, calls: seq<real>)
    requires rate > 0.0 && 0.0 <= tokens <= rate
    requires Serialised(CorrectedStep(rate), tokens, lastUpdate, calls)
    ensures |calls| as real <= tokens + rate * (Run(CorrectedStep(rate), tokens, lastUpdate, calls).lastUpdate - lastUpdate)
  {
    CorrectedPaysPerGrant(rate);
    RunGrantBound(CorrectedStep(rate), rate, tokens, lastUpdate, calls);
  }

  /** Grants are bounded by the initial tokens plus the tokens accrued up to the bucket's final `lastUpdate`. */
  lemma RunGrantBound(step: (real, real, real) -> BucketStep, rate: real, tokens: real, lastUpdate: real, calls: seq<real>)
    requires PaysPerGrant(step, rate) && 0.0 <= tokens <= rate
    requires Serialised(step, tokens, lastUpdate, calls)
    ensures |calls| as real <= tokens + rate * (Run(step, tokens, lastUpdate, calls).lastUpdate - lastUpdate)
  {
    RunPaid(step, rate, tokens, lastUpdate, calls);
  }

  /**
   * As written, a limiter of rate 1 that starts full grants five back-to-back
   * acquires (each issued when the previous one is granted, at 0, 0, 1, 1, 2)
   * by time 2, where a token bucket allows at most `1 + 1 * 2 = 3`: the sleep
   * is credited again at the next refill because `last_update` is the time
   * before the sleep.
   */
  lemma AsWrittenExceedsRate()
    ensures AcquireStep(1.0, 1.0, 0.0, 0.0) == BucketStep(0.0, 0.0, 0.0)
    ensures AcquireStep(1.0, 0.0, 0.0, 0.0) == BucketStep(0.0, 0.0, 1.0)
    ensures AcquireStep(1.0, 0.0, 0.0, 1.0) == BucketStep(0.0, 1.0, 0.0)
    ensures AcquireStep(1.0, 0.0, 1.0, 1.0) == BucketStep(0.0, 1.0, 1.0)
    ensures AcquireStep(1.0, 0.0, 1.0, 2.0) == BucketStep(0.0, 2.0, 0.0)
  {
    AcquireAtRateOne(1.0, 0.0, 0.0);
    AcquireAtRateOne(0.0, 0.0, 0.0);
    AcquireAtRateOne(0.0, 0.0, 1.0);
    AcquireAtRateOne(0.0, 1.0, 1.0);
    AcquireAtRateOne(0.0, 1.0, 2.0);
  }

  /** One as-written acquire at rate 1 in front of `rest` moves the bucket by that step and keeps the run serialised. */
  lemma AsWrittenRunStep(tokens: real, lastUpdate: real, calls: seq<real>, s: BucketStep, end: real)
    requires |calls| > 0 && calls[0] >= lastUpdate
    requires s == AcquireStep(1.0, tokens, lastUpdate, calls[0])
    requires Serialised(AsWrittenStep(1.0), s.tokens, s.lastUpdate, calls[1..])
    requires Run(AsWrittenStep(1.0), s.tokens, s.lastUpdate, calls[1..]).lastUpdate == end
    ensures Serialised(AsWrittenStep(1.0), tokens, lastUpdate, calls)
    ensures Run(AsWrittenStep(1.0), tokens, lastUpdate, calls).lastUpdate == end
  {
    assert AsWrittenStep(1.0)(tokens, lastUpdate, calls[0]) == s;
  }

  /** Back-to-back calls at `x, x + 1, x + 1, x + 2, ...`: `n` pairs, each issued when the previous call is granted. */
  function Pairs(x: real, n: nat): (calls: seq<real>)
    ensures |calls| == 2 * n
    decreases n
  {
    if n == 0 then [] else [x, x + 1.0] + Pairs(x + 1.0, n - 1)
  }

  /**
   * As written, from an empty bucket updated at `x`, each pair of calls in
   * `Pairs(x, n)` is granted by time `x + 1` and leaves the bucket empty and
   * updated at `x + 1`: two grants per second at rate 1.
   */
  lemma {:induction false} AsWrittenPairsRun(x: real, n: nat)
    ensures Serialised(AsWrittenStep(1.0), 0.0, x, Pairs(x, n))
    ensures Run(AsWrittenStep(1.0), 0.0, x, Pairs(x, n)).lastUpdate == x + n as real
    decreases n
  {
    if n > 0 {
      var rest := Pairs(x + 1.0, n - 1);
      AsWrittenPairsRun(x + 1.0, n - 1);
      var calls := Pairs(x, n);
      assert calls == [x, x + 1.0] + rest;
      assert calls[1..] == [x + 1.0] + rest && calls[1..][1..] == rest;
      AcquireAtRateOne(0.0, x, x + 1.0);
      AsWrittenRunStep(0.0, x, calls[1..], BucketStep(0.0, x + 1.0, 0.0), x + 1.0 + (n - 1) as real);
      AcquireAtRateOne(0.0, x, x);
      AsWrittenRunStep(0.0, x, calls, BucketStep(0.0, x, 1.0), x + 1.0 + (n - 1) as real);
    }
  }

  /**
   * A limiter of rate 1 that starts full, called back-to-back at `0` and then
   * at `Pairs(0, n)` (for `n = 2`: at 0, 0, 1, 1, 2, the run of
   * `AsWrittenExceedsRate`), grants `2 n + 1` acquires by time `n`, more than
   * the `1 + 1 * n` the bound of `RunGrantBound` allows.
   */
  lemma AsWrittenRunOverBound(n: nat)
    requires n >= 1
    ensures var calls := [0.0] + Pairs(0.0, n);
      && Serialised(AsWrittenStep(1.0), 1.0, 0.0, calls)
      && Run(AsWrittenStep(1.0), 1.0, 0.0, calls).lastUpdate == n as real
      && |calls| as real > 1.0 + 1.0 * (Run(AsWrittenStep(1.0), 1.0, 0.0, calls).lastUpdate - 0.0)
  {
    var calls := [0.0] + Pairs(0.0, n);
    assert calls[0] == 0.0 && calls[1..] == Pairs(0.0, n);
    AsWrittenPairsRun(0.0, n);
    AcquireAtRateOne(1.0, 0.0, 0.0);
    AsWrittenRunStep(1.0, 0.0, calls, BucketStep(0.0, 0.0, 0.0), n as real);
  }

  /** Hence the step as written does not pay for each grant, which the intended step does (`CorrectedPaysPerGrant`). */
  lemma AsWrittenNotPaid()
    ensures !PaysPerGrant(AsWrittenStep(1.0), 1.0)
  {
    var calls := [0.0] + Pairs(0.0, 1);
    AsWrittenRunOverBound(1);
    if PaysPerGrant(AsWrittenStep(1.0), 1.0) {
      RunGrantBound(AsWrittenStep(1.0), 1.0, 1.0, 0.0, calls);
      assert false;
    }
  }

  /** At rate 1 the as-written step needs no scaling: the bucket holds the elapsed time, capped at one token. */
  lemma AcquireAtRateOne(tokens: real, lastUpdate: real, now: real)
    ensures var t := if tokens + (now - lastUpdate) < 1.0 then tokens + (now - lastUpdate) else 1.0;
      AcquireStep(1.0, tokens, lastUpdate, now) ==
        if t < 1.0 then BucketStep(0.0, now, 1.0 - t) else BucketStep(t - 1.0, now, 0.0)
  {
    var e := now - lastUpdate;
    assert e * 1.0 == e;
    var t := Refill(1.0, tokens, e);
    assert (1.0 - t) / 1.0 == 1.0 - t;
  }

  /** The intended limiter, from the same start and with the same back-to-back caller, grants at 0, 1 and 2 only. */
  lemma CorrectedKeepsRate()
    ensures CorrectedAcquireStep(1.0, 1.0, 0.0, 0.0) == BucketStep(0.0, 0.0, 0.0)
    ensures CorrectedAcquireStep(1.0, 0.0, 0.0, 0.0) == BucketStep(0.0, 1.0, 1.0)
    ensures CorrectedAcquireStep(1.0, 0.0, 1.0, 1.0) == BucketStep(0.0, 2.0, 1.0)
  {
    assert Refill(1.0, 1.0, 0.0) == 1.0;
    assert Refill(1.0, 0.0, 0.0) == 0.0;
  }

  // ---------------------------------------------------------------------------
  // Adapters

  datatype Provider = Blockchair | BlockCypher

  /** The class name `get_request_stats` reports. */
  function ProviderName(p: Provider): string
  {
    match p
    case Blockchair => "BlockchairAPI"
    case BlockCypher => "BlockCypherAPI"
  }

  /** The lookups of `addresses` that succeed, in input order. */
  function Successes(addresses: seq<string>, lookup: (Provider, string) -> Result<AddressInfo, string>): seq<AddressInfo>
  {
    if addresses == [] then []
    else
      var init := Successes(addresses[..|addresses| - 1], lookup);
      match lookup(BlockCypher, addresses[|addresses| - 1])
      case Ok(info) => init + [info]
      case Err(_) => init
  }

  /**
   * Every result answers one of the addresses, at most one result per
   * address and in input order; when every lookup succeeds, the results are
   * exactly the answers.
   */
  lemma {:induction false} SuccessesShape(addresses: seq<string>, lookup: (Provider, string) -> Result<AddressInfo, string>)
    ensures |Successes(addresses, lookup)| <= |addresses|
    ensures forall k :: 0 <= k < |Successes(addresses, lookup)| ==>
      exists i :: 0 <= i < |addresses| && lookup(BlockCypher, addresses[i]) == Ok(Successes(addresses, lookup)[k])
    ensures (forall i :: 0 <= i < |addresses| ==> lookup(BlockCypher, addresses[i]).Ok?) ==>
      |Successes(addresses, lookup)| == |addresses| &&
      forall i :: 0 <= i < |addresses| ==> lookup(BlockCypher, addresses[i]) == Ok(Successes(addresses, lookup)[i])
  {
    if addresses != [] {
      var init := addresses[..|addresses| - 1];
      SuccessesShape(init, lookup);
      var r, r' := Successes(addresses, lookup), Successes(init, lookup);
      forall k | 0 <= k < |r|
        ensures exists i :: 0 <= i < |addresses| && lookup(BlockCypher, addresses[i]) == Ok(r[k])
      {
        if k < |r'| {
          var i :| 0 <= i < |init| && lookup(BlockCypher, init[i]) == Ok(r'[k]);
          assert addresses[i] == init[i];
        } else {
          assert lookup(BlockCypher, addresses[|addresses| - 1]) == Ok(r[k]);
        }
      }
    }
  }

  /**
   * `BlockCypherAPI.get_addresses_batch`: one lookup per address, in order;
   * an address whose lookup fails is skipped, so the batch itself never fails.
   */
  method BlockCypherBatch(addresses: seq<string>, lookup: (Provider, string) -> Result<AddressInfo, string>)
    returns (results: seq<AddressInfo>)
    ensures results == Successes(addresses, lookup)
  {
    results := [];
    for i := 0 to |addresses|
      invariant results == Successes(addresses[..i], lookup)
    {
      assert addresses[..i + 1][..i] == addresses[..i];
      var info := lookup(BlockCypher, addresses[i]);
      if info.Ok? {
        results := results + [info.value];
      }
    }
    assert addresses[..|addresses|] == addresses;
  }

  /** Blockchair answers up to 100 addresses per request. */
  const BlockchairChunkSize: nat := 100

  /** The chunk requests in order: the first failing one fails the whole call, otherwise the answers are concatenated. */
  function ChunkedFetch(chunks: seq<seq<string>>, fetch: seq<string> -> Result<seq<AddressInfo>, string>): (r: Result<seq<AddressInfo>, string>)
  {
    if chunks == [] then Ok([])
    else
      match fetch(chunks[0])
      case Err(e) => Err(e)
      case Ok(v) =>
        match ChunkedFetch(chunks[1..], fetch)
        case Err(e) => Err(e)
        case Ok(w) => Ok(v + w)
  }

  /**
   * The chunked call succeeds exactly when every chunk request does; it then
   * returns the answers in chunk order, and otherwise the first chunk's error.
   */
  lemma {:induction false} ChunkedFetchIff(chunks: seq<seq<string>>, fetch: seq<string> -> Result<seq<AddressInfo>, string>)
    ensures ChunkedFetch(chunks, fetch).Ok? <==> forall i :: 0 <= i < |chunks| ==> fetch(chunks[i]).Ok?
    ensures ChunkedFetch(chunks, fetch).Err? ==>
      exists i :: 0 <= i < |chunks| && fetch(chunks[i]) == Err(ChunkedFetch(chunks, fetch).error) &&
        forall j :: 0 <= j < i ==> fetch(chunks[j]).Ok?
  {
    if chunks != [] {
      ChunkedFetchIff(chunks[1..], fetch);
      if fetch(chunks[0]).Ok? && ChunkedFetch(chunks[1..], fetch).Err? {
        var i :| 0 <= i < |chunks[1..]| && fetch(chunks[1..][i]) == Err(ChunkedFetch(chunks[1..], fetch).error) &&
          forall j :: 0 <= j < i ==> fetch(chunks[1..][j]).Ok?;
        assert fetch(chunks[i + 1]) == Err(ChunkedFetch(chunks, fetch).error);
        assert forall j :: 0 < j <= i ==> chunks[j] == chunks[1..][j - 1];
      }
      if forall i :: 0 <= i < |chunks| ==> fetch(chunks[i]).Ok? {
        assert forall i :: 0 <= i < |chunks[1..]| ==> chunks[1..][i] == chunks[i + 1];
      }
    }
  }

  /**
   * `BlockchairAPI.get_addresses_batch`: the addresses in consecutive chunks
   * of 100, one request per chunk; a failing request fails the whole call.
   */
  method BlockchairBatch(addresses: seq<string>, fetch: seq<string> -> Result<seq<AddressInfo>, string>)
    returns (r: Result<seq<AddressInfo>, string>)
    ensures r == ChunkedFetch(Chunks(addresses, BlockchairChunkSize), fetch)
  {
    var results := [];
    var rest := addresses;
    PrependEmpty(ChunkedFetch(Chunks(rest, BlockchairChunkSize), fetch));
    while rest != []
      invariant ChunkedFetch(Chunks(addresses, BlockchairChunkSize), fetch) ==
        Prepend(results, ChunkedFetch(Chunks(rest, BlockchairChunkSize), fetch))
      decreases |rest|
    {
      var batch := if |rest| <= BlockchairChunkSize then rest else rest[..BlockchairChunkSize];
      var next := if |rest| <= BlockchairChunkSize then [] else rest[BlockchairChunkSize..];
      ChunkedFetchStep(rest, fetch);
      var data := fetch(batch);
      if data.Err? {
        return Err(data.error);
      }
      PrependTwice(results, data.value, ChunkedFetch(Chunks(next, BlockchairChunkSize), fetch));
      results := results + data.value;
      rest := next;
    }
    r := Ok(results);
    assert results + [] == results;
    assert r == Prepend(results, Ok([]));
  }

  /** The answers gathered so far in front of the outcome of the remaining requests. */
  function Prepend(v: seq<AddressInfo>, r: Result<seq<AddressInfo>, string>): Result<seq<AddressInfo>, string>
  {
    match r
    case Err(e) => Err(e)
    case Ok(w) => Ok(v + w)
  }

  lemma PrependEmpty(r: Result<seq<AddressInfo>, string>)
    ensures Prepend([], r) == r
  {
    if r.Ok? {
      assert [] + r.value == r.value;
    }
  }

  lemma PrependTwice(u: seq<AddressInfo>, v: seq<AddressInfo>, r: Result<seq<AddressInfo>, string>)
    ensures Prepend(u, Prepend(v, r)) == Prepend(u + v, r)
  {
    if r.Ok? {
      assert u + (v + r.value) == (u + v) + r.value;
    }
  }

  /** The first request of a chunked call and the rest of it. */
  lemma ChunkedFetchStep(rest: seq<string>, fetch: seq<string> -> Result<seq<AddressInfo>, string>)
    requires rest != []
    ensures var batch := if |rest| <= BlockchairChunkSize then rest else rest[..BlockchairChunkSize];
      var next := if |rest| <= BlockchairChunkSize then [] else rest[BlockchairChunkSize..];
      ChunkedFetch(Chunks(rest, BlockchairChunkSize), fetch) ==
        match fetch(batch)
        case Err(e) => Err(e)
        case Ok(v) => Prepend(v, ChunkedFetch(Chunks(next, BlockchairChunkSize), fetch))
  {
    var next := if |rest| <= BlockchairChunkSize then [] else rest[BlockchairChunkSize..];
    var cs := Chunks(rest, BlockchairChunkSize);
    assert cs[1..] == Chunks(next, BlockchairChunkSize);
    if |rest| <= BlockchairChunkSize {
      assert ChunkedFetch([], fetch) == Ok([]);
    }
  }

  /** The result of one provider's `get_addresses_batch`. */
  function AdapterBatch(p: Provider, addresses: seq<string>, lookup: (Provider, string) -> Result<AddressInfo, string>,
                        fetch: seq<string> -> Result<seq<AddressInfo>, string>): Result<seq<AddressInfo>, string>
  {
    match p
    case BlockCypher => Ok(Successes(addresses, lookup))
    case Blockchair => ChunkedFetch(Chunks(addresses, BlockchairChunkSize), fetch)
  }

  /** `get_addresses_batch` of the provider `p`. */
  method ProviderBatch(p: Provider, addresses: seq<string>, lookup: (Provider, string) -> Result<AddressInfo, string>,
                       fetch: seq<string> -> Result<seq<AddressInfo>, string>)
    returns (r: Result<seq<AddressInfo>, string>)
    ensures r == AdapterBatch(p, addresses, lookup, fetch)
  {
    match p
    case BlockCypher =>
      var results := BlockCypherBatch(addresses, lookup);
      r := Ok(results);
    case Blockchair =>
      r := BlockchairBatch(addresses, fetch);
  }

  // ---------------------------------------------------------------------------
  // BlockchainManager

  /** The provider order: BlockCypher goes first only when it alone has an API key. */
  function ProviderOrder(blockcypherHasKey: bool, blockchairHasKey: bool): (apis: seq<Provider>)
    ensures |apis| == 2 && apis[0] != apis[1]
    ensures apis[0] == BlockCypher <==> blockcypherHasKey && !blockchairHasKey
  {
    if blockcypherHasKey && !blockchairHasKey then [BlockCypher, Blockchair]
    else if blockchairHasKey && !blockcypherHasKey then [Blockchair, BlockCypher]
    else [Blockchair, BlockCypher]
  }

  /** The first provider answer that is not an error, in list order. */
  function FirstSuccess<A, T>(apis: seq<Provider>, call: (Provider, A) -> Result<T, string>, arg: A): Option<T>
  {
    if apis == [] then None
    else
      match call(apis[0], arg)
      case Ok(v) => Some(v)
      case Err(_) => FirstSuccess(apis[1..], call, arg)
  }

  /** The fallback returns `v` exactly when some provider answers `v` and every provider before it fails. */
  lemma {:induction false} FirstSuccessIff<A, T>(apis: seq<Provider>, call: (Provider, A) -> Result<T, string>, arg: A, v: T)
    ensures FirstSuccess(apis, call, arg) == Some(v) <==>
      exists i :: 0 <= i < |apis| && call(apis[i], arg) == Ok(v) && forall j :: 0 <= j < i ==> call(apis[j], arg).Err?
    ensures FirstSuccess(apis, call, arg).None? <==> forall i :: 0 <= i < |apis| ==> call(apis[i], arg).Err?
  {
    if apis != [] {
      FirstSuccessIff(apis[1..], call, arg, v);
      assert forall i :: 0 < i < |apis| ==> apis[i] == apis[1..][i - 1];
      if FirstSuccess(apis, call, arg) == Some(v) && call(apis[0], arg).Err? {
        var i :| 0 <= i < |apis[1..]| && call(apis[1..][i], arg) == Ok(v) && forall j :: 0 <= j < i ==> call(apis[1..][j], arg).Err?;
        assert call(apis[i + 1], arg) == Ok(v);
      }
    }
  }

  /** The batch fallback: the first provider whose batch call does not fail. */
  function BatchFallback(apis: seq<Provider>, addresses: seq<string>, lookup: (Provider, string) -> Result<AddressInfo, string>,
                         fetch: seq<string> -> Result<seq<AddressInfo>, string>): Option<seq<AddressInfo>>
  {
    if apis == [] then None
    else
      match AdapterBatch(apis[0], addresses, lookup, fetch)
      case Ok(v) => Some(v)
      case Err(_) => BatchFallback(apis[1..], addresses, lookup, fetch)
  }

  /**
   * BlockCypher's batch never fails, so once it is among the providers the
   * batch fallback is never exhausted: it returns Blockchair's complete answer
   * if Blockchair comes first and succeeds, and otherwise BlockCypher's list of
   * the lookups that succeeded.
   */
  lemma {:induction false} BatchNeverExhausted(apis: seq<Provider>, addresses: seq<string>,
                                               lookup: (Provider, string) -> Result<AddressInfo, string>,
                                               fetch: seq<string> -> Result<seq<AddressInfo>, string>)
    requires BlockCypher in apis
    ensures BatchFallback(apis, addresses, lookup, fetch).Some?
    ensures BatchFallback(apis, addresses, lookup, fetch) == Some(Successes(addresses, lookup)) ||
      ChunkedFetch(Chunks(addresses, BlockchairChunkSize), fetch) == Ok(BatchFallback(apis, addresses, lookup, fetch).value)
  {
    if apis[0] != BlockCypher {
      assert BlockCypher in apis[1..];
      BatchNeverExhausted(apis[1..], addresses, lookup, fetch);
    }
  }

  /** The numbers `get_request_stats` reports. */
  datatype RequestStats = RequestStats(
    totalRequests: nat, successful: nat, failed: nat, successRate: real,
    primaryApi: string, fallbackApis: seq<string>)

  /** `BlockchainManager`: the ordered providers and the success and failure counters. */
  class BlockchainManager {
    var apis: seq<Provider>
    var successful: nat
    var failed: nat

    constructor ()
      ensures apis == [] && successful == 0 && failed == 0
    {
      apis := [];
      successful := 0;
      failed := 0;
    }

    /** `initialize`, with the two settings that decide the order; the HTTP session is not modelled. */
    method Initialize(blockcypherHasKey: bool, blockchairHasKey: bool)
      modifies this
      ensures apis == ProviderOrder(blockcypherHasKey, blockchairHasKey)
      ensures successful == old(successful) && failed == old(failed)
    {
      if blockcypherHasKey && !blockchairHasKey {
        apis := [BlockCypher, Blockchair];
      } else if blockchairHasKey && !blockcypherHasKey {
        apis := [Blockchair, BlockCypher];
      } else {
        apis := [Blockchair, BlockCypher];
      }
    }

    /** `get_address_info`: providers in order; the first answer counts one success, exhaustion one failure. */
    method GetAddressInfo(address: string, lookup: (Provider, string) -> Result<AddressInfo, string>)
      returns (r: Option<AddressInfo>)
      modifies this
      ensures apis == old(apis)
      ensures r == FirstSuccess(apis, lookup, address)
      ensures r.Some? ==> successful == old(successful) + 1 && failed == old(failed)
      ensures r.None? ==> failed == old(failed) + 1 && successful == old(successful)
    {
      for i := 0 to |apis|
        invariant unchanged(this)
        invariant FirstSuccess(apis, lookup, address) == FirstSuccess(apis[i..], lookup, address)
      {
        assert apis[i..][1..] == apis[i + 1..];
        var result := lookup(apis[i], address);
        if result.Ok? {
          successful := successful + 1;
          return Some(result.value);
        }
      }
      failed := failed + 1;
      return None;
    }

    /**
     * `get_addresses_batch`: providers in order; a success counts every
     * requested address as successful, whatever the number of results, and
     * exhaustion counts every one as failed and returns no results.
     */
    method GetAddressesBatch(addresses: seq<string>, lookup: (Provider, string) -> Result<AddressInfo, string>,
                             fetch: seq<string> -> Result<seq<AddressInfo>, string>)
      returns (r: seq<AddressInfo>)
      modifies this
      ensures apis == old(apis)
      ensures var b := BatchFallback(apis, addresses, lookup, fetch);
        && (b.Some? ==> r == b.value && successful == old(successful) + |addresses| && failed == old(failed))
        && (b.None? ==> r == [] && failed == old(failed) + |addresses| && successful == old(successful))
    {
      for i := 0 to |apis|
        invariant unchanged(this)
        invariant BatchFallback(apis, addresses, lookup, fetch) == BatchFallback(apis[i..], addresses, lookup, fetch)
      {
        assert apis[i..][1..] == apis[i + 1..];
        var result := ProviderBatch(apis[i], addresses, lookup, fetch);
        if result.Ok? {
          successful := successful + |addresses|;
          return result.value;
        }
      }
      failed := failed + |addresses|;
      return [];
    }

    /** `get_recent_transactions`: providers in order, no counter changes, no transactions on exhaustion. */
    method GetRecentTransactions(address: string, limit: int,
                                 recent: (Provider, (string, int)) -> Result<seq<Transaction>, string>)
      returns (r: seq<Transaction>)
      ensures var f := FirstSuccess(apis, recent, (address, limit));
        r == if f.Some? then f.value else []
    {
      for i := 0 to |apis|
        invariant FirstSuccess(apis, recent, (address, limit)) == FirstSuccess(apis[i..], recent, (address, limit))
      {
        assert apis[i..][1..] == apis[i + 1..];
        var result := recent(apis[i], (address, limit));
        if result.Ok? {
          return result.value;
        }
      }
      return [];
    }

    /**
     * `get_request_stats`: the total is the sum of the counters, the success
     * rate a percentage that is 0 before any request; the first provider is
     * the primary one and the rest are the fallbacks. The rounding to two
     * decimals is not modelled.
     */
    function GetRequestStats(): (s: RequestStats)
      reads this
      ensures s.totalRequests == s.successful + s.failed && s.successful == successful && s.failed == failed
      ensures 0.0 <= s.successRate <= 100.0
      ensures s.totalRequests == 0 ==> s.successRate == 0.0
      ensures s.totalRequests > 0 ==> s.successRate * s.totalRequests as real == 100.0 * successful as real
      ensures s.primaryApi == (if apis == [] then "None" else ProviderName(apis[0]))
      ensures |s.fallbackApis| == (if |apis| > 1 then |apis| - 1 else 0)
      ensures forall i :: 0 <= i < |s.fallbackApis| ==> s.fallbackApis[i] == ProviderName(apis[i + 1])
    {
      var total := successful + failed;
      var rate := if total > 0 then successful as real / total as real * 100.0 else 0.0;
      assert total > 0 ==> successful as real / total as real <= 1.0;
      RequestStats(
        total, successful, failed, rate,
        if apis == [] then "None" else ProviderName(apis[0]),
        if |apis| > 1 then ProviderNames(apis[1..]) else [])
    }

    /** `get_latest_block_height`: a placeholder height whenever some provider is configured. */
    function GetLatestBlockHeight(): (h: Option<int>)
      reads this
      ensures h.Some? <==> apis != []
      ensures h.Some? ==> h.value == PlaceholderHeight
    {
      if apis == [] then None else Some(PlaceholderHeight)
    }

    /** `get_block`: a placeholder block of the requested height, stamped `now`, with no transactions. */
    function GetBlock(height: int, now: int): (b: Option<Block>)
      reads this
      ensures b.Some? <==> apis != []
      ensures b.Some? ==> b.value.height == height && b.value.transactions == []
    {
      if apis == [] then None else Some(Block(height, Some(now), []))
    }
  }

  const PlaceholderHeight: int := 820000

  function ProviderNames(ps: seq<Provider>): (names: seq<string>)
    ensures |names| == |ps|
    ensures forall i :: 0 <= i < |ps| ==> names[i] == ProviderName(ps[i])
  {
    if ps == [] then [] else [ProviderName(ps[0])] + ProviderNames(ps[1..])
  }

  /** Once initialised, the manager has both providers, so the batch fallback never counts a failure. */
  lemma InitializedBatchNeverFails(blockcypherHasKey: bool, blockchairHasKey: bool, addresses: seq<string>,
                                   lookup: (Provider, string) -> Result<AddressInfo, string>,
                                   fetch: seq<string> -> Result<seq<AddressInfo>, string>)
    ensures BatchFallback(ProviderOrder(blockcypherHasKey, blockchairHasKey), addresses, lookup, fetch).Some?
  {
    var apis := ProviderOrder(blockcypherHasKey, blockchairHasKey);
    assert BlockCypher in apis;
    BatchNeverExhausted(apis, addresses, lookup, fetch);
  }
}
