/**
 * `src/core/address_manager.py`: recognising pay-to-public-key scripts,
 * classifying addresses as quantum-vulnerable, scoring their risk, choosing
 * which ones to monitor, and the in-memory set of tracked addresses.
 */
module AddressManager {
  import opened Wrappers
  import opened Seqs
  import opened Settings

  type byte = b: int | 0 <= b < 256

  /** Bitcoin Script `OP_CHECKSIG`. */
  const OpCheckSig: byte := 0xAC
  /** The direct-push opcodes in front of a 65-byte uncompressed and a 33-byte compressed public key. */
  const PushUncompressedKey: byte := 0x41
  const PushCompressedKey: byte := 0x21

  // ---------------------------------------------------------------------------
  // Python's bytes.fromhex and bytes.hex

  /** The ASCII whitespace `bytes.fromhex` skips in front of a digit pair. */
  predicate IsAsciiSpace(c: char)
  {
    c == ' ' || c == '\t' || c == '\n' || c == '\r' || c == '\U{B}' || c == '\U{C}'
  }

  function HexDigitValue(c: char): (v: Option<nat>)
    ensures v.Some? ==> v.value < 16
  {
    if '0' <= c <= '9' then Some(c as int - '0' as int)
    else if 'a' <= c <= 'f' then Some(c as int - 'a' as int + 10)
    else if 'A' <= c <= 'F' then Some(c as int - 'A' as int + 10)
    else None
  }

  /**
   * `bytes.fromhex(s)`: pairs of hex digits, with whitespace allowed between
   * pairs; `None` where Python raises `ValueError`.
   */
  function DecodeHex(s: string): (r: Option<seq<byte>>)
    ensures r.Some? ==> 2 * |r.value| <= |s|
  {
    if s == [] then Some([])
    else if IsAsciiSpace(s[0]) then DecodeHex(s[1..])
    else if |s| < 2 then None
    else
      match (HexDigitValue(s[0]), HexDigitValue(s[1]))
      case (Some(hi), Some(lo)) =>
        (match DecodeHex(s[2..])
         case Some(rest) => Some([16 * hi + lo] + rest)
         case None => None)
      case _ => None
  }

  function LowerHexDigit(d: nat): (c: char)
    requires d < 16
    ensures HexDigitValue(c) == Some(d) && !IsAsciiSpace(c)
  {
    if d < 10 then ('0' as int + d) as char else ('a' as int + d - 10) as char
  }

  /** `b.hex()`: two lower-case hex digits per byte. */
  function EncodeHex(b: seq<byte>): (s: string)
    ensures |s| == 2 * |b|
  {
    if b == [] then [] else [LowerHexDigit(b[0] / 16), LowerHexDigit(b[0] % 16)] + EncodeHex(b[1..])
  }

  /** Decoding what `hex()` produced gives the bytes back. */
  lemma {:induction false} HexRoundTrip(b: seq<byte>)
    ensures DecodeHex(EncodeHex(b)) == Some(b)
  {
    if b != [] {
      HexRoundTrip(b[1..]);
      var s := EncodeHex(b);
      assert s[2..] == EncodeHex(b[1..]);
      assert s[0] == LowerHexDigit(b[0] / 16) && s[1] == LowerHexDigit(b[0] % 16);
      assert 16 * (b[0] / 16) + b[0] % 16 == b[0];
      assert DecodeHex(s) == Some([16 * (b[0] / 16) + b[0] % 16] + b[1..]);
      assert b == [b[0]] + b[1..];
    }
  }

  // ---------------------------------------------------------------------------
  // P2PK scripts: <push opcode> <public key> OP_CHECKSIG

  /** The decoded-byte test of `is_p2pk_script`. */
  predicate IsP2pkBytes(script: seq<byte>)
  {
    || (|script| == 67 && script[0] == PushUncompressedKey && script[66] == OpCheckSig)
    || (|script| == 35 && script[0] == PushCompressedKey && script[34] == OpCheckSig)
  }

  /** `is_p2pk_script`: hex that does not decode is not a P2PK script. */
  function IsP2pkScript(scriptHex: string): bool
  {
    match DecodeHex(scriptHex)
    case Some(script) => IsP2pkBytes(script)
    case None => false
  }

  /** The script that pays to `key`: the push opcode for its length, the key, then `OP_CHECKSIG`. */
  function P2pkScript(key: seq<byte>): (script: seq<byte>)
    requires |key| == 65 || |key| == 33
    ensures |script| == |key| + 2
  {
    [if |key| == 65 then PushUncompressedKey else PushCompressedKey] + key + [OpCheckSig]
  }

  /** The byte-level part of `extract_public_key_from_p2pk`; note that it does not look at the last byte. */
  function ExtractKeyBytes(script: seq<byte>): (key: Option<seq<byte>>)
    ensures key.Some? ==> |key.value| == 65 || |key.value| == 33
  {
    if |script| == 67 && script[0] == PushUncompressedKey then Some(script[1..66])
    else if |script| == 35 && script[0] == PushCompressedKey then Some(script[1..34])
    else None
  }

  /** `extract_public_key_from_p2pk`: the key as lower-case hex, or `None`. */
  function ExtractPublicKeyFromP2pk(scriptHex: string): (key: Option<string>)
    ensures key.Some? ==> |key.value| == 130 || |key.value| == 66
  {
    match DecodeHex(scriptHex)
    case None => None
    case Some(script) =>
      match ExtractKeyBytes(script)
      case None => None
      case Some(k) => Some(EncodeHex(k))
  }

  /**
   * Every script `is_p2pk_script` accepts yields a key, and rebuilding the
   * script from that key gives back exactly the decoded script.
   */
  lemma P2pkRoundTrip(scriptHex: string)
    requires IsP2pkScript(scriptHex)
    ensures ExtractPublicKeyFromP2pk(scriptHex).Some?
    ensures var key := DecodeHex(ExtractPublicKeyFromP2pk(scriptHex).value);
            key.Some? && (|key.value| == 65 || |key.value| == 33)
            && DecodeHex(scriptHex) == Some(P2pkScript(key.value))
  {
    var script := DecodeHex(scriptHex).value;
    var k := ExtractKeyBytes(script).value;
    HexRoundTrip(k);
    assert script == P2pkScript(k);
  }

  /** A script built from a key of either length is recognised, and the key read back is the one it was built from. */
  lemma BuiltScriptIsP2pk(key: seq<byte>)
    requires |key| == 65 || |key| == 33
    ensures IsP2pkScript(EncodeHex(P2pkScript(key)))
    ensures ExtractPublicKeyFromP2pk(EncodeHex(P2pkScript(key))) == Some(EncodeHex(key))
  {
    var script := P2pkScript(key);
    HexRoundTrip(script);
    assert script[1..|script| - 1] == key;
  }

  // ---------------------------------------------------------------------------
  // Classification

  /** `_is_p2pkh_address`: a legacy address shape, starting with '1' and 26 to 35 characters long. */
  predicate IsP2pkhAddress(address: string)
  {
    |address| > 0 && address[0] == '1' && 26 <= |address| <= 35
  }

  /**
   * `is_address_vulnerable`: an exposed P2PK script wins; otherwise a P2PKH
   * address that has spent (so revealed its key) is a reused P2PKH; otherwise
   * the address is not vulnerable.
   */
  function IsAddressVulnerable(address: string, scriptHex: Option<string>, hasSpent: bool): (r: (bool, string))
    ensures r.0 <==> r.1 != ""
    ensures r.1 == "P2PK" <==> scriptHex.Some? && IsP2pkScript(scriptHex.value)
    ensures r.1 == "REUSED_P2PKH" <==>
              !(scriptHex.Some? && IsP2pkScript(scriptHex.value)) && IsP2pkhAddress(address) && hasSpent
    ensures r.1 in {"", "P2PK", "REUSED_P2PKH"}
  {
    if scriptHex.Some? && scriptHex.value != "" && IsP2pkScript(scriptHex.value) then (true, "P2PK")
    else if IsP2pkhAddress(address) && hasSpent then (true, "REUSED_P2PKH")
    else (false, "")
  }

  // ---------------------------------------------------------------------------
  // Risk score

  /** Balance factor of `calculate_risk_score`: only a positive balance scores; 1000/100/10 BTC are inclusive thresholds. */
  function BalancePoints(balance: int): (p: int)
    ensures balance <= 0 ==> p == 0
    ensures balance > 0 ==> 10 <= p <= 40
    ensures p == 40 <==> balance >= 1000 * SatoshisPerBtc
    ensures p == 30 <==> 100 * SatoshisPerBtc <= balance < 1000 * SatoshisPerBtc
    ensures p == 20 <==> 10 * SatoshisPerBtc <= balance < 100 * SatoshisPerBtc
    ensures p == 10 <==> 0 < balance < 10 * SatoshisPerBtc
  {
    if balance <= 0 then 0
    else if balance >= 1000 * SatoshisPerBtc then 40
    else if balance >= 100 * SatoshisPerBtc then 30
    else if balance >= 10 * SatoshisPerBtc then 20
    else 10
  }

  /** Dormancy factor: strictly more than 10, 5, 2 or 1 years (of 365 days). */
  function DormancyPoints(dormancyDays: int): (p: int)
    ensures 5 <= p <= 30
    ensures p == 30 <==> dormancyDays > 3650
    ensures p == 25 <==> 1825 < dormancyDays <= 3650
    ensures p == 20 <==> 730 < dormancyDays <= 1825
    ensures p == 15 <==> 365 < dormancyDays <= 730
    ensures p == 5 <==> dormancyDays <= 365
  {
    if dormancyDays > 3650 then 30
    else if dormancyDays > 1825 then 25
    else if dormancyDays > 730 then 20
    else if dormancyDays > 365 then 15
    else 5
  }

  /** Vulnerability factor: direct exposure 30, indirect 20, none 0. */
  function TypePoints(vulnerabilityType: string): (p: int)
    ensures 0 <= p <= 30
    ensures p == 30 <==> vulnerabilityType == "P2PK"
    ensures p == 20 <==> vulnerabilityType == "REUSED_P2PKH"
    ensures p == 0 <==> vulnerabilityType != "P2PK" && vulnerabilityType != "REUSED_P2PKH"
  {
    if vulnerabilityType == "P2PK" then 30
    else if vulnerabilityType == "REUSED_P2PKH" then 20
    else 0
  }

  /**
   * `calculate_risk_score`: the three factors added and capped at 100. The
   * cap never binds, since the factors add up to at most 40 + 30 + 30.
   */
  function CalculateRiskScore(balance: int, dormancyDays: int, vulnerabilityType: string): (r: real)
    ensures 5.0 <= r <= 100.0
    ensures r == (BalancePoints(balance) + DormancyPoints(dormancyDays) + TypePoints(vulnerabilityType)) as real
  {
    var score := BalancePoints(balance) + DormancyPoints(dormancyDays) + TypePoints(vulnerabilityType);
    if score < 100 then score as real else 100.0
  }

  /** A larger balance or a longer dormancy never lowers the risk score. */
  lemma RiskScoreMonotone(b1: int, b2: int, d1: int, d2: int, t: string)
    requires b1 <= b2 && d1 <= d2
    ensures CalculateRiskScore(b1, d1, t) <= CalculateRiskScore(b2, d2, t)
  {
  }

  // ---------------------------------------------------------------------------
  // Choosing the addresses to monitor

  /** `VulnerableAddress`; `lastActivity` is in epoch seconds. */
  datatype VulnerableAddress = VulnerableAddress(
    address: string,
    vulnerabilityType: string,
    balance: int,
    lastActivity: Option<int>,
    dormancyDays: int,
    riskScore: real,
    publicKey: Option<string>)

  /** The two tests of `filter_monitored_addresses`: balance at least the minimum, dormancy at least the threshold. */
  predicate Eligible(a: VulnerableAddress)
  {
    a.balance >= MinBalanceSatoshis && a.dormancyDays >= DormancyThresholdDays
  }

  /** Non-increasing by risk score. */
  predicate SortedByRisk(s: seq<VulnerableAddress>)
  {
    forall i, j :: 0 <= i < j < |s| ==> s[i].riskScore >= s[j].riskScore
  }

  /** The elements of `s` whose risk score is `v`, in their order in `s`. */
  function WithScore(s: seq<VulnerableAddress>, v: real): seq<VulnerableAddress>
  {
    if s == [] then []
    else (if s[0].riskScore == v then [s[0]] else []) + WithScore(s[1..], v)
  }

  /** Inserts `x` in front of the first element that does not score higher, so equal scores keep their order. */
  function InsertByRisk(x: VulnerableAddress, t: seq<VulnerableAddress>): seq<VulnerableAddress>
  {
    if t == [] || t[0].riskScore <= x.riskScore then [x] + t
    else [t[0]] + InsertByRisk(x, t[1..])
  }

  /** `list.sort(key=risk_score, reverse=True)`, which is stable. */
  function SortByRisk(s: seq<VulnerableAddress>): seq<VulnerableAddress>
  {
    if s == [] then [] else InsertByRisk(s[0], SortByRisk(s[1..]))
  }

  lemma {:induction false} InsertByRiskPermutes(x: VulnerableAddress, t: seq<VulnerableAddress>)
    ensures multiset(InsertByRisk(x, t)) == multiset(t) + multiset{x}
  {
    if !(t == [] || t[0].riskScore <= x.riskScore) {
      InsertByRiskPermutes(x, t[1..]);
      assert t == [t[0]] + t[1..];
    }
  }

  /** Inserting under a bound keeps every score under it. */
  lemma {:induction false} InsertByRiskBelow(x: VulnerableAddress, t: seq<VulnerableAddress>, b: real)
    requires x.riskScore <= b && forall i :: 0 <= i < |t| ==> t[i].riskScore <= b
    ensures forall i :: 0 <= i < |InsertByRisk(x, t)| ==> InsertByRisk(x, t)[i].riskScore <= b
  {
    if !(t == [] || t[0].riskScore <= x.riskScore) {
      InsertByRiskBelow(x, t[1..], b);
    }
  }

  lemma {:induction false} InsertByRiskSorted(x: VulnerableAddress, t: seq<VulnerableAddress>)
    requires SortedByRisk(t)
    ensures SortedByRisk(InsertByRisk(x, t))
  {
    if !(t == [] || t[0].riskScore <= x.riskScore) {
      var rest := InsertByRisk(x, t[1..]);
      InsertByRiskSorted(x, t[1..]);
      InsertByRiskBelow(x, t[1..], t[0].riskScore);
      var r := [t[0]] + rest;
      forall i, j | 0 <= i < j < |r| ensures r[i].riskScore >= r[j].riskScore {
        assert r[j] == rest[j - 1];
        if i > 0 {
          assert r[i] == rest[i - 1];
        }
      }
    }
  }

  /** The sort orders by risk score, highest first, and loses or adds nothing. */
  lemma {:induction false} SortByRiskSortsAndPermutes(s: seq<VulnerableAddress>)
    ensures SortedByRisk(SortByRisk(s))
    ensures multiset(SortByRisk(s)) == multiset(s)
  {
    if s != [] {
      SortByRiskSortsAndPermutes(s[1..]);
      InsertByRiskSorted(s[0], SortByRisk(s[1..]));
      InsertByRiskPermutes(s[0], SortByRisk(s[1..]));
      assert s == [s[0]] + s[1..];
    }
  }

  lemma {:induction false} InsertByRiskStable(x: VulnerableAddress, t: seq<VulnerableAddress>, v: real)
    ensures WithScore(InsertByRisk(x, t), v) == (if x.riskScore == v then [x] else []) + WithScore(t, v)
  {
    var head := if x.riskScore == v then [x] else [];
    if t == [] || t[0].riskScore <= x.riskScore {
      var r := [x] + t;
      assert r[0] == x && r[1..] == t;
      assert WithScore(r, v) == head + WithScore(t, v);
    } else {
      var rest := InsertByRisk(x, t[1..]);
      InsertByRiskStable(x, t[1..], v);
      var r := [t[0]] + rest;
      assert r[0] == t[0] && r[1..] == rest;
      var t0 := if t[0].riskScore == v then [t[0]] else [];
      assert WithScore(r, v) == t0 + WithScore(rest, v);
      assert WithScore(t, v) == t0 + WithScore(t[1..], v);
      assert head != [] ==> t0 == [];
    }
  }

  /** The sort is stable: for every score, the addresses with that score keep their input order. */
  lemma {:induction false} SortByRiskStable(s: seq<VulnerableAddress>, v: real)
    ensures WithScore(SortByRisk(s), v) == WithScore(s, v)
  {
    if s != [] {
      SortByRiskStable(s[1..], v);
      InsertByRiskStable(s[0], SortByRisk(s[1..]), v);
    }
  }

  /** The filtering loop of `filter_monitored_addresses`: too small a balance or too short a dormancy is skipped. */
  method EligibleAddresses(addresses: seq<VulnerableAddress>) returns (eligible: seq<VulnerableAddress>)
    ensures eligible == Filter(addresses, Eligible)
  {
    eligible := [];
    for i := 0 to |addresses|
      invariant eligible == Filter(addresses[..i], Eligible)
    {
      assert addresses[..i + 1][..i] == addresses[..i];
      var a := addresses[i];
      if a.balance < MinBalanceSatoshis {
      } else if a.dormancyDays < DormancyThresholdDays {
      } else {
        eligible := eligible + [a];
      }
    }
    assert addresses[..|addresses|] == addresses;
  }

  /**
   * `filter_monitored_addresses`: keep the eligible addresses, then sort them
   * by risk score, highest first, ties in input order.
   */
  method FilterMonitoredAddresses(addresses: seq<VulnerableAddress>) returns (monitored: seq<VulnerableAddress>)
    ensures SortedByRisk(monitored)
    ensures multiset(monitored) == multiset(Filter(addresses, Eligible))
    ensures forall v :: WithScore(monitored, v) == WithScore(Filter(addresses, Eligible), v)
    ensures forall i :: 0 <= i < |monitored| ==> monitored[i] in addresses && Eligible(monitored[i])
    ensures forall i :: 0 <= i < |addresses| && Eligible(addresses[i]) ==> addresses[i] in monitored
  {
    var eligible := EligibleAddresses(addresses);
    monitored := SortByRisk(eligible);
    assert SortedByRisk(monitored) && multiset(monitored) == multiset(eligible) by {
      SortByRiskSortsAndPermutes(eligible);
    }
    forall v ensures WithScore(monitored, v) == WithScore(eligible, v) {
      SortByRiskStable(eligible, v);
    }
    forall k | 0 <= k < |monitored| ensures monitored[k] in addresses && Eligible(monitored[k]) {
      assert monitored[k] in multiset(eligible);
    }
    forall k | 0 <= k < |addresses| && Eligible(addresses[k]) ensures addresses[k] in monitored {
      assert addresses[k] in eligible by {
        FilterKeeps(addresses, Eligible);
      }
      assert addresses[k] in multiset(monitored);
    }
  }

  /** 2012-01-01T00:00:00 UTC in epoch seconds: a `last_activity` before it has a year of at most 2011. */
  const Year2012StartEpoch: int := 1325376000

  /** The three tests of `detect_satoshi_era_addresses`: P2PK, no activity after 2011, and a balance of exactly 50 or 25 BTC. */
  predicate SatoshiEra(a: VulnerableAddress)
  {
    && a.vulnerabilityType == "P2PK"
    && (a.lastActivity.None? || a.lastActivity.value < Year2012StartEpoch)
    && (a.balance == 50 * SatoshisPerBtc || a.balance == 25 * SatoshisPerBtc)
  }

  /** `detect_satoshi_era_addresses`: the Satoshi-era addresses of the list, in list order. */
  method DetectSatoshiEraAddresses(addresses: seq<VulnerableAddress>) returns (satoshiEra: seq<VulnerableAddress>)
    ensures satoshiEra == Filter(addresses, SatoshiEra)
    ensures forall i :: 0 <= i < |satoshiEra| ==> satoshiEra[i] in addresses && SatoshiEra(satoshiEra[i])
    ensures forall i :: 0 <= i < |addresses| && SatoshiEra(addresses[i]) ==> addresses[i] in satoshiEra
  {
    satoshiEra := [];
    for i := 0 to |addresses|
      invariant satoshiEra == Filter(addresses[..i], SatoshiEra)
    {
      assert addresses[..i + 1][..i] == addresses[..i];
      var a := addresses[i];
      if a.vulnerabilityType != "P2PK" {
        continue;
      }
      if a.lastActivity.Some? && a.lastActivity.value >= Year2012StartEpoch {
        continue;
      }
      if a.balance == 50 * SatoshisPerBtc || a.balance == 25 * SatoshisPerBtc {
        satoshiEra := satoshiEra + [a];
      }
    }
    assert addresses[..|addresses|] == addresses;
    FilterKeeps(addresses, SatoshiEra);
  }

  // ---------------------------------------------------------------------------
  // AddressTracker

  /** `AddressTracker`: the set of addresses under tracking. */
  class AddressTracker {
    var vulnerableAddresses: set<string>

    constructor ()
      ensures vulnerableAddresses == {}
    {
      vulnerableAddresses := {};
    }

    /** `add_vulnerable_address`; the vulnerability type is only logged. */
    method AddVulnerableAddress(address: string, vulnerabilityType: string)
      modifies this
      ensures vulnerableAddresses == old(vulnerableAddresses) + {address}
    {
      vulnerableAddresses := vulnerableAddresses + {address};
    }

    /** `remove_address`: removing an address that is not tracked changes nothing and is no error. */
    method RemoveAddress(address: string)
      modifies this
      ensures vulnerableAddresses == old(vulnerableAddresses) - {address}
      ensures address !in old(vulnerableAddresses) ==> vulnerableAddresses == old(vulnerableAddresses)
    {
      if address in vulnerableAddresses {
        vulnerableAddresses := vulnerableAddresses - {address};
      }
    }

    /** `is_tracked`. */
    predicate IsTracked(address: string)
      reads this
    {
      address in vulnerableAddresses
    }

    /** `get_tracked_addresses`: every tracked address once, in an unspecified order. */
    method GetTrackedAddresses() returns (addresses: seq<string>)
      ensures |addresses| == |vulnerableAddresses|
      ensures forall a :: a in addresses <==> a in vulnerableAddresses
      ensures forall i, j :: 0 <= i < j < |addresses| ==> addresses[i] != addresses[j]
    {
      addresses := [];
      var rest := vulnerableAddresses;
      while rest != {}
        invariant rest <= vulnerableAddresses
        invariant forall a :: a in addresses <==> a in vulnerableAddresses - rest
        invariant forall i, j :: 0 <= i < j < |addresses| ==> addresses[i] != addresses[j]
        invariant |addresses| + |rest| == |vulnerableAddresses|
        decreases rest
      {
        var a :| a in rest;
        addresses := addresses + [a];
        rest := rest - {a};
      }
    }

    /**
     * `get_statistics`: the number of tracked addresses and a preview of at
     * most ten of them; the `last_update` timestamp is not modelled.
     */
    method GetStatistics() returns (totalTracked: nat, preview: seq<string>)
      ensures totalTracked == |vulnerableAddresses|
      ensures |preview| == if totalTracked < 10 then totalTracked else 10
      ensures forall i :: 0 <= i < |preview| ==> preview[i] in vulnerableAddresses
      ensures forall i, j :: 0 <= i < j < |preview| ==> preview[i] != preview[j]
    {
      var all := GetTrackedAddresses();
      totalTracked := |all|;
      preview := if |all| < 10 then all else all[..10];
    }
  }
}
