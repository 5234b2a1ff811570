/**
 * `init_data.py`: reading the list of known vulnerable addresses, one
 * comma-separated record per line, and seeding the wallet table with them.
 * The file is given as its lines (absent when the file does not exist); the
 * wallet table as a map from address to row.
 */
module InitData {
  import opened Wrappers
  import opened Text
  import Seqs
  import AddressManager
  import MS = MonitoringService

  /** One accepted line: address, vulnerability type and the optional notes. */
  datatype AddressRecord = AddressRecord(address: string, vulnerabilityType: string, notes: string)

  /**
   * One line of the file: stripped, skipped when blank or a `#` comment,
   * otherwise split on ',' and accepted when that gives at least two fields;
   * the fields are stripped, notes is the third field or empty and any
   * further fields are ignored.
   */
  function ParseLine(line: string): Option<AddressRecord>
  {
    var l := Strip(line);
    if l == [] || l[0] == '#' then None
    else
      var parts := Split(l, ',');
      if |parts| >= 2 then
        Some(AddressRecord(Strip(parts[0]), Strip(parts[1]), if |parts| > 2 then Strip(parts[2]) else []))
      else None
  }

  /**
   * A line gives a record exactly when, stripped, it is not blank, does not
   * start with '#' and holds a comma; the record's fields are stripped and
   * comma-free.
   */
  lemma ParseLineMeaning(line: string)
    ensures ParseLine(line).Some? <==> Strip(line) != [] && Strip(line)[0] != '#' && ',' in Strip(line)
    ensures ParseLine(line).Some? ==>
      var r := ParseLine(line).value;
      && Stripped(r.address) && ',' !in r.address
      && Stripped(r.vulnerabilityType) && ',' !in r.vulnerabilityType
      && Stripped(r.notes) && ',' !in r.notes
  {
    var l := Strip(line);
    if l != [] && l[0] != '#' {
      var parts := Split(l, ',');
      if |parts| >= 2 {
        assert forall x :: x in Strip(parts[0]) ==> x in parts[0];
        assert forall x :: x in Strip(parts[1]) ==> x in parts[1];
        assert |parts| > 2 ==> forall x :: x in Strip(parts[2]) ==> x in parts[2];
      }
    }
  }

  /** The records of a file's lines, in file order, one per accepted line. */
  function ParseLines(lines: seq<string>): (records: seq<AddressRecord>)
    ensures |records| <= |lines|
  {
    Seqs.Collect(lines, ParseLine)
  }

  /** `load_vulnerable_addresses`: a missing file gives no records. */
  method LoadVulnerableAddresses(file: Option<seq<string>>) returns (addresses: seq<AddressRecord>)
    ensures addresses == if file.None? then [] else ParseLines(file.value)
  {
    if file.None? {
      return [];
    }
    addresses := Seqs.CollectAll(file.value, ParseLine);
  }

  /** Blank lines and comments contribute nothing, wherever they stand. */
  lemma SkippedLine(before: seq<string>, line: string, after: seq<string>)
    requires Strip(line) == [] || Strip(line)[0] == '#'
    ensures ParseLines(before + [line] + after) == ParseLines(before) + ParseLines(after)
  {
    Seqs.CollectSkips(before, line, after, ParseLine);
  }

  /** A record the file format can carry: stripped, comma-free fields and an address that does not open a comment. */
  predicate WellFormed(r: AddressRecord)
  {
    && r.address != [] && r.address[0] != '#'
    && Stripped(r.address) && ',' !in r.address
    && Stripped(r.vulnerabilityType) && ',' !in r.vulnerabilityType
    && Stripped(r.notes) && ',' !in r.notes
  }

  /** The line a record is written as: `address,type,notes`. */
  function Render(r: AddressRecord): string
  {
    Join([r.address, r.vulnerabilityType, r.notes], ',')
  }

  /** A rendered well-formed record is `address,type,notes`, with no whitespace at either end and no leading '#'. */
  lemma RenderShape(r: AddressRecord)
    requires WellFormed(r)
    ensures Render(r) == r.address + [','] + (r.vulnerabilityType + [','] + r.notes)
    ensures Stripped(Render(r)) && Render(r) != [] && Render(r)[0] != '#'
  {
    var parts := [r.address, r.vulnerabilityType, r.notes];
    assert parts[1..] == [r.vulnerabilityType, r.notes];
    assert parts[1..][1..] == [r.notes];
    var tail := r.vulnerabilityType + [','] + r.notes;
    assert Join([r.vulnerabilityType, r.notes], ',') == tail;
    var line := r.address + [','] + tail;
    assert line[0] == r.address[0];
    assert line[|line| - 1] == if r.notes == [] then ',' else r.notes[|r.notes| - 1];
  }

  /** A clean line with three clean fields is read as those fields. */
  lemma ParseThreeFields(line: string, parts: seq<string>)
    requires Stripped(line) && line != [] && line[0] != '#'
    requires Split(line, ',') == parts && |parts| == 3
    requires Stripped(parts[0]) && Stripped(parts[1]) && Stripped(parts[2])
    ensures ParseLine(line) == Some(AddressRecord(parts[0], parts[1], parts[2]))
  {
    StripOfStripped(line);
    StripOfStripped(parts[0]);
    StripOfStripped(parts[1]);
    StripOfStripped(parts[2]);
  }

  /** A well-formed record written as a line is read back as itself. */
  lemma ParseRender(r: AddressRecord)
    requires WellFormed(r)
    ensures ParseLine(Render(r)) == Some(r)
  {
    var parts := [r.address, r.vulnerabilityType, r.notes];
    RenderShape(r);
    SplitJoin(parts, ',');
    ParseThreeFields(Render(r), parts);
  }

  /** A file written from well-formed records, one per line, is read back as those records. */
  lemma ParseRenderAll(records: seq<AddressRecord>)
    requires forall i :: 0 <= i < |records| ==> WellFormed(records[i])
    ensures ParseLines(Seqs.Map(records, Render)) == records
  {
    forall i | 0 <= i < |records| ensures ParseLine(Render(records[i])) == Some(records[i]) {
      ParseRender(records[i]);
    }
    Seqs.CollectInverse(records, Render, ParseLine);
  }

  // ---------------------------------------------------------------------------
  // Seeding the wallet table

  const PlaceholderBalance: int := 5000000000
  const PlaceholderDormancyDays: int := 3650

  /** The wallet type of a listed address: "P2PK" for a P2PK listing, "P2PKH" for anything else. */
  function WalletTypeFor(vulnerabilityType: string): (t: string)
    ensures t == "P2PK" <==> vulnerabilityType == "P2PK"
    ensures t == "P2PK" || t == "P2PKH"
  {
    if vulnerabilityType == "P2PK" then "P2PK" else "P2PKH"
  }

  /**
   * The row of a listed address: vulnerable, active, the 50 BTC balance and
   * ten-year dormancy placeholders, and the risk score of those placeholders.
   */
  function SampleWallet(r: AddressRecord): MS.WalletRow
  {
    MS.WalletRow(
      r.address, WalletTypeFor(r.vulnerabilityType), Some(r.vulnerabilityType), true, true,
      PlaceholderBalance, None, 0,
      AddressManager.CalculateRiskScore(PlaceholderBalance, PlaceholderDormancyDays, r.vulnerabilityType),
      PlaceholderDormancyDays)
  }

  /**
   * The placeholders score 20 points for 50 BTC and 25 for exactly ten years
   * (the top dormancy band needs more than ten): 75 for P2PK, 65 for reused
   * P2PKH and 45 otherwise.
   */
  lemma SampleRiskScores(r: AddressRecord)
    ensures SampleWallet(r).riskScore ==
      if r.vulnerabilityType == "P2PK" then 75.0 else if r.vulnerabilityType == "REUSED_P2PKH" then 65.0 else 45.0
  {
  }

  /** The table after seeding: each record whose address is not yet stored adds its row; later duplicates are skipped. */
  function Seed(table: map<string, MS.WalletRow>, records: seq<AddressRecord>): map<string, MS.WalletRow>
  {
    if records == [] then table
    else
      var before := Seed(table, records[..|records| - 1]);
      var r := records[|records| - 1];
      if r.address in before then before else before[r.address := SampleWallet(r)]
  }

  /** Seeding never changes a stored row, stores every listed address, and stores nothing else. */
  lemma {:induction false} SeedKeeps(table: map<string, MS.WalletRow>, records: seq<AddressRecord>)
    ensures var t := Seed(table, records);
      && (forall a :: a in table ==> a in t && t[a] == table[a])
      && (forall i :: 0 <= i < |records| ==> records[i].address in t)
      && (forall a :: a in t ==> a in table || exists i :: 0 <= i < |records| && records[i].address == a)
  {
    if records != [] {
      var init := records[..|records| - 1];
      SeedKeeps(table, init);
      assert forall i :: 0 <= i < |init| ==> init[i] == records[i];
    }
  }

  /** The address was not listed before position `i`. */
  predicate FirstListing(records: seq<AddressRecord>, i: int)
    requires 0 <= i < |records|
  {
    forall j :: 0 <= j < i ==> records[j].address != records[i].address
  }

  /** A newly stored address holds the row of its first listing. */
  lemma {:induction false} SeedFirstListing(table: map<string, MS.WalletRow>, records: seq<AddressRecord>, a: string)
    requires a in Seed(table, records) && a !in table
    ensures exists i :: 0 <= i < |records| && records[i].address == a && FirstListing(records, i) &&
                        Seed(table, records)[a] == SampleWallet(records[i])
  {
    var init := records[..|records| - 1];
    var before := Seed(table, init);
    if a in before {
      SeedFirstListing(table, init, a);
      var i :| 0 <= i < |init| && init[i].address == a && FirstListing(init, i) && before[a] == SampleWallet(init[i]);
      assert records[i] == init[i];
      assert forall j :: 0 <= j < i ==> records[j] == init[j];
    } else {
      SeedKeeps(table, init);
      assert forall j :: 0 <= j < |init| ==> records[j] == init[j];
      assert FirstListing(records, |records| - 1);
    }
  }

  /** The insertion loop of `initialize_sample_data`: stored or repeated addresses are skipped, `added` counts the rest. */
  method AddRecords(table: map<string, MS.WalletRow>, records: seq<AddressRecord>)
    returns (seeded: map<string, MS.WalletRow>, added: nat)
    ensures seeded == Seed(table, records)
    ensures |seeded.Keys| == |table.Keys| + added
  {
    seeded, added := table, 0;
    for i := 0 to |records|
      invariant seeded == Seed(table, records[..i])
      invariant |seeded.Keys| == |table.Keys| + added
    {
      assert records[..i + 1][..i] == records[..i];
      var r := records[i];
      if r.address in seeded {
        continue;
      }
      seeded := seeded[r.address := SampleWallet(r)];
      added := added + 1;
    }
    assert records[..|records|] == records;
  }

  /**
   * `initialize_sample_data`: nothing happens when the list is empty;
   * otherwise every listed address not yet stored (nor listed earlier) is
   * added, and `added` counts the new rows.
   */
  method InitializeSampleData(file: Option<seq<string>>, table: map<string, MS.WalletRow>)
    returns (seeded: map<string, MS.WalletRow>, added: nat)
    ensures seeded == Seed(table, if file.None? then [] else ParseLines(file.value))
    ensures |seeded.Keys| == |table.Keys| + added
  {
    var addresses := LoadVulnerableAddresses(file);
    if addresses == [] {
      return table, 0;
    }
    seeded, added := AddRecords(table, addresses);
  }
}
