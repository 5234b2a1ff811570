/**
 * The block-based watcher of `block_monitor.py`: it remembers the last block
 * height it has seen, scans every newer block for addresses it tracks, and
 * reports one movement per tracked address that appears in a block, with
 * the block's spends and receives for that address.
 *
 * The chain is reached through the manager; here its answers are parameters:
 * the tip height as a `TipReading`, the blocks as a function of the height
 * (`None` standing for a missing block, an empty one, or a failed fetch) and
 * the address information as a function of the block height and the address
 * (`None` for no answer or a failed lookup, which the source treats alike).
 */
module BlockMonitor {
  import opened Wrappers
  import opened Blockchain
  import Seqs
  import opened Statistics

  /** What `get_latest_block_height` gave: an exception, `None`, or a height. */
  datatype TipReading = TipFailed | TipNone | Tip(height: int)

  datatype MovementKind = Spend | Receive

  /** One entry of a movement's `transactions` list. */
  datatype MovementTx = MovementTx(txId: string, kind: MovementKind, amount: int, timestamp: int)

  /** The dictionary `_analyze_address_movement` returns. */
  datatype Movement = Movement(
    address: string, blockHeight: int, previousBalance: int,
    transactions: seq<MovementTx>, totalMoved: int, timestamp: int)

  // ----- Address extraction -----

  /** The address an entry names, when it names one: `inp.get('address')` is truthy. */
  function Named(e: TxEntry): set<string>
  {
    if e.address.Some? && e.address.value != "" then {e.address.value} else {}
  }

  function EntryAddresses(entries: seq<TxEntry>): set<string>
  {
    if entries == [] then {} else EntryAddresses(entries[..|entries| - 1]) + Named(entries[|entries| - 1])
  }

  function TxAddresses(tx: BlockTx): set<string>
  {
    EntryAddresses(tx.inputs) + EntryAddresses(tx.outputs)
  }

  /** Every address named by an input or an output of the transactions. */
  function BlockAddresses(txs: seq<BlockTx>): set<string>
  {
    if txs == [] then {} else BlockAddresses(txs[..|txs| - 1]) + TxAddresses(txs[|txs| - 1])
  }

  /** Some entry of the list names `a`. */
  predicate Names(entries: seq<TxEntry>, a: string)
  {
    exists j :: 0 <= j < |entries| && entries[j].address == Some(a)
  }

  /** Some input or output of the transactions names `a`. */
  predicate Appears(txs: seq<BlockTx>, a: string)
  {
    exists i :: 0 <= i < |txs| && (Names(txs[i].inputs, a) || Names(txs[i].outputs, a))
  }

  lemma {:induction false} EntryAddressesIff(entries: seq<TxEntry>, a: string)
    ensures a in EntryAddresses(entries) <==> a != "" && Names(entries, a)
  {
    if entries != [] {
      var init := entries[..|entries| - 1];
      EntryAddressesIff(init, a);
      if Names(init, a) {
        var j :| 0 <= j < |init| && init[j].address == Some(a);
        assert entries[j] == init[j];
      }
      if Names(entries, a) {
        var j :| 0 <= j < |entries| && entries[j].address == Some(a);
        if j < |init| {
          assert init[j] == entries[j];
        }
      }
    }
  }

  /** `_extract_addresses_from_block` gathers exactly the non-empty addresses its inputs and outputs name. */
  lemma {:induction false} BlockAddressesIff(txs: seq<BlockTx>, a: string)
    ensures a in BlockAddresses(txs) <==> a != "" && Appears(txs, a)
  {
    if txs != [] {
      var init, last := txs[..|txs| - 1], txs[|txs| - 1];
      BlockAddressesIff(init, a);
      EntryAddressesIff(last.inputs, a);
      EntryAddressesIff(last.outputs, a);
      if Appears(init, a) {
        var i :| 0 <= i < |init| && (Names(init[i].inputs, a) || Names(init[i].outputs, a));
        assert txs[i] == init[i];
      }
      if Appears(txs, a) {
        var i :| 0 <= i < |txs| && (Names(txs[i].inputs, a) || Names(txs[i].outputs, a));
        if i < |init| {
          assert init[i] == txs[i];
        }
      }
    }
  }

  method ExtractAddressesFromBlock(block: Block) returns (addresses: set<string>)
    ensures addresses == BlockAddresses(block.transactions)
  {
    var txs := block.transactions;
    addresses := {};
    for i := 0 to |txs|
      invariant addresses == BlockAddresses(txs[..i])
    {
      var tx := txs[i];
      for j := 0 to |tx.inputs|
        invariant addresses == BlockAddresses(txs[..i]) + EntryAddresses(tx.inputs[..j])
      {
        assert tx.inputs[..j + 1][..j] == tx.inputs[..j];
        if tx.inputs[j].address.Some? && tx.inputs[j].address.value != "" {
          addresses := addresses + {tx.inputs[j].address.value};
        }
      }
      assert tx.inputs[..|tx.inputs|] == tx.inputs;
      for j := 0 to |tx.outputs|
        invariant addresses == BlockAddresses(txs[..i]) + EntryAddresses(tx.inputs) + EntryAddresses(tx.outputs[..j])
      {
        assert tx.outputs[..j + 1][..j] == tx.outputs[..j];
        if tx.outputs[j].address.Some? && tx.outputs[j].address.value != "" {
          addresses := addresses + {tx.outputs[j].address.value};
        }
      }
      assert tx.outputs[..|tx.outputs|] == tx.outputs;
      assert txs[..i + 1][..i] == txs[..i];
    }
    assert txs[..|txs|] == txs;
  }

  // ----- Movement analysis -----

  /** The amounts of the entries that name `address`, in order, a missing value counting as 0. */
  function Matches(address: string, entries: seq<TxEntry>): seq<int>
  {
    if entries == [] then []
    else
      var e := entries[|entries| - 1];
      Matches(address, entries[..|entries| - 1]) +
        (if e.address == Some(address) then [if e.value.Some? then e.value.value else 0] else [])
  }

  /** The movement entries for the amounts, all of one transaction and one kind. */
  function Tagged(txId: string, kind: MovementKind, amounts: seq<int>, timestamp: int): (r: seq<MovementTx>)
    ensures |r| == |amounts|
  {
    if amounts == [] then []
    else Tagged(txId, kind, amounts[..|amounts| - 1], timestamp) + [MovementTx(txId, kind, amounts[|amounts| - 1], timestamp)]
  }

  /**
   * The entries of one list (a transaction's inputs or its outputs) that
   * name `address`, as movement entries of one kind. Reading `tx['hash']`
   * fails when the transaction has none, and the failure abandons the
   * whole analysis: `None`.
   */
  function EntryMovements(address: string, entries: seq<TxEntry>, kind: MovementKind, hash: Option<string>, timestamp: int)
    : Option<seq<MovementTx>>
  {
    var amounts := Matches(address, entries);
    if amounts == [] then Some([])
    else if hash.None? then None
    else Some(Tagged(hash.value, kind, amounts, timestamp))
  }

  /** The spends of `address` in one transaction, then its receives. */
  function TxMovements(address: string, tx: BlockTx, timestamp: int): Option<seq<MovementTx>>
  {
    match EntryMovements(address, tx.inputs, Spend, tx.hash, timestamp)
    case None => None
    case Some(spends) =>
      match EntryMovements(address, tx.outputs, Receive, tx.hash, timestamp)
      case None => None
      case Some(receives) => Some(spends + receives)
  }

  /** The `relevant_txs` list, or `None` when building it fails. */
  function RelevantTxs(address: string, txs: seq<BlockTx>, timestamp: int): Option<seq<MovementTx>>
  {
    if txs == [] then Some([])
    else
      match RelevantTxs(address, txs[..|txs| - 1], timestamp)
      case None => None
      case Some(before) =>
        match TxMovements(address, txs[|txs| - 1], timestamp)
        case None => None
        case Some(m) => Some(before + m)
  }

  /** `sum(tx['amount'] for tx in relevant_txs if tx['type'] == 'spend')`. */
  function SpendTotal(entries: seq<MovementTx>): int
  {
    if entries == [] then 0
    else SpendTotal(entries[..|entries| - 1]) + (if entries[|entries| - 1].kind == Spend then entries[|entries| - 1].amount else 0)
  }

  /** The block's timestamp, or the current time when it has none. */
  function BlockTime(block: Block, now: int): int
  {
    if block.timestamp.Some? then block.timestamp.value else now
  }

  /** What `_analyze_address_movement` returns for `address` in `block`, given the address lookup's answer. */
  function AnalyzeMovement(address: string, block: Block, height: int, info: Option<AddressInfo>, now: int): (r: Option<Movement>)
    ensures r.Some? ==> r.value.address == address && r.value.blockHeight == height
  {
    if info.None? then None
    else
      var ts := BlockTime(block, now);
      match RelevantTxs(address, block.transactions, ts)
      case None => None
      case Some(rel) =>
        if rel == [] then None
        else Some(Movement(address, height, info.value.balance, rel, SpendTotal(rel), ts))
  }

  /** The values of the inputs naming `address`, over all the transactions. */
  function SpentBy(address: string, txs: seq<BlockTx>): seq<int>
  {
    if txs == [] then [] else SpentBy(address, txs[..|txs| - 1]) + Matches(address, txs[|txs| - 1].inputs)
  }

  lemma {:induction false} SpendTotalConcat(a: seq<MovementTx>, b: seq<MovementTx>)
    ensures SpendTotal(a + b) == SpendTotal(a) + SpendTotal(b)
    decreases |b|
  {
    if b == [] {
      assert a + b == a;
    } else {
      SpendTotalConcat(a, b[..|b| - 1]);
      assert (a + b)[..|a + b| - 1] == a + b[..|b| - 1];
    }
  }

  /** Spends count in full, receives not at all. */
  lemma {:induction false} SpendTotalTagged(txId: string, kind: MovementKind, amounts: seq<int>, timestamp: int)
    ensures SpendTotal(Tagged(txId, kind, amounts, timestamp)) == if kind == Spend then Total(amounts) else 0
  {
    if amounts != [] {
      SpendTotalTagged(txId, kind, amounts[..|amounts| - 1], timestamp);
    }
  }

  lemma {:induction false} MatchesIff(address: string, entries: seq<TxEntry>)
    ensures Matches(address, entries) != [] <==> Names(entries, address)
  {
    if entries != [] {
      var init := entries[..|entries| - 1];
      MatchesIff(address, init);
      if Names(init, address) {
        var j :| 0 <= j < |init| && init[j].address == Some(address);
        assert entries[j] == init[j];
      }
      if Names(entries, address) {
        var j :| 0 <= j < |entries| && entries[j].address == Some(address);
        if j < |init| {
          assert init[j] == entries[j];
        }
      }
    }
  }

  /** A list's movement entries count towards `total_moved` exactly when they are spends, and exist exactly when the list names the address. */
  lemma EntryMovementsMeaning(address: string, entries: seq<TxEntry>, kind: MovementKind, hash: Option<string>, timestamp: int)
    requires EntryMovements(address, entries, kind, hash, timestamp).Some?
    ensures SpendTotal(EntryMovements(address, entries, kind, hash, timestamp).value) ==
      if kind == Spend then Total(Matches(address, entries)) else 0
    ensures EntryMovements(address, entries, kind, hash, timestamp).value == [] <==> Matches(address, entries) == []
  {
    if Matches(address, entries) != [] {
      SpendTotalTagged(hash.value, kind, Matches(address, entries), timestamp);
    }
  }

  /** One transaction's entries: their spends total its inputs naming the address, and they exist exactly when it names the address. */
  lemma TxMovementsMeaning(address: string, tx: BlockTx, timestamp: int)
    requires TxMovements(address, tx, timestamp).Some?
    ensures SpendTotal(TxMovements(address, tx, timestamp).value) == Total(Matches(address, tx.inputs))
    ensures TxMovements(address, tx, timestamp).value == [] <==> !Names(tx.inputs, address) && !Names(tx.outputs, address)
  {
    var spends := EntryMovements(address, tx.inputs, Spend, tx.hash, timestamp).value;
    var receives := EntryMovements(address, tx.outputs, Receive, tx.hash, timestamp).value;
    EntryMovementsMeaning(address, tx.inputs, Spend, tx.hash, timestamp);
    EntryMovementsMeaning(address, tx.outputs, Receive, tx.hash, timestamp);
    SpendTotalConcat(spends, receives);
    MatchesIff(address, tx.inputs);
    MatchesIff(address, tx.outputs);
  }

  lemma AppearsSnoc(txs: seq<BlockTx>, a: string)
    requires txs != []
    ensures Appears(txs, a) <==>
      Appears(txs[..|txs| - 1], a) || Names(txs[|txs| - 1].inputs, a) || Names(txs[|txs| - 1].outputs, a)
  {
    var init := txs[..|txs| - 1];
    if Appears(init, a) {
      var i :| 0 <= i < |init| && (Names(init[i].inputs, a) || Names(init[i].outputs, a));
      assert txs[i] == init[i];
    }
    if Appears(txs, a) {
      var i :| 0 <= i < |txs| && (Names(txs[i].inputs, a) || Names(txs[i].outputs, a));
      if i < |init| {
        assert init[i] == txs[i];
      }
    }
  }

  /** When the list is built, `total_moved` is the sum of the values of the inputs that name the address. */
  lemma {:induction false} RelevantSpendTotal(address: string, txs: seq<BlockTx>, timestamp: int)
    requires RelevantTxs(address, txs, timestamp).Some?
    ensures SpendTotal(RelevantTxs(address, txs, timestamp).value) == Total(SpentBy(address, txs))
  {
    if txs != [] {
      var init, last := txs[..|txs| - 1], txs[|txs| - 1];
      RelevantSpendTotal(address, init, timestamp);
      TxMovementsMeaning(address, last, timestamp);
      SpendTotalConcat(RelevantTxs(address, init, timestamp).value, TxMovements(address, last, timestamp).value);
      TotalConcat(SpentBy(address, init), Matches(address, last.inputs));
    }
  }

  /** When the list is built, it is empty exactly when no input or output names the address. */
  lemma {:induction false} RelevantNonEmpty(address: string, txs: seq<BlockTx>, timestamp: int)
    requires RelevantTxs(address, txs, timestamp).Some?
    ensures RelevantTxs(address, txs, timestamp).value != [] <==> Appears(txs, address)
  {
    if txs != [] {
      var init, last := txs[..|txs| - 1], txs[|txs| - 1];
      RelevantNonEmpty(address, init, timestamp);
      TxMovementsMeaning(address, last, timestamp);
      AppearsSnoc(txs, address);
    }
  }

  /**
   * A movement is reported exactly when the lookup answered, the relevant
   * list could be built and the address appears in the block; it then
   * carries the lookup's balance, the block's time and, as `total_moved`,
   * the sum of the values of the inputs naming the address.
   */
  lemma MovementIff(address: string, block: Block, height: int, info: Option<AddressInfo>, now: int)
    ensures AnalyzeMovement(address, block, height, info, now).Some? <==>
      info.Some? && RelevantTxs(address, block.transactions, BlockTime(block, now)).Some? && Appears(block.transactions, address)
    ensures AnalyzeMovement(address, block, height, info, now).Some? ==>
      var m := AnalyzeMovement(address, block, height, info, now).value;
      m.previousBalance == info.value.balance && m.timestamp == BlockTime(block, now) &&
      m.totalMoved == Total(SpentBy(address, block.transactions))
  {
    if RelevantTxs(address, block.transactions, BlockTime(block, now)).Some? {
      RelevantSpendTotal(address, block.transactions, BlockTime(block, now));
      RelevantNonEmpty(address, block.transactions, BlockTime(block, now));
    }
  }

  /** Once building the list has failed on a prefix, it fails on the whole. */
  lemma {:induction false} RelevantTxsFails(address: string, txs: seq<BlockTx>, k: nat, timestamp: int)
    requires k <= |txs|
    requires RelevantTxs(address, txs[..k], timestamp).None?
    ensures RelevantTxs(address, txs, timestamp).None?
    decreases |txs| - k
  {
    if k < |txs| {
      assert txs[..k + 1][..k] == txs[..k];
      RelevantTxsFails(address, txs, k + 1, timestamp);
    } else {
      assert txs[..k] == txs;
    }
  }

  lemma TaggedSnoc(txId: string, kind: MovementKind, amounts: seq<int>, amount: int, timestamp: int)
    ensures Tagged(txId, kind, amounts + [amount], timestamp) == Tagged(txId, kind, amounts, timestamp) + [MovementTx(txId, kind, amount, timestamp)]
  {
    assert (amounts + [amount])[..|amounts|] == amounts;
  }

  /** The scan of one list (the inner loops of `_analyze_address_movement`). */
  method ScanEntries(address: string, entries: seq<TxEntry>, kind: MovementKind, hash: Option<string>, timestamp: int)
    returns (r: Option<seq<MovementTx>>)
    ensures r == EntryMovements(address, entries, kind, hash, timestamp)
  {
    var found: seq<MovementTx> := [];
    for j := 0 to |entries|
      invariant hash.None? ==> Matches(address, entries[..j]) == []
      invariant hash.Some? ==> found == Tagged(hash.value, kind, Matches(address, entries[..j]), timestamp)
      invariant Matches(address, entries[..j]) == [] ==> found == []
    {
      assert entries[..j + 1][..j] == entries[..j];
      assert Matches(address, entries[..j + 1]) == Matches(address, entries[..j]) +
        (if entries[j].address == Some(address) then [if entries[j].value.Some? then entries[j].value.value else 0] else []);
      if entries[j].address == Some(address) {
        if hash.None? {
          assert Names(entries, address);
          MatchesIff(address, entries);
          return None;
        }
        var amount := if entries[j].value.Some? then entries[j].value.value else 0;
        TaggedSnoc(hash.value, kind, Matches(address, entries[..j]), amount, timestamp);
        found := found + [MovementTx(hash.value, kind, amount, timestamp)];
      } else {
        assert Matches(address, entries[..j]) + [] == Matches(address, entries[..j]);
      }
    }
    assert entries[..|entries|] == entries;
    r := Some(found);
  }

  method AnalyzeAddressMovement(address: string, block: Block, height: int, info: Option<AddressInfo>, now: int)
    returns (r: Option<Movement>)
    ensures r == AnalyzeMovement(address, block, height, info, now)
  {
    if info.None? {
      return None;
    }
    var txs, ts := block.transactions, BlockTime(block, now);
    var relevant: seq<MovementTx> := [];
    for i := 0 to |txs|
      invariant RelevantTxs(address, txs[..i], ts) == Some(relevant)
    {
      var tx := txs[i];
      assert txs[..i + 1][..i] == txs[..i];
      var spends := ScanEntries(address, tx.inputs, Spend, tx.hash, ts);
      if spends.None? {
        RelevantTxsFails(address, txs, i + 1, ts);
        return None;
      }
      var receives := ScanEntries(address, tx.outputs, Receive, tx.hash, ts);
      if receives.None? {
        RelevantTxsFails(address, txs, i + 1, ts);
        return None;
      }
      assert relevant + spends.value + receives.value == relevant + (spends.value + receives.value);
      relevant := relevant + spends.value + receives.value;
    }
    assert txs[..|txs|] == txs;
    if relevant == [] {
      return None;
    }
    r := Some(Movement(address, height, info.value.balance, relevant, SpendTotal(relevant), ts));
  }

  // ----- One block -----

  /**
   * The movements `_process_block` may return for the block fetched at
   * `height`: one for each tracked address of the block whose analysis
   * yields a movement, each exactly that movement, no address twice. The
   * order is the iteration order of a Python set, which the model leaves
   * open.
   */
  ghost predicate BlockResult(tracked: set<string>, height: int, block: Option<Block>,
                              info: (int, string) -> Option<AddressInfo>, now: int, ms: seq<Movement>)
  {
    match block
    case None => ms == []
    case Some(b) => Reported(BlockAddresses(b.transactions) * tracked, b, height, info, now, ms)
  }

  /** `ms` holds the movement of each address of `done` that has one, and nothing else. */
  ghost predicate Reported(done: set<string>, b: Block, height: int,
                           info: (int, string) -> Option<AddressInfo>, now: int, ms: seq<Movement>)
  {
    (forall i :: 0 <= i < |ms| ==>
       ms[i].address in done && AnalyzeMovement(ms[i].address, b, height, info(height, ms[i].address), now) == Some(ms[i])) &&
    (forall i, j :: 0 <= i < j < |ms| ==> ms[i].address != ms[j].address) &&
    (forall a :: a in done && AnalyzeMovement(a, b, height, info(height, a), now).Some? ==>
       exists i :: 0 <= i < |ms| && ms[i].address == a)
  }

  /** Analysing one more address keeps the report complete. */
  lemma ReportedStep(done: set<string>, a: string, b: Block, height: int,
                     info: (int, string) -> Option<AddressInfo>, now: int, ms: seq<Movement>, m: Option<Movement>)
    requires Reported(done, b, height, info, now, ms) && a !in done
    requires m == AnalyzeMovement(a, b, height, info(height, a), now)
    ensures Reported(done + {a}, b, height, info, now, if m.Some? then ms + [m.value] else ms)
  {
    if m.Some? {
      var ms' := ms + [m.value];
      assert ms'[|ms|].address == a;
      forall x | x in done + {a} && AnalyzeMovement(x, b, height, info(height, x), now).Some?
        ensures exists i :: 0 <= i < |ms'| && ms'[i].address == x
      {
        if x != a {
          var i :| 0 <= i < |ms| && ms[i].address == x;
          assert ms'[i] == ms[i];
        }
      }
    }
  }

  /** Addresses drawn from `done`, no two alike, number at most `|done|`. */
  lemma {:induction false} DistinctBound(ms: seq<Movement>, done: set<string>)
    requires forall i :: 0 <= i < |ms| ==> ms[i].address in done
    requires forall i, j :: 0 <= i < j < |ms| ==> ms[i].address != ms[j].address
    ensures |ms| <= |done|
  {
    if ms != [] {
      var init, last := ms[..|ms| - 1], ms[|ms| - 1];
      DistinctBound(init, done - {last.address});
    }
  }

  /** A block yields at most one movement per tracked address it names. */
  lemma AtMostOnePerAddress(tracked: set<string>, height: int, block: Block,
                            info: (int, string) -> Option<AddressInfo>, now: int, ms: seq<Movement>)
    requires BlockResult(tracked, height, Some(block), info, now, ms)
    ensures |ms| <= |BlockAddresses(block.transactions) * tracked|
  {
    DistinctBound(ms, BlockAddresses(block.transactions) * tracked);
  }

  /** A block without transactions, such as the placeholder the manager's `get_block` builds, yields no movement. */
  lemma EmptyBlockYieldsNothing(tracked: set<string>, height: int, timestamp: Option<int>,
                                info: (int, string) -> Option<AddressInfo>, now: int, ms: seq<Movement>)
    requires BlockResult(tracked, height, Some(Block(height, timestamp, [])), info, now, ms)
    ensures ms == []
  {
    AtMostOnePerAddress(tracked, height, Block(height, timestamp, []), info, now, ms);
  }

  /** An address the watcher does not track, or that the block does not name, never gets a movement. */
  lemma OnlyTrackedAddresses(tracked: set<string>, height: int, block: Block,
                             info: (int, string) -> Option<AddressInfo>, now: int, ms: seq<Movement>, i: int)
    requires BlockResult(tracked, height, Some(block), info, now, ms)
    requires 0 <= i < |ms|
    ensures ms[i].address in tracked && Appears(block.transactions, ms[i].address)
  {
    BlockAddressesIff(block.transactions, ms[i].address);
  }

  // ----- The watcher -----

  /** The state `check_new_blocks` leaves `last_block_height` in. */
  function NextHeight(last: Option<int>, tip: TipReading): (r: Option<int>)
  {
    match tip
    case TipFailed => last
    case TipNone => if last.None? || last.value == 0 then None else last
    case Tip(h) => if last.None? || last.value == 0 || h > last.value then Some(h) else last
  }

  /** The number of blocks `check_new_blocks` scans: those above a known, non-zero height up to a higher tip. */
  function NewBlockCount(last: Option<int>, tip: TipReading): (n: nat)
  {
    if last.Some? && last.value != 0 && tip.Tip? && tip.height > last.value then tip.height - last.value else 0
  }

  /** The first height scanned. */
  function FirstNew(last: Option<int>): int
  {
    if last.Some? then last.value + 1 else 1
  }

  /** The first check after start-up only records the tip: no block before it is ever scanned. */
  lemma NoBackfill(last: Option<int>, tip: TipReading)
    requires last.None? || last == Some(0)
    ensures NewBlockCount(last, tip) == 0
    ensures tip.Tip? ==> NextHeight(last, tip) == Some(tip.height)
  {
  }

  /**
   * Once known and non-zero, the height never moves back and never becomes
   * unknown; and the heights scanned are exactly those strictly between the
   * old height and the new one, the new one included.
   */
  lemma HeightMonotone(l: int, tip: TipReading)
    requires l != 0
    ensures NextHeight(Some(l), tip).Some? && NextHeight(Some(l), tip).value >= l
    ensures FirstNew(Some(l)) + NewBlockCount(Some(l), tip) - 1 == NextHeight(Some(l), tip).value
  {
  }

  /** A second check against the same tip finds nothing new. */
  lemma SameTipScansNothing(last: Option<int>, tip: TipReading)
    ensures NewBlockCount(NextHeight(last, tip), tip) == 0
  {
  }

  datatype MonitorStats = MonitorStats(monitoredAddresses: nat, lastBlockHeight: Option<int>, monitoringActive: bool)

  class BlockMonitorService {
    var dormantAddresses: set<string>
    var lastBlockHeight: Option<int>

    constructor ()
      ensures dormantAddresses == {} && lastBlockHeight == None
    {
      dormantAddresses := {};
      lastBlockHeight := None;
    }

    /** Loads the active addresses and records the tip; a failed tip query leaves the height as it was. */
    method Initialize(activeAddresses: seq<string>, tip: TipReading)
      modifies this
      ensures dormantAddresses == set a | a in activeAddresses
      ensures lastBlockHeight == (match tip case TipFailed => old(lastBlockHeight) case TipNone => None case Tip(h) => Some(h))
    {
      dormantAddresses := set a | a in activeAddresses;
      match tip {
        case TipFailed =>
        case TipNone => lastBlockHeight := None;
        case Tip(h) => lastBlockHeight := Some(h);
      }
    }

    method ProcessBlock(height: int, block: Option<Block>, info: (int, string) -> Option<AddressInfo>, now: int)
      returns (movements: seq<Movement>)
      ensures BlockResult(dormantAddresses, height, block, info, now, movements)
    {
      movements := [];
      if block.None? {
        return;
      }
      var b := block.value;
      var blockAddresses := ExtractAddressesFromBlock(b);
      var active := blockAddresses * dormantAddresses;
      var remaining := active;
      while remaining != {}
        invariant remaining <= active
        invariant Reported(active - remaining, b, height, info, now, movements)
        decreases remaining
      {
        var address :| address in remaining;
        var movement := AnalyzeAddressMovement(address, b, height, info(height, address), now);
        ReportedStep(active - remaining, address, b, height, info, now, movements, movement);
        if movement.Some? {
          movements := movements + [movement.value];
        }
        assert active - (remaining - {address}) == (active - remaining) + {address};
        remaining := remaining - {address};
      }
    }

    /**
     * One `check_new_blocks` call: the tip query, then every block above the
     * recorded height up to the tip, one `BlockResult` each, concatenated.
     * Blocks that fail to load are skipped, yet the height still advances
     * past them.
     */
    method CheckNewBlocks(tip: TipReading, blocks: int -> Option<Block>, info: (int, string) -> Option<AddressInfo>, now: int)
      returns (movements: seq<Movement>, ghost perBlock: seq<seq<Movement>>)
      modifies this
      ensures dormantAddresses == old(dormantAddresses)
      ensures lastBlockHeight == NextHeight(old(lastBlockHeight), tip)
      ensures |perBlock| == NewBlockCount(old(lastBlockHeight), tip)
      ensures movements == Seqs.Flatten(perBlock)
      ensures forall k :: 0 <= k < |perBlock| ==>
        var h := FirstNew(old(lastBlockHeight)) + k;
        BlockResult(dormantAddresses, h, blocks(h), info, now, perBlock[k])
    {
      movements, perBlock := [], [];
      if tip.TipFailed? {
        return;
      }
      if lastBlockHeight.None? || lastBlockHeight.value == 0 {
        lastBlockHeight := if tip.Tip? then Some(tip.height) else None;
        return;
      }
      if tip.TipNone? {
        return;
      }
      var last := lastBlockHeight.value;
      if tip.height > last {
        var height := last + 1;
        while height <= tip.height
          invariant last + 1 <= height <= tip.height + 1
          invariant unchanged(this)
          invariant |perBlock| == height - (last + 1)
          invariant movements == Seqs.Flatten(perBlock)
          invariant forall k :: 0 <= k < |perBlock| ==>
            BlockResult(dormantAddresses, last + 1 + k, blocks(last + 1 + k), info, now, perBlock[k])
        {
          var blockMovements := ProcessBlock(height, blocks(height), info, now);
          Seqs.FlattenSnoc(perBlock, blockMovements);
          movements := movements + blockMovements;
          perBlock := perBlock + [blockMovements];
          height := height + 1;
        }
        lastBlockHeight := Some(tip.height);
      }
    }

    method UpdateMonitoredAddresses(newAddresses: seq<string>)
      modifies this
      ensures dormantAddresses == old(dormantAddresses) + set a | a in newAddresses
      ensures lastBlockHeight == old(lastBlockHeight)
    {
      dormantAddresses := dormantAddresses + set a | a in newAddresses;
    }

    method RemoveMonitoredAddresses(addresses: seq<string>)
      modifies this
      ensures dormantAddresses == old(dormantAddresses) - set a | a in addresses
      ensures lastBlockHeight == old(lastBlockHeight)
    {
      dormantAddresses := dormantAddresses - set a | a in addresses;
    }

    /** `get_stats`: monitoring counts as active exactly when a height is recorded. */
    function GetStats(): (s: MonitorStats)
      reads this
      ensures s.monitoredAddresses == |dormantAddresses|
      ensures s.lastBlockHeight == lastBlockHeight
      ensures s.monitoringActive <==> lastBlockHeight.Some?
    {
      MonitorStats(|dormantAddresses|, lastBlockHeight, lastBlockHeight.Some?)
    }
  }
}
