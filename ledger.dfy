/** The hash-chained audit ledger (`Block`, `BlockchainLedger`).

    A block stores its index, a timestamp, a data dictionary, the hash of
    its predecessor and its own hash.  The digest (SHA-256 over the
    key-sorted JSON rendering of the four other fields) is not computed
    here: the ledger holds it as an uninterpreted function `hashFn`, so
    every property below holds for any digest function whatsoever. */
module Ledger {
  import opened Wrappers
  import opened Values

  /** A block's data dictionary. */
  type Data = map<string, Value>

  /** The digest of (index, timestamp, data, previous_hash). */
  type HashFn = (int, string, Data, string) -> string

  datatype Block = Block(index: int, timestamp: string, data: Data, previousHash: string, hash: string)

  datatype LedgerError =
    | EmptyChain                  // `self.chain[-1]` on an empty chain
    | MalformedRecord(at: nat)    // a loaded record lacks a field, or a field is not of the type a block stores

  const GenesisMessage: string := "Genesis Block - MedChain-FL"

  /** `Block.calculate_hash`: the digest of the block's four hashed fields. */
  function CalculateHash(h: HashFn, b: Block): string
  {
    h(b.index, b.timestamp, b.data, b.previousHash)
  }

  predicate HashCorrect(h: HashFn, b: Block)
  {
    b.hash == CalculateHash(h, b)
  }

  /** The `Block` constructor: keeps the four fields and computes the hash. */
  function NewBlock(h: HashFn, index: int, timestamp: string, data: Data, previousHash: string): (b: Block)
    ensures b.index == index && b.timestamp == timestamp && b.data == data && b.previousHash == previousHash
    ensures HashCorrect(h, b)
  {
    Block(index, timestamp, data, previousHash, h(index, timestamp, data, previousHash))
  }

  function GenesisBlock(h: HashFn, now: string): Block
  {
    NewBlock(h, 0, now, map["message" := Str(GenesisMessage)], "0")
  }

  /** What `is_valid` accepts: from index 1 on, every stored hash is the
      digest of its block and every block links to its predecessor.  The
      genesis block itself is never checked. */
  predicate ChainValid(h: HashFn, chain: seq<Block>)
  {
    forall i :: 1 <= i < |chain| ==> HashCorrect(h, chain[i]) && chain[i].previousHash == chain[i - 1].hash
  }

  /** Every block carries the digest of its own fields, genesis included. */
  predicate AllHashesCorrect(h: HashFn, chain: seq<Block>)
  {
    forall i :: 0 <= i < |chain| ==> HashCorrect(h, chain[i])
  }

  /** Every block from index 1 on names its predecessor's hash. */
  predicate Linked(chain: seq<Block>)
  {
    forall i :: 1 <= i < |chain| ==> chain[i].previousHash == chain[i - 1].hash
  }

  /** The block `add_block` appends to a non-empty chain. */
  function NextBlock(h: HashFn, chain: seq<Block>, data: Data, now: string): Block
    requires chain != []
  {
    NewBlock(h, |chain|, now, data, chain[|chain| - 1].hash)
  }

  /** The data dictionary `record_fl_round` stores. */
  function FlRoundData(round: int, numClients: int, metrics: Data, modelHash: Option<string>): Data
  {
    map[
      "type" := Str("fl_round"),
      "round" := Int(round),
      "num_clients" := Int(numClients),
      "metrics" := Obj(metrics),
      "model_hash" := if modelHash.Some? then Str(modelHash.value) else Null
    ]
  }

  /** The data dictionary `record_client_update` stores. */
  function ClientUpdateData(round: int, clientId: string, dataSize: int, metrics: Data): Data
  {
    map[
      "type" := Str("client_update"),
      "round" := Int(round),
      "client_id" := Str(clientId),
      "data_size" := Int(dataSize),
      "metrics" := Obj(metrics)
    ]
  }

  /** `Block.to_dict`. */
  function ToDict(b: Block): Data
  {
    map[
      "index" := Int(b.index),
      "timestamp" := Str(b.timestamp),
      "data" := Obj(b.data),
      "previous_hash" := Str(b.previousHash),
      "hash" := Str(b.hash)
    ]
  }

  /** `block.data.get("type") == "fl_round"`. */
  predicate IsFlRound(b: Block)
  {
    "type" in b.data && b.data["type"] == Str("fl_round")
  }

  /** `get_fl_rounds`: the dictionaries of the blocks tagged "fl_round",
      in chain order. */
  function FlRounds(chain: seq<Block>): (r: seq<Data>)
    ensures |r| <= |chain|
    ensures forall d :: d in r ==> exists i :: 0 <= i < |chain| && IsFlRound(chain[i]) && d == ToDict(chain[i])
    ensures forall i :: 0 <= i < |chain| && IsFlRound(chain[i]) ==> ToDict(chain[i]) in r
  {
    if chain == [] then []
    else
      var last := chain[|chain| - 1];
      FlRounds(chain[..|chain| - 1]) + (if IsFlRound(last) then [ToDict(last)] else [])
  }

  /** One iteration of the rebuild loop in `load_from_file`: read the four
      hashed fields of a record and construct a fresh block, which
      recomputes the hash; the record's stored "hash" is never read. */
  function FromRecord(h: HashFn, rec: Data): (r: Option<Block>)
    ensures r.Some? ==> HashCorrect(h, r.value)
    ensures r.Some? <==> RecordWellFormed(rec)
  {
    if RecordWellFormed(rec) then
      Some(NewBlock(h, rec["index"].i, rec["timestamp"].s, rec["data"].fields, rec["previous_hash"].s))
    else None
  }

  predicate RecordWellFormed(rec: Data)
  {
    && "index" in rec && rec["index"].Int?
    && "timestamp" in rec && rec["timestamp"].Str?
    && "data" in rec && rec["data"].Obj?
    && "previous_hash" in rec && rec["previous_hash"].Str?
  }

  class BlockchainLedger {
    const hashFn: HashFn
    var chain: seq<Block>

    /** Blocks are only ever made by the `Block` constructor, so every
        stored hash is the digest of its block. */
    ghost predicate Valid()
      reads this
    {
      AllHashesCorrect(hashFn, chain)
    }

    /** `__init__` and `create_genesis_block`. */
    constructor (hashFn: HashFn, now: string)
      ensures Valid() && this.hashFn == hashFn
      ensures chain == [GenesisBlock(hashFn, now)]
      ensures chain[0].index == 0 && chain[0].previousHash == "0"
      ensures ChainValid(hashFn, chain)
    {
      this.hashFn := hashFn;
      chain := [GenesisBlock(hashFn, now)];
    }

    /** `add_block`: append one block linked to the current tail.  On an
        empty chain (only reachable by loading an empty file) the source
        fails on `self.chain[-1]`. */
    method AddBlock(data: Data, now: string) returns (r: Result<Block, LedgerError>)
      requires Valid()
      modifies this
      ensures Valid()
      ensures old(chain) == [] ==> r == Failure(EmptyChain) && chain == old(chain)
      ensures old(chain) != [] ==>
        && r == Success(NextBlock(hashFn, old(chain), data, now))
        && chain == old(chain) + [r.value]
      ensures r.Success? ==>
        && r.value.index == |old(chain)| && r.value.data == data
        && r.value.previousHash == old(chain)[|old(chain)| - 1].hash
      ensures ChainValid(hashFn, old(chain)) ==> ChainValid(hashFn, chain)
      ensures FlRounds(chain) == old(FlRounds(chain)) + (if r.Success? && IsFlRound(r.value) then [ToDict(r.value)] else [])
    {
      if chain == [] {
        return Failure(EmptyChain);
      }
      var latest := chain[|chain| - 1];
      var block := NewBlock(hashFn, |chain|, now, data, latest.hash);
      chain := chain + [block];
      assert chain[..|chain| - 1] == old(chain);
      r := Success(block);
    }

    /** `record_fl_round`. */
    method RecordFlRound(round: int, numClients: int, metrics: Data, modelHash: Option<string>, now: string)
      returns (r: Result<Block, LedgerError>)
      requires Valid()
      modifies this
      ensures Valid()
      ensures old(chain) == [] ==> r == Failure(EmptyChain) && chain == old(chain)
      ensures old(chain) != [] ==>
        && r == Success(NextBlock(hashFn, old(chain), FlRoundData(round, numClients, metrics, modelHash), now))
        && chain == old(chain) + [r.value]
      ensures r.Success? ==> IsFlRound(r.value) && FlRounds(chain) == old(FlRounds(chain)) + [ToDict(r.value)]
      ensures ChainValid(hashFn, old(chain)) ==> ChainValid(hashFn, chain)
    {
      r := AddBlock(FlRoundData(round, numClients, metrics, modelHash), now);
    }

    /** `record_client_update`. */
    method RecordClientUpdate(round: int, clientId: string, dataSize: int, metrics: Data, now: string)
      returns (r: Result<Block, LedgerError>)
      requires Valid()
      modifies this
      ensures Valid()
      ensures old(chain) == [] ==> r == Failure(EmptyChain) && chain == old(chain)
      ensures old(chain) != [] ==>
        && r == Success(NextBlock(hashFn, old(chain), ClientUpdateData(round, clientId, dataSize, metrics), now))
        && chain == old(chain) + [r.value]
      ensures FlRounds(chain) == old(FlRounds(chain))
      ensures ChainValid(hashFn, old(chain)) ==> ChainValid(hashFn, chain)
    {
      var data := ClientUpdateData(round, clientId, dataSize, metrics);
      assert data["type"] != Str("fl_round");
      r := AddBlock(data, now);
    }

    /** `is_valid`: walk the chain from index 1 and stop at the first block
        whose hash is wrong or whose link to its predecessor is broken. */
    method IsValid() returns (ok: bool)
      ensures ok == ChainValid(hashFn, chain)
    {
      var i := 1;
      while i < |chain|
        invariant 1 <= i
        invariant forall k :: 1 <= k < i && k < |chain| ==>
          HashCorrect(hashFn, chain[k]) && chain[k].previousHash == chain[k - 1].hash
      {
        if chain[i].hash != CalculateHash(hashFn, chain[i]) {
          return false;
        }
        if chain[i].previousHash != chain[i - 1].hash {
          return false;
        }
        i := i + 1;
      }
      return true;
    }

    /** `get_chain`: one dictionary per block. */
    function GetChain(): (r: seq<Data>)
      reads this
      ensures |r| == |chain|
      ensures forall i :: 0 <= i < |r| ==> r[i] == ToDict(chain[i])
    {
      seq(|chain|, i requires 0 <= i < |chain| reads this => ToDict(chain[i]))
    }

    /** `get_fl_rounds`. */
    function GetFlRounds(): seq<Data>
      reads this
    {
      FlRounds(chain)
    }

    /** The rebuild loop of `load_from_file`, from the already parsed
        records: the chain is emptied, then one block per record is
        constructed (recomputing its hash) and appended.  A malformed
        record stops the loop, leaving the blocks rebuilt so far. */
    method LoadFromRecords(records: seq<Data>) returns (r: Result<(), LedgerError>)
      requires Valid()
      modifies this
      ensures Valid()
      ensures |chain| <= |records|
      ensures forall i :: 0 <= i < |chain| ==> FromRecord(hashFn, records[i]) == Some(chain[i])
      ensures r.Success? <==> |chain| == |records|
      ensures r.Failure? ==> r.error == MalformedRecord(|chain|) && !RecordWellFormed(records[|chain|])
    {
      chain := [];
      var i := 0;
      while i < |records|
        invariant 0 <= i <= |records| && |chain| == i
        invariant AllHashesCorrect(hashFn, chain)
        invariant forall k :: 0 <= k < i ==> FromRecord(hashFn, records[k]) == Some(chain[k])
      {
        var block := FromRecord(hashFn, records[i]);
        if block.None? {
          return Failure(MalformedRecord(i));
        }
        chain := chain + [block.value];
        i := i + 1;
      }
      return Success(());
    }
  }

  /** Appending with `add_block` keeps a valid chain valid, whatever the
      digest function. */
  lemma {:induction false} AppendKeepsValid(h: HashFn, chain: seq<Block>, data: Data, now: string)
    requires chain != [] && ChainValid(h, chain)
    ensures ChainValid(h, chain + [NextBlock(h, chain, data, now)])
  {
    var c := chain + [NextBlock(h, chain, data, now)];
    forall i | 1 <= i < |c|
      ensures HashCorrect(h, c[i]) && c[i].previousHash == c[i - 1].hash
    {
      if i < |chain| {
        assert c[i] == chain[i] && c[i - 1] == chain[i - 1];
      }
    }
  }

  /** Any sequence of data dictionaries appended to a fresh ledger leaves a
      valid chain of dense indices. */
  lemma {:induction false} AppendsFromGenesisValid(h: HashFn, now: string, datas: seq<Data>, stamps: seq<string>)
    requires |datas| == |stamps|
    ensures var c := AppendAll(h, [GenesisBlock(h, now)], datas, stamps);
      && ChainValid(h, c) && |c| == |datas| + 1
      && forall i :: 0 <= i < |c| ==> c[i].index == i
  {
    if datas == [] {
    } else {
      var n := |datas| - 1;
      AppendsFromGenesisValid(h, now, datas[..n], stamps[..n]);
      var c := AppendAll(h, [GenesisBlock(h, now)], datas[..n], stamps[..n]);
      AppendKeepsValid(h, c, datas[n], stamps[n]);
    }
  }

  /** The chain after `add_block(datas[0])`, ..., `add_block(datas[n-1])`
      issued at the given times. */
  function AppendAll(h: HashFn, chain: seq<Block>, datas: seq<Data>, stamps: seq<string>): (c: seq<Block>)
    requires chain != [] && |datas| == |stamps|
    ensures |c| == |chain| + |datas| && c[..|chain|] == chain
  {
    if datas == [] then chain
    else
      var n := |datas| - 1;
      var prefix := AppendAll(h, chain, datas[..n], stamps[..n]);
      prefix + [NextBlock(h, prefix, datas[n], stamps[n])]
  }

  /** `get_fl_rounds` keeps chain order: the rounds of two consecutive
      stretches of a chain are those of the first followed by those of the
      second. */
  lemma {:induction false} FlRoundsConcat(a: seq<Block>, b: seq<Block>)
    ensures FlRounds(a + b) == FlRounds(a) + FlRounds(b)
    decreases |b|
  {
    if b == [] {
      assert a + b == a;
    } else {
      var n := |b| - 1;
      var tail := if IsFlRound(b[n]) then [ToDict(b[n])] else [];
      calc {
        FlRounds(a + b);
        { assert a + b == (a + b[..n]) + [b[n]]; FlRoundsSnoc(a + b[..n], b[n]); }
        FlRounds(a + b[..n]) + tail;
        { FlRoundsConcat(a, b[..n]); }
        (FlRounds(a) + FlRounds(b[..n])) + tail;
        { AppendAssoc(FlRounds(a), FlRounds(b[..n]), tail); }
        FlRounds(a) + (FlRounds(b[..n]) + tail);
        { assert b == b[..n] + [b[n]]; FlRoundsSnoc(b[..n], b[n]); }
        FlRounds(a) + FlRounds(b);
      }
    }
  }

  lemma AppendAssoc<T>(x: seq<T>, y: seq<T>, z: seq<T>)
    ensures (x + y) + z == x + (y + z)
  {
  }

  lemma FlRoundsSnoc(c: seq<Block>, x: Block)
    ensures FlRounds(c + [x]) == FlRounds(c) + (if IsFlRound(x) then [ToDict(x)] else [])
  {
    assert (c + [x])[..|c|] == c;
  }

  /** A single block contributes one entry exactly when it is tagged
      "fl_round"; with `FlRoundsConcat` this fixes one entry per tagged
      block, in chain order. */
  lemma FlRoundsSingle(b: Block)
    ensures FlRounds([b]) == if IsFlRound(b) then [ToDict(b)] else []
  {
    assert [b][..0] == [];
  }

  /** A rebuilt (or ledger-built) chain carries correct hashes, so the only
      check `is_valid` can still fail is the link to the predecessor. */
  lemma RebuiltValidIffLinked(h: HashFn, chain: seq<Block>)
    requires AllHashesCorrect(h, chain)
    ensures ChainValid(h, chain) <==> Linked(chain)
  {
  }

  /** Saving and reloading reproduces every block whose stored hash is its
      digest: the record written by `to_dict` is rebuilt into the very same
      block. */
  lemma SaveLoadRoundTrip(h: HashFn, b: Block)
    requires HashCorrect(h, b)
    ensures FromRecord(h, ToDict(b)) == Some(b)
  {
  }

  /** Changing the data of a block past genesis is caught, provided the
      digest of the altered fields differs from the stored hash. */
  lemma TamperDetected(h: HashFn, chain: seq<Block>, i: nat, d: Data)
    requires 1 <= i < |chain|
    requires h(chain[i].index, chain[i].timestamp, d, chain[i].previousHash) != chain[i].hash
    ensures !ChainValid(h, chain[i := chain[i].(data := d)])
  {
    var c := chain[i := chain[i].(data := d)];
    assert !HashCorrect(h, c[i]);
  }

  /** The genesis block is never checked: rewriting its data (keeping its
      stored hash) goes unnoticed by `is_valid`. */
  lemma GenesisUnchecked(h: HashFn, chain: seq<Block>, d: Data)
    requires |chain| >= 1 && ChainValid(h, chain)
    ensures ChainValid(h, chain[0 := chain[0].(data := d)])
  {
    var c := chain[0 := chain[0].(data := d)];
    forall i | 1 <= i < |c|
      ensures HashCorrect(h, c[i]) && c[i].previousHash == c[i - 1].hash
    {
      assert c[i] == chain[i] && c[i - 1].hash == chain[i - 1].hash;
    }
  }
}
