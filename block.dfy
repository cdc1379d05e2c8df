/**
 * `SPHINXBlock::Block`: a mutable record of header fields and transactions,
 * with in-place setters, proof-of-work mining and the JSON serialiser pair.
 */
module Blocks {
  import opened Common
  import opened Json
  import opened BlockRecord
  import opened Mining

  /** `SPHINXVerify::SPHINX_PublicKey`: a public key held as a string. */
  datatype PublicKey = PublicKey(publicKey: string)

  /**
   * The collaborators whose code is not part of this model, as functions:
   * `calculateBlockHash` (its body is empty) of the block's fields,
   * `SPHINXMerkleBlock::constructMerkleTree` of the transactions,
   * `MerkleBlock::verifyMerkleRoot` of a root and transactions, and the
   * three-argument `verifySignature` of a hash, a signature and a key (also
   * without a body).
   */
  datatype Externals = Externals(
    blockHash: BlockState -> string,
    constructMerkleTree: seq<string> -> string,
    verifyMerkleRoot: (string, seq<string>) -> bool,
    verifySignature: (string, string, PublicKey) -> bool)

  /** The hash of block `s` with its nonce replaced by `n` misses difficulty `d`. */
  ghost predicate MissesTarget(ext: Externals, s: BlockState, d: uint32, n: uint32)
  {
    !MeetsTarget(ext.blockHash(s.(nonce := n)), d as nat)
  }

  /** Once the 2^32 increments from `s.nonce` all missed, so does every nonce. */
  lemma EveryNonceMisses(ext: Externals, s: BlockState, d: uint32)
    requires forall k :: 1 <= k <= UINT32_RANGE ==> MissesTarget(ext, s, d, AddNonce(s.nonce, k))
    ensures forall n: uint32 :: MissesTarget(ext, s, d, n)
  {
    forall n: uint32 ensures MissesTarget(ext, s, d, n) {
      var k := NonceCycle(s.nonce, n);
    }
  }

  class Block {
    var previousHash: string
    var merkleRoot: string
    var signature: string
    var blockHeight: uint32
    var timestamp: int64
    var nonce: uint32
    var difficulty: uint32
    var transactions: seq<string>

    /** The borrowed list of checkpoint blocks; no operation reads it. */
    const checkpointBlocks: seq<string>

    /** The block's fields as one value. */
    function State(): BlockState
      reads this
    {
      BlockState(previousHash, merkleRoot, signature, blockHeight,
                 timestamp, nonce, difficulty, transactions)
    }

    /**
     * `Block(previousHash)`, with the clock reading `now` passed in. The C++
     * constructor leaves the checkpoint reference unbound; here it is empty.
     */
    constructor (previousHash: string, now: int64)
      ensures State() == BlockState(previousHash, "", "", 0, now, 0, 0, [])
      ensures checkpointBlocks == []
    {
      this.previousHash := previousHash;
      merkleRoot, signature := "", "";
      blockHeight, nonce, difficulty := 0, 0, 0;
      timestamp := now;
      transactions := [];
      checkpointBlocks := [];
    }

    /** `Block(previousHash, checkpointBlocks)`, with the clock reading `now` passed in. */
    constructor WithCheckpoints(previousHash: string, checkpointBlocks: seq<string>, now: int64)
      ensures State() == BlockState(previousHash, "", "", 0, now, 0, 0, [])
      ensures this.checkpointBlocks == checkpointBlocks
    {
      this.previousHash := previousHash;
      merkleRoot, signature := "", "";
      blockHeight, nonce, difficulty := 0, 0, 0;
      timestamp := now;
      transactions := [];
      this.checkpointBlocks := checkpointBlocks;
    }

    /** Appends one transaction, whatever the block already holds. */
    method AddTransaction(transaction: string)
      modifies this
      ensures transactions == old(transactions) + [transaction]
      ensures |transactions| == |old(transactions)| + 1
      ensures State() == old(State()).(transactions := transactions)
    {
      transactions := transactions + [transaction];
    }

    /** `calculateBlockHash()` as `getBlockHash()` returns it. */
    function GetBlockHash(ext: Externals): (h: string)
      reads this
      ensures h == ext.blockHash(State())
    {
      ext.blockHash(State())
    }

    /** `calculateMerkleRoot()`: the Merkle root of the current transactions; it stores nothing. */
    function CalculateMerkleRoot(ext: Externals): (root: string)
      reads this
      ensures root == ext.constructMerkleTree(State().transactions)
    {
      ext.constructMerkleTree(transactions)
    }

    /** The one-argument `verifySignature`: the stored signature checked against the block hash. */
    function VerifySignature(ext: Externals, publicKey: PublicKey): (ok: bool)
      reads this
      ensures ok <==> ext.verifySignature(GetBlockHash(ext), State().signature, publicKey)
    {
      ext.verifySignature(GetBlockHash(ext), signature, publicKey)
    }

    /**
     * `verifyBlock`: the signature over the block hash and the stored Merkle
     * root against the transactions must both check out.
     */
    function VerifyBlock(ext: Externals, publicKey: PublicKey): (ok: bool)
      reads this
      ensures ok <==> ext.verifySignature(GetBlockHash(ext), State().signature, publicKey)
                      && ext.verifyMerkleRoot(State().merkleRoot, State().transactions)
    {
      VerifySignature(ext, publicKey) && ext.verifyMerkleRoot(merkleRoot, transactions)
    }

    /**
     * `mineBlock(difficulty)`: increments `nonce_` (wrapping at 2^32) and
     * hashes until the hash meets the target. The C++ loop has no exit but
     * success; after 2^32 failed attempts the nonce is back at its start and
     * every further attempt repeats an earlier hash, so the loop here stops
     * there and `mined == false` marks exactly the case where the C++ call
     * never returns.
     */
    method MineBlock(ext: Externals, difficulty: uint32) returns (mined: bool, ghost attempts: int)
      modifies this
      ensures 1 <= attempts <= UINT32_RANGE
      ensures State() == old(State()).(nonce := AddNonce(old(nonce), attempts))
      ensures forall k :: 1 <= k < attempts ==>
                MissesTarget(ext, old(State()), difficulty, AddNonce(old(nonce), k))
      ensures mined ==> MeetsTarget(GetBlockHash(ext), difficulty as nat)
      ensures mined ==> |GetBlockHash(ext)| >= difficulty as nat
      ensures !mined <==> forall n: uint32 :: MissesTarget(ext, old(State()), difficulty, n)
      ensures !mined ==> attempts == UINT32_RANGE && nonce == old(nonce)
    {
      ghost var start := State();
      var target := Target(difficulty as nat);
      var i := 0;
      while i < UINT32_RANGE
        invariant 0 <= i <= UINT32_RANGE
        invariant State() == start.(nonce := AddNonce(start.nonce, i))
        invariant forall k :: 1 <= k <= i ==> MissesTarget(ext, start, difficulty, AddNonce(start.nonce, k))
      {
        nonce := AddNonce(nonce, 1);
        i := i + 1;
        var blockHash := ext.blockHash(State());
        if Prefix(blockHash, difficulty as nat) == target {
          assert !MissesTarget(ext, start, difficulty, nonce);
          mined, attempts := true, i;
          return;
        }
      }
      EveryNonceMisses(ext, start, difficulty);
      mined, attempts := false, i;
    }

    method SetMerkleRoot(merkleRoot: string)
      modifies this
      ensures State() == old(State()).(merkleRoot := merkleRoot)
      ensures GetMerkleRoot() == merkleRoot
    {
      this.merkleRoot := merkleRoot;
    }

    method SetSignature(signature: string)
      modifies this
      ensures State() == old(State()).(signature := signature)
      ensures GetSignature() == signature
    {
      this.signature := signature;
    }

    method SetBlockHeight(blockHeight: uint32)
      modifies this
      ensures State() == old(State()).(blockHeight := blockHeight)
      ensures GetBlockHeight() == blockHeight
    {
      this.blockHeight := blockHeight;
    }

    method SetNonce(nonce: uint32)
      modifies this
      ensures State() == old(State()).(nonce := nonce)
      ensures GetNonce() == nonce
    {
      this.nonce := nonce;
    }

    method SetDifficulty(difficulty: uint32)
      modifies this
      ensures State() == old(State()).(difficulty := difficulty)
      ensures GetDifficulty() == difficulty
    {
      this.difficulty := difficulty;
    }

    /** Replaces the whole transaction list with a copy of `transactions`. */
    method SetTransactions(transactions: seq<string>)
      modifies this
      ensures State() == old(State()).(transactions := transactions)
      ensures GetTransactions() == transactions
    {
      this.transactions := transactions;
    }

    function GetPreviousHash(): (r: string)
      reads this
      ensures r == State().previousHash
    {
      previousHash
    }

    function GetMerkleRoot(): (r: string)
      reads this
      ensures r == State().merkleRoot
    {
      merkleRoot
    }

    function GetSignature(): (r: string)
      reads this
      ensures r == State().signature
    {
      signature
    }

    function GetBlockHeight(): (r: uint32)
      reads this
      ensures r == State().blockHeight
    {
      blockHeight
    }

    function GetTimestamp(): (r: int64)
      reads this
      ensures r == State().timestamp
    {
      timestamp
    }

    function GetNonce(): (r: uint32)
      reads this
      ensures r == State().nonce
    {
      nonce
    }

    function GetDifficulty(): (r: uint32)
      reads this
      ensures r == State().difficulty
    {
      difficulty
    }

    function GetTransactions(): (r: seq<string>)
      reads this
      ensures r == State().transactions
    {
      transactions
    }

    /** `toJson()`: the block record, its transaction array built one push at a time. */
    method ToJson() returns (blockJson: Json)
      ensures blockJson == Encode(State())
    {
      var transactionsJson: seq<Json> := [];
      for i := 0 to |transactions|
        invariant |transactionsJson| == i
        invariant forall k :: 0 <= k < i ==> transactionsJson[k] == JString(transactions[k])
      {
        transactionsJson := transactionsJson + [JString(transactions[i])];
      }
      assert transactionsJson == TransactionsArray(transactions);
      blockJson := JObject(map[
        "previousHash" := JString(previousHash),
        "merkleRoot" := JString(merkleRoot),
        "signature" := JString(signature),
        "blockHeight" := JNumber(blockHeight as int),
        "timestamp" := JNumber(timestamp as int),
        "nonce" := JNumber(nonce as int),
        "difficulty" := JNumber(difficulty as int),
        "transactions" := JArray(transactionsJson)]);
    }

    /**
     * `fromJson(blockJson)`: assigns the fields from the record in order; the
     * first access that throws ends the call, returned here as `error`, with
     * the assignments before it kept.
     */
    method FromJson(blockJson: Json) returns (error: Option<AccessError>)
      modifies this
      ensures Applied(State(), error) == ApplyJson(old(State()), blockJson)
      ensures error.None? ==> Decode(blockJson) == Success(State())
    {
      ApplyJsonDecodes(State(), blockJson);
      var ph := StringMember(blockJson, "previousHash");
      if ph.Failure? { return Some(ph.error); }
      previousHash := ph.value;
      var mr := StringMember(blockJson, "merkleRoot");
      if mr.Failure? { return Some(mr.error); }
      merkleRoot := mr.value;
      var sg := StringMember(blockJson, "signature");
      if sg.Failure? { return Some(sg.error); }
      signature := sg.value;
      var bh := Uint32Member(blockJson, "blockHeight");
      if bh.Failure? { return Some(bh.error); }
      blockHeight := bh.value;
      var ts := Int64Member(blockJson, "timestamp");
      if ts.Failure? { return Some(ts.error); }
      timestamp := ts.value;
      var nc := Uint32Member(blockJson, "nonce");
      if nc.Failure? { return Some(nc.error); }
      nonce := nc.value;
      var df := Uint32Member(blockJson, "difficulty");
      if df.Failure? { return Some(df.error); }
      difficulty := df.value;
      assert ApplyHeader(old(State()), blockJson) == Applied(State(), None);
      error := ReadTransactions(blockJson);
    }

    /** The clear-then-append loop at the end of `fromJson`. */
    method ReadTransactions(blockJson: Json) returns (error: Option<AccessError>)
      modifies this
      ensures Applied(State(), error) == ApplyTransactions(old(State()), blockJson)
    {
      transactions := [];
      var tx := Member(blockJson, "transactions");
      if tx.Failure? { return Some(tx.error); }
      var items := Elements(tx.value, "transactions");
      if items.Failure? { return Some(items.error); }
      ghost var cleared := State();
      var i := 0;
      while i < |items.value|
        invariant 0 <= i <= |items.value|
        invariant State() == cleared.(transactions := transactions)
        invariant |transactions| == i
        invariant forall k :: 0 <= k < i ==> items.value[k] == JString(transactions[k])
      {
        var item := GetString(items.value[i], "transactions");
        if item.Failure? {
          PushStringsAt(items.value, "transactions", transactions);
          return Some(item.error);
        }
        transactions := transactions + [item.value];
        i := i + 1;
      }
      PushStringsAt(items.value, "transactions", transactions);
      error := None;
    }
  }
}
