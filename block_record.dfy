/**
 * The value held by a block (its eight serialised fields) and the JSON record
 * `toJson` writes and `fromJson` reads.
 */
module BlockRecord {
  import opened Common
  import opened Json

  /** The fields of one `SPHINXBlock::Block`, as a value. */
  datatype BlockState = BlockState(
    previousHash: string,
    merkleRoot: string,
    signature: string,
    blockHeight: uint32,
    timestamp: int64,
    nonce: uint32,
    difficulty: uint32,
    transactions: seq<string>)

  /** The eight keys of a block record. */
  const RECORD_KEYS: set<string> :=
    {"previousHash", "merkleRoot", "signature", "blockHeight",
     "timestamp", "nonce", "difficulty", "transactions"}

  /** The JSON array of a transaction list, one string per transaction, in order. */
  function TransactionsArray(ts: seq<string>): (items: seq<Json>)
    ensures |items| == |ts|
    ensures forall i :: 0 <= i < |ts| ==> items[i] == JString(ts[i])
  {
    seq(|ts|, i requires 0 <= i < |ts| => JString(ts[i]))
  }

  /** The record `toJson` produces for a block. */
  function Encode(s: BlockState): (j: Json)
    ensures j.JObject? && j.members.Keys == RECORD_KEYS
    ensures j.members["previousHash"] == JString(s.previousHash)
    ensures j.members["merkleRoot"] == JString(s.merkleRoot)
    ensures j.members["signature"] == JString(s.signature)
    ensures j.members["blockHeight"] == JNumber(s.blockHeight as int)
    ensures j.members["timestamp"] == JNumber(s.timestamp as int)
    ensures j.members["nonce"] == JNumber(s.nonce as int)
    ensures j.members["difficulty"] == JNumber(s.difficulty as int)
    ensures j.members["transactions"].JArray?
    ensures |j.members["transactions"].items| == |s.transactions|
    ensures forall i :: 0 <= i < |s.transactions| ==>
              j.members["transactions"].items[i] == JString(s.transactions[i])
  {
    JObject(map[
      "previousHash" := JString(s.previousHash),
      "merkleRoot" := JString(s.merkleRoot),
      "signature" := JString(s.signature),
      "blockHeight" := JNumber(s.blockHeight as int),
      "timestamp" := JNumber(s.timestamp as int),
      "nonce" := JNumber(s.nonce as int),
      "difficulty" := JNumber(s.difficulty as int),
      "transactions" := JArray(TransactionsArray(s.transactions))])
  }

  /**
   * The loop that pushes `get<std::string>()` of each item in turn: the strings
   * of the longest all-string prefix of `items`, and the error thrown by the
   * first item that is not a string, if there is one.
   */
  function PushStrings(items: seq<Json>, key: string): (r: (seq<string>, Option<AccessError>))
    ensures |r.0| <= |items|
    ensures forall i :: 0 <= i < |r.0| ==> items[i] == JString(r.0[i])
    ensures r.1.None? <==> |r.0| == |items|
    ensures r.1.Some? ==> !items[|r.0|].JString? && r.1.value == WrongType(key)
    decreases |items|
  {
    if items == [] then ([], None)
    else if !items[0].JString? then ([], Some(WrongType(key)))
    else
      var rest := PushStrings(items[1..], key);
      ([items[0].s] + rest.0, rest.1)
  }

  /** PushStrings is determined by where the first non-string item stands. */
  lemma {:induction false} PushStringsAt(items: seq<Json>, key: string, ts: seq<string>)
    requires |ts| <= |items|
    requires forall i :: 0 <= i < |ts| ==> items[i] == JString(ts[i])
    ensures |ts| == |items| ==> PushStrings(items, key) == (ts, None)
    ensures |ts| < |items| && !items[|ts|].JString? ==>
              PushStrings(items, key) == (ts, Some(WrongType(key)))
  {
    if ts != [] {
      PushStringsAt(items[1..], key, ts[1..]);
      assert items[0] == JString(ts[0]);
      assert [ts[0]] + ts[1..] == ts;
    }
  }

  /** What `fromJson` leaves behind: the block's new fields and the exception it threw, if any. */
  datatype Applied = Applied(state: BlockState, error: Option<AccessError>)

  /** `j[key].get<std::string>()`. */
  function StringMember(j: Json, key: string): Result<string, AccessError>
  {
    var v :- Member(j, key);
    GetString(v, key)
  }

  /** `j[key].get<uint32_t>()`. */
  function Uint32Member(j: Json, key: string): Result<uint32, AccessError>
  {
    var v :- Member(j, key);
    GetUint32(v, key)
  }

  /** `j[key].get<std::time_t>()`. */
  function Int64Member(j: Json, key: string): Result<int64, AccessError>
  {
    var v :- Member(j, key);
    GetInt64(v, key)
  }

  /** A value `get<uint32_t>()` converts: a number or a boolean. */
  predicate IsIntegral(v: Json)
  {
    v.JNumber? || v.JBool?
  }

  /**
   * A "transactions" value whose every visited element is a string: null
   * (nothing visited), one string, or an array of strings.
   */
  predicate TransactionsReadable(v: Json)
  {
    v.JNull? || v.JString? || (v.JArray? && forall i :: 0 <= i < |v.items| ==> v.items[i].JString?)
  }

  /** A record every read of `fromJson` accepts: all eight members, each of a type its read converts. */
  predicate WellTypedRecord(j: Json)
  {
    && j.JObject? && RECORD_KEYS <= j.members.Keys
    && j.members["previousHash"].JString?
    && j.members["merkleRoot"].JString?
    && j.members["signature"].JString?
    && IsIntegral(j.members["blockHeight"])
    && j.members["timestamp"].JNumber?
    && IsIntegral(j.members["nonce"])
    && IsIntegral(j.members["difficulty"])
    && TransactionsReadable(j.members["transactions"])
  }

  /**
   * The first seven assignments of `fromJson` applied to a block holding `s`,
   * as written: the scalar fields are assigned one after another, and the
   * first access that throws stops the sequence with the earlier assignments
   * in place.
   */
  function ApplyHeader(s: BlockState, j: Json): (r: Applied)
    ensures r.state.transactions == s.transactions
    ensures r.error.Some? ==> r.error.value.key in RECORD_KEYS - {"transactions"}
    ensures r.error.None? ==>
              && StringMember(j, "previousHash") == Success(r.state.previousHash)
              && StringMember(j, "merkleRoot") == Success(r.state.merkleRoot)
              && StringMember(j, "signature") == Success(r.state.signature)
              && Uint32Member(j, "blockHeight") == Success(r.state.blockHeight)
              && Int64Member(j, "timestamp") == Success(r.state.timestamp)
              && Uint32Member(j, "nonce") == Success(r.state.nonce)
              && Uint32Member(j, "difficulty") == Success(r.state.difficulty)
  {
    var ph := StringMember(j, "previousHash");
    if ph.Failure? then Applied(s, Some(ph.error)) else
    var s1 := s.(previousHash := ph.value);
    var mr := StringMember(j, "merkleRoot");
    if mr.Failure? then Applied(s1, Some(mr.error)) else
    var s2 := s1.(merkleRoot := mr.value);
    var sg := StringMember(j, "signature");
    if sg.Failure? then Applied(s2, Some(sg.error)) else
    var s3 := s2.(signature := sg.value);
    var bh := Uint32Member(j, "blockHeight");
    if bh.Failure? then Applied(s3, Some(bh.error)) else
    var s4 := s3.(blockHeight := bh.value);
    var ts := Int64Member(j, "timestamp");
    if ts.Failure? then Applied(s4, Some(ts.error)) else
    var s5 := s4.(timestamp := ts.value);
    var nc := Uint32Member(j, "nonce");
    if nc.Failure? then Applied(s5, Some(nc.error)) else
    var s6 := s5.(nonce := nc.value);
    var df := Uint32Member(j, "difficulty");
    if df.Failure? then Applied(s6, Some(df.error)) else
    Applied(s6.(difficulty := df.value), None)
  }

  /**
   * The last step of `fromJson`: the transaction list is cleared before the
   * "transactions" member is looked up, and a non-string transaction leaves
   * the strings before it appended.
   */
  function ApplyTransactions(s: BlockState, j: Json): (r: Applied)
    ensures r.state == s.(transactions := r.state.transactions)
    ensures r.error.Some? ==> r.error.value.key == "transactions"
    ensures Member(j, "transactions").Failure? ==> r.state.transactions == []
    ensures r.error.None? <==>
              Member(j, "transactions").Success? && TransactionsReadable(Member(j, "transactions").value)
    ensures r.error.None? ==>
              Elements(Member(j, "transactions").value, "transactions") == Success(TransactionsArray(r.state.transactions))
  {
    var cleared := s.(transactions := []);
    var tx := Member(j, "transactions");
    if tx.Failure? then Applied(cleared, Some(tx.error)) else
    var items := Elements(tx.value, "transactions");
    if items.Failure? then Applied(cleared, Some(items.error)) else
    var pushed := PushStrings(items.value, "transactions");
    assert pushed.1.None? ==> items.value == TransactionsArray(pushed.0);
    Applied(s.(transactions := pushed.0), pushed.1)
  }

  /** `fromJson` applied to a block holding `s`, as written. */
  function ApplyJson(s: BlockState, j: Json): (r: Applied)
    ensures r.error.None? <==> WellTypedRecord(j)
    ensures r.error.Some? ==> r.error.value.key in RECORD_KEYS
  {
    var header := ApplyHeader(s, j);
    if header.error.Some? then header else ApplyTransactions(header.state, j)
  }

  /**
   * The record as a fixed schema: all eight members present and of the right
   * JSON type, or the error for the first one (in `fromJson`'s order) that is not.
   */
  function Decode(j: Json): (r: Result<BlockState, AccessError>)
    ensures r.Success? <==> WellTypedRecord(j)
    ensures r.Failure? ==> r.error.key in RECORD_KEYS
  {
    var previousHash :- StringMember(j, "previousHash");
    var merkleRoot :- StringMember(j, "merkleRoot");
    var signature :- StringMember(j, "signature");
    var blockHeight :- Uint32Member(j, "blockHeight");
    var timestamp :- Int64Member(j, "timestamp");
    var nonce :- Uint32Member(j, "nonce");
    var difficulty :- Uint32Member(j, "difficulty");
    var tx :- Member(j, "transactions");
    var items :- Elements(tx, "transactions");
    var pushed := PushStrings(items, "transactions");
    if pushed.1.Some? then Failure(pushed.1.value)
    else Success(BlockState(previousHash, merkleRoot, signature, blockHeight,
                            timestamp, nonce, difficulty, pushed.0))
  }

  /**
   * `fromJson` succeeds exactly when the record decodes, and then the block
   * holds the decoded value whatever it held before: nothing of the old
   * state, old transactions included, survives. On failure it throws the
   * error the decoding reports.
   */
  lemma ApplyJsonDecodes(s: BlockState, j: Json)
    ensures ApplyJson(s, j).error.None? <==> Decode(j).Success?
    ensures Decode(j).Success? ==> ApplyJson(s, j).state == Decode(j).value
    ensures Decode(j).Failure? ==> ApplyJson(s, j).error == Some(Decode(j).error)
  {
  }

  /** Two blocks that both load the same record end up equal. */
  lemma ApplyJsonForgetsOldState(s1: BlockState, s2: BlockState, j: Json)
    requires ApplyJson(s1, j).error.None?
    ensures ApplyJson(s2, j) == ApplyJson(s1, j)
  {
  }

  /** Decoding the record of a block gives that block back, field for field. */
  lemma DecodeEncode(s: BlockState)
    ensures Decode(Encode(s)) == Success(s)
  {
    var j := Encode(s);
    PushStringsAt(TransactionsArray(s.transactions), "transactions", s.transactions);
    assert GetUint32(j.members["blockHeight"], "blockHeight") == Success(s.blockHeight);
    assert GetInt64(j.members["timestamp"], "timestamp") == Success(s.timestamp);
    assert GetUint32(j.members["nonce"], "nonce") == Success(s.nonce);
    assert GetUint32(j.members["difficulty"], "difficulty") == Success(s.difficulty);
  }

  /** `fromJson(toJson())` on any block reproduces every serialised field and throws nothing. */
  lemma FromJsonToJson(s: BlockState, t: BlockState)
    ensures ApplyJson(s, Encode(t)) == Applied(t, None)
  {
    DecodeEncode(t);
    ApplyJsonDecodes(s, Encode(t));
  }
}
