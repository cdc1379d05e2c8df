# SPHINXBlock `Block`: a Dafny model

This project models `SPHINXBlock::Block` from the SPHINX blockchain's block
layer. A block is a mutable record. It holds the previous block's hash, a
Merkle root, a signature, a height, a timestamp, a nonce, a mining difficulty
and an ordered list of transactions, which are opaque strings.

The model is a Dafny class `Blocks.Block` with those eight fields. It has:

- the two constructors, which set all eight fields;
- `addTransaction` and the setters and getters, as methods and functions that
  change or read exactly one field;
- `mineBlock`, the proof-of-work loop, which raises the 32-bit `nonce_` until
  the block hash starts with `difficulty` zero characters;
- `toJson` and `fromJson`, the serialiser pair, over a small JSON value type.
  It models the nlohmann::json operations these two use: `operator[]` on a
  const object, `get<std::string>()`, `get<uint32_t>()`,
  `get<std::time_t>()` and the range-for;
- `verifyBlock`, `getBlockHash` and `calculateMerkleRoot`, which only delegate.

The block hash, Merkle-tree construction, Merkle-root verification and
signature verification are not defined in this code. They are fields of the
`Externals` value passed to the operations that need them, and nothing is
assumed about them. The clock read by the constructors is a parameter `now`.

Behaviour of the code that the model follows:

- `addTransaction` appends without checking `MAX_BLOCK_SIZE`. That constant and
  `MAX_TIMESTAMP_OFFSET` are declared and nothing uses them, so the model
  leaves them out.
- `mineBlock` changes only `nonce_`. It does not record the difficulty in
  `difficulty_`. It increments before the first hash, so the starting nonce is
  tried last, on attempt 2^32.
- `mineBlock` has no exit except success. After 2^32 failed increments the
  nonce is back where it started, and every later attempt repeats an earlier
  hash. The model therefore stops after 2^32 attempts. A `false` result means
  exactly "the C++ call never returns": `Blocks.Block.MineBlock` proves that
  no nonce meets the target in that case.
- `fromJson` assigns the fields one at a time. If an access throws, the
  assignments made before it stay in place. The transaction list is cleared
  before the `"transactions"` member is looked up. A non-string transaction
  leaves the strings before it already appended. The model returns the thrown
  error as a value.
- nlohmann's `get<uint32_t>()` and `get<std::time_t>()` cast the stored integer
  with `static_cast`, so they wrap. `get<uint32_t>()` also accepts a boolean as
  0 or 1. The model assumes a platform where `std::time_t` is `std::int64_t`,
  the library's own integer type, as on 64-bit Linux and Windows. Its
  conversion accepts numbers only, so a boolean `"timestamp"` throws. A
  range-for over a string, number or boolean visits that value once, and over
  null visits nothing.
- `operator[]` on a const object with a missing key is undefined behaviour in
  nlohmann::json (an assertion). The model reports it as a `MissingKey` error.
- Every error carries the key of the read that threw. This key is the model's
  own label; nlohmann's exceptions do not include it.

## Model

| member | source | states |
|---|---|---|
| `Common.ToUint32` | Block.cpp:303 | the cast keeps a value already in 0..2^32-1 unchanged and otherwise agrees with it modulo 2^32 |
| `Common.ToInt64` | Block.cpp:304 | the cast to `time_t` keeps every signed 64-bit value unchanged and otherwise agrees with it modulo 2^64 |
| `Common.AddNonce` | Block.cpp:179 | `k` increments of a `uint32_t` nonce give a value congruent to nonce + k modulo 2^32; zero increments change nothing |
| `Common.NonceCycle` | Block.cpp:178-189 | every nonce value is reached by exactly one of the first 2^32 increments from any starting nonce |
| `Json.Member` | Block.cpp:300-309 | `j[key]` succeeds exactly on an object holding `key` and yields its value; on a non-object it throws, and a missing key is an error |
| `Json.GetString` | Block.cpp:300-302 | `get<std::string>()` succeeds exactly on a JSON string and yields its text |
| `Json.GetUint32` | Block.cpp:303-306 | `get<uint32_t>()` succeeds exactly on a number or boolean; a number comes back as its `static_cast` modulo 2^32, unchanged when in range, and a boolean as 0 or 1 |
| `Json.GetInt64` | Block.cpp:304 | `get<std::time_t>()` succeeds exactly on a number, and a boolean throws; a number comes back as its `static_cast` to signed 64 bits, unchanged when in range and wrapped modulo 2^64 otherwise |
| `Json.Elements` | Block.cpp:310 | the range-for visits an array's items in order, nothing for null, and a scalar once |
| `BlockRecord.TransactionsArray` | Block.cpp:289-292 | the transactions array has one JSON string per transaction, same length, same order |
| `BlockRecord.Encode` | Block.cpp:277-296 | the record has exactly the eight keys, each scalar field under its own key, and the transactions as an array of the same length and order |
| `BlockRecord.PushStrings` | Block.cpp:310-311 | the transactions appended are the strings of the longest all-string prefix of the items; the call throws exactly when a non-string item stops it |
| `BlockRecord.PushStringsAt` | Block.cpp:310-311 | the appended list is determined by where the first non-string item stands, or by the end of the items |
| `BlockRecord.ApplyHeader` | Block.cpp:298-306 | the seven scalar reads leave the transactions alone; without an error each field holds the value read under its key; an error is labelled with one of those seven keys |
| `BlockRecord.ApplyTransactions` | Block.cpp:308-312 | only the transaction list changes; a missing member leaves it cleared; it throws nothing exactly when the member is null, a string or an array of strings, and then the list re-encodes to exactly the items visited; an error is labelled "transactions" |
| `BlockRecord.ApplyJson` | Block.cpp:298-313 | `fromJson` as written throws nothing exactly when the record is well typed (all eight members, each of a type its read accepts); any error is labelled with one of the eight keys |
| `BlockRecord.Decode` | Block.cpp:298-313 | a record decodes exactly when it is well typed (all eight members, each of a type its read accepts); a failure is labelled with one of the eight keys |
| `BlockRecord.ApplyJsonDecodes` | Block.cpp:298-313 | `fromJson` throws nothing exactly when the record decodes, and then leaves the decoded block whatever the block held before; otherwise it throws the error decoding reports |
| `BlockRecord.ApplyJsonForgetsOldState` | Block.cpp:308-312 | two blocks that load the same record successfully end up with equal fields: the old transactions are cleared, nothing is left over |
| `BlockRecord.DecodeEncode` | Block.cpp:277-313 | decoding the record of any block gives that block back, field for field, transaction order included |
| `BlockRecord.FromJsonToJson` | Block.cpp:277-313 | `fromJson(toJson())` applied to any block reproduces every serialised field and throws nothing |
| `Mining.Target` | Block.cpp:176 | the target is `difficulty` characters long, all of them '0' |
| `Mining.Prefix` | Block.cpp:185 | `substr(0, d)` is a prefix of the hash of length `d`, or the whole hash when it is shorter |
| `Mining.MeetsTarget` | Block.cpp:185-187 | a hash passes the target test exactly when it is at least `d` characters long and its first `d` characters are '0' |
| `Blocks.Block.constructor` | Block.cpp:111-114 | a new block holds the given previous hash and the current time, with height, nonce and difficulty 0, empty root and signature, and no transactions |
| `Blocks.Block.WithCheckpoints` | Block.cpp:117-120 | as the first constructor, and the block keeps a copy of the given checkpoint list (the C++ holds a reference to the caller's vector) |
| `Blocks.Block.AddTransaction` | Block.cpp:127-129 | the transaction is appended after the earlier ones, kept in order; the count grows by one with no size check, and no other field changes |
| `Blocks.Block.CalculateMerkleRoot` | Block.cpp:131-133 | the result is the external Merkle-tree root of the block's current transactions; nothing is stored |
| `Blocks.Block.GetBlockHash` | Block.cpp:152-154 | the block hash is the external hash of the block's current fields; nothing is stored |
| `Blocks.Block.VerifySignature` | Block.cpp:167-173 | the signature check is the external verifier applied to the current block hash, the stored signature and the key |
| `Blocks.Block.VerifyBlock` | Block.cpp:152-173 | a block verifies exactly when the signature checks against the hash of its fields and the stored Merkle root checks against its transactions |
| `Blocks.EveryNonceMisses` | Block.cpp:178-189 | when all 2^32 increments from a starting nonce miss the target, every nonce value misses it |
| `Blocks.Block.MineBlock` | Block.cpp:175-193 | only the nonce changes, by one per attempt modulo 2^32; every earlier attempt failed; on success the hash is at least `difficulty` long and starts with `difficulty` zeros; failure, where the C++ loop never ends, happens exactly when no nonce meets the target, and then all 2^32 attempts were made and the nonce is back at its start |
| `Blocks.Block.SetMerkleRoot` | Block.cpp:196-198 | only the Merkle root changes, and `getMerkleRoot` then returns the value set |
| `Blocks.Block.SetSignature` | Block.cpp:201-203 | only the signature changes, and `getSignature` then returns the value set |
| `Blocks.Block.SetBlockHeight` | Block.cpp:206-208 | only the height changes, and `getBlockHeight` then returns the value set |
| `Blocks.Block.SetNonce` | Block.cpp:211-213 | only the nonce changes, and `getNonce` then returns the value set |
| `Blocks.Block.SetDifficulty` | Block.cpp:216-218 | only the difficulty changes, and `getDifficulty` then returns the value set |
| `Blocks.Block.SetTransactions` | Block.cpp:221-223 | only the transaction list changes, and `getTransactions` then returns the list set |
| `Blocks.Block.GetPreviousHash` | Block.cpp:226-228 | returns the block's current previous hash |
| `Blocks.Block.GetMerkleRoot` | Block.cpp:231-233 | returns the block's current Merkle root |
| `Blocks.Block.GetSignature` | Block.cpp:236-238 | returns the block's current signature |
| `Blocks.Block.GetBlockHeight` | Block.cpp:241-243 | returns the block's current height |
| `Blocks.Block.GetTimestamp` | Block.cpp:246-248 | returns the block's current timestamp |
| `Blocks.Block.GetNonce` | Block.cpp:251-253 | returns the block's current nonce |
| `Blocks.Block.GetDifficulty` | Block.cpp:256-258 | returns the block's current difficulty |
| `Blocks.Block.GetTransactions` | Block.cpp:261-263 | returns the block's current transaction list |
| `Blocks.Block.ToJson` | Block.cpp:277-296 | the record built, with its array filled one push per transaction, is the block's encoding with exactly the eight keys |
| `Blocks.Block.FromJson` | Block.cpp:298-313 | the new fields and the thrown error are those of the field-by-field assignment; with no error the block holds exactly the decoded record |
| `Blocks.Block.ReadTransactions` | Block.cpp:308-312 | the list is cleared, then holds the record's string transactions in order; a missing member or a non-string item throws, leaving what was appended before it |

## Left out

- `save` and `load` (Block.cpp:315-345), `saveToDatabase` and `loadFromDatabase` (Block.cpp:347-370): file and database I/O. Their payload is the `toJson` record, which is modelled.
- `signMerkleRoot` (Block.cpp:136-140): a call into the SPHINCS+ library, which is not part of this model. Its result is only returned and no field changes.
- `storeMerkleRootAndSignature` (Block.cpp:143-149): it only writes to standard output and stores nothing.
- The first constructor (Block.cpp:111-114) leaves the reference member `checkpointBlocks_` unbound, so as written it cannot be compiled; `Blocks.Block.constructor` gives it an empty checkpoint list.
- The constructor at Block.cpp:265-274: it assigns to members the class does not have (`prevBlockHash`, a string `timestamp`), so it cannot be compiled.
- The `blockchain_` pointer (Block.cpp:103): no operation in this code uses it. The checkpoint list is kept as a copy in a field (the C++ holds a reference, so later changes to the caller's vector would show through) and no operation reads it.
- `isValid`, `getTransactionCount`, `setBlockchain` and `addToBlockchain` (Block.hpp:117-123): they are declared without definitions.
- The internals of `calculateBlockHash` (its body is empty), of SPHINX-256, of `constructMerkleTree`, of `verifyMerkleRoot` and of the three-argument `verifySignature`: they are uninterpreted functions in `Blocks.Externals`. The `merkleBlock` object that `verifyBlock` calls is not declared in the class.
- The clock `std::time(nullptr)` (Block.cpp:113, 119): it is the parameter `now`.
- Json.GetUint32, Json.GetInt64: nlohmann holds an integer only in -2^63 .. 2^64-1 and parses a larger literal as a double, whose `static_cast` to `uint32_t` or `time_t` is undefined; the model holds such a number as an integer and wraps it.
- Floating-point JSON numbers: `Json.Json` holds integers only, so the float-to-integer truncation of `get<uint32_t>()` is not modelled.
- Json.Elements: a range-for over a JSON object, which would visit its member values in key order, is reported as a `WrongType` error instead.
- BlockRecord.ApplyTransactions, BlockRecord.ApplyJson, BlockRecord.Decode, Blocks.Block.FromJson and Blocks.Block.ReadTransactions inherit that gap: a `"transactions"` object whose member values are all strings loads in the C++ code, and the model reports it as an error.
- nlohmann's exception kinds and messages: the model labels each error with the key of the read that threw and keeps only three kinds (not an object, missing key, wrong type).
- `std::time_t` as a type other than `std::int64_t` (macOS `long`, 32-bit `time_t` targets): there `get<std::time_t>()` takes the generic conversion, which also accepts booleans; the model does not cover those platforms.
- Blocks.Block.MineBlock: the C++ loop runs forever when no nonce meets the target; the model returns `false` after 2^32 attempts, the point from which the C++ loop only repeats earlier hashes.
