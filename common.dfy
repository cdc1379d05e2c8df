/** Fixed-width integers of the block header and the small result types the model uses. */
module Common {

  /** 2^32: the number of distinct values of a `uint32_t`. */
  const UINT32_RANGE: int := 0x1_0000_0000

  /** 2^64: the period of a signed 64-bit `time_t`. */
  const INT64_RANGE: int := 0x1_0000_0000_0000_0000

  newtype uint32 = x: int | 0 <= x < 0x1_0000_0000

  /** `std::time_t`, a signed 64-bit count of seconds. */
  newtype int64 = x: int | -0x8000_0000_0000_0000 <= x < 0x8000_0000_0000_0000

  /** `static_cast<uint32_t>(n)`: C++ keeps the value modulo 2^32. */
  function ToUint32(n: int): (r: uint32)
    ensures 0 <= n < UINT32_RANGE ==> r as int == n
    ensures (r as int - n) % UINT32_RANGE == 0
  {
    (n % UINT32_RANGE) as uint32
  }

  /** `static_cast<int64_t>(n)`: two's complement wrap into the signed 64-bit range. */
  function ToInt64(n: int): (r: int64)
    ensures -INT64_RANGE / 2 <= n < INT64_RANGE / 2 ==> r as int == n
    ensures (r as int - n) % INT64_RANGE == 0
  {
    ((n + INT64_RANGE / 2) % INT64_RANGE - INT64_RANGE / 2) as int64
  }

  /** `n + k` in `uint32_t` arithmetic: the nonce after `k` increments `nonce_++` starting at `n`. */
  function AddNonce(n: uint32, k: int): (r: uint32)
    ensures k == 0 ==> r == n
    ensures (r as int - n as int - k) % UINT32_RANGE == 0
  {
    ToUint32(n as int + k)
  }

  /** Every nonce value is reached by exactly one of the increments 1 .. 2^32 starting from `n0`. */
  lemma NonceCycle(n0: uint32, n: uint32) returns (k: int)
    ensures 1 <= k <= UINT32_RANGE
    ensures AddNonce(n0, k) == n
    ensures forall k' :: 1 <= k' <= UINT32_RANGE && AddNonce(n0, k') == n ==> k' == k
  {
    k := (n as int - n0 as int - 1) % UINT32_RANGE + 1;
    assert n0 as int + k == n as int + UINT32_RANGE * (if n0 < n then 0 else 1);
  }

  datatype Option<T> = None | Some(value: T)

  datatype Result<T, E> = Success(value: T) | Failure(error: E) {
    predicate IsFailure() { Failure? }

    function PropagateFailure<U>(): Result<U, E>
      requires Failure?
    {
      Failure(error)
    }

    function Extract(): T
      requires Success?
    {
      value
    }
  }
}
