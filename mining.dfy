/** The proof-of-work target test of `mineBlock`. */
module Mining {

  /** `std::string(d, '0')`: a string of `d` zero characters. */
  function Target(d: nat): (t: string)
    ensures |t| == d
    ensures forall i :: 0 <= i < d ==> t[i] == '0'
  {
    if d == 0 then "" else Target(d - 1) + "0"
  }

  /** `h.substr(0, count)`: the first `count` characters, or all of `h` when it is shorter. */
  function Prefix(h: string, count: nat): (r: string)
    ensures |r| <= count && |r| <= |h|
    ensures |r| == count || |r| == |h|
    ensures r <= h
  {
    if count <= |h| then h[..count] else h
  }

  /**
   * The test `blockHash.substr(0, difficulty) == target`. It passes exactly
   * when the hash is at least `d` characters long and its first `d`
   * characters are all '0': a shorter hash is truncated by `substr` and
   * cannot equal the `d`-character target.
   */
  predicate MeetsTarget(h: string, d: nat): (ok: bool)
    ensures ok <==> |h| >= d && forall i :: 0 <= i < d ==> h[i] == '0'
  {
    Prefix(h, d) == Target(d)
  }
}
