/**
 * The subset of an nlohmann::json value that a block record uses, and the
 * accessors `fromJson` applies to it: `operator[]` on a const object,
 * `get<std::string>()`, `get<uint32_t>()`, `get<std::time_t>()` and the
 * range-for over a value.
 */
module Json {
  import opened Common

  /**
   * A JSON value. Numbers are integers; floating-point numbers are not
   * modelled. nlohmann holds an integer only in -2^63 .. 2^64-1 and parses a
   * larger literal as a double, whose cast to an integer type is undefined;
   * the reads below wrap such a number as an integer instead.
   */
  datatype Json =
    | JNull
    | JBool(b: bool)
    | JNumber(n: int)
    | JString(s: string)
    | JArray(items: seq<Json>)
    | JObject(members: map<string, Json>)

  /**
   * The exception a failed access throws. nlohmann's exceptions do not carry
   * the key; the key here is the model's own label for which read threw.
   */
  datatype AccessError =
    | NotAnObject(key: string)   // operator[] with a key on a value that is not an object
    | MissingKey(key: string)    // operator[] on a const object without that key
    | WrongType(key: string)     // get<T>() on a value of another JSON type

  /** `j[key]` on a const value. */
  function Member(j: Json, key: string): (r: Result<Json, AccessError>)
    ensures r.Success? <==> j.JObject? && key in j.members
    ensures r.Success? ==> r.value == j.members[key]
    ensures !j.JObject? ==> r == Failure(NotAnObject(key))
    ensures j.JObject? && key !in j.members ==> r == Failure(MissingKey(key))
  {
    if !j.JObject? then Failure(NotAnObject(key))
    else if key !in j.members then Failure(MissingKey(key))
    else Success(j.members[key])
  }

  /** `v.get<std::string>()`, for a value read under `key`. */
  function GetString(v: Json, key: string): (r: Result<string, AccessError>)
    ensures r.Success? <==> v.JString?
    ensures r.Success? ==> v == JString(r.value)
  {
    if v.JString? then Success(v.s) else Failure(WrongType(key))
  }

  /**
   * `v.get<T>()` for an integral `T` that is not one of the library's own
   * number types (such as `uint32_t`): numbers and booleans convert, the rest throws.
   */
  function GetIntegral(v: Json, key: string): (r: Result<int, AccessError>)
    ensures r.Success? <==> v.JNumber? || v.JBool?
    ensures v.JNumber? ==> r == Success(v.n)
    ensures v.JBool? ==> r == Success(if v.b then 1 else 0)
  {
    match v
    case JNumber(n) => Success(n)
    case JBool(b) => Success(if b then 1 else 0)
    case _ => Failure(WrongType(key))
  }

  /** `v.get<uint32_t>()`: the integral value cast to 32 bits. */
  function GetUint32(v: Json, key: string): (r: Result<uint32, AccessError>)
    ensures r.Success? <==> v.JNumber? || v.JBool?
    ensures v.JNumber? && 0 <= v.n < UINT32_RANGE ==> r == Success(v.n as uint32)
    ensures v.JNumber? ==> r == Success(ToUint32(v.n))
    ensures v.JBool? ==> r == Success(if v.b then 1 else 0)
  {
    var n :- GetIntegral(v, key);
    Success(ToUint32(n))
  }

  /**
   * `v.get<std::time_t>()`, assuming a platform where `std::time_t` is
   * `std::int64_t`, the library's own integer type, whose conversion accepts
   * numbers only: a boolean throws. A number of 2^63 or more, stored unsigned,
   * wraps through `static_cast`.
   */
  function GetInt64(v: Json, key: string): (r: Result<int64, AccessError>)
    ensures r.Success? <==> v.JNumber?
    ensures v.JNumber? && -INT64_RANGE / 2 <= v.n < INT64_RANGE / 2 ==> r == Success(v.n as int64)
    ensures v.JNumber? ==> r == Success(ToInt64(v.n))
  {
    if v.JNumber? then Success(ToInt64(v.n)) else Failure(WrongType(key))
  }

  /**
   * The values a range-for visits: nothing for null, the items of an array,
   * and the value itself, once, for a string, number or boolean. Iterating an
   * object (its member values in key order) is not modelled and reads as an error.
   */
  function Elements(v: Json, key: string): (r: Result<seq<Json>, AccessError>)
    ensures v.JArray? ==> r == Success(v.items)
    ensures v.JNull? ==> r == Success([])
    ensures v.JString? || v.JNumber? || v.JBool? ==> r == Success([v])
    ensures r.Failure? <==> v.JObject?
  {
    match v
    case JNull => Success([])
    case JArray(items) => Success(items)
    case JObject(_) => Failure(WrongType(key))
    case _ => Success([v])
  }
}
