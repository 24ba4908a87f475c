/** Values shared by every part of the order-book manager: optional values,
    results, the failures the manager can raise, and lookups in the ordered
    dictionaries (lists of key/value pairs) whose iteration order the manager
    relies on. Every exception the manager lets escape (a missing configuration
    or dictionary key, a division by zero in the tolerance check, `max` of no
    trade ids, reading the trade watermark before it was booted, an exchange
    rejection other than a validation error) becomes an `Err`. */
module Common {

  datatype Option<+T> = None | Some(value: T)

  datatype Error =
    | MissingKey(key: string)        // KeyError on a dictionary lookup
    | NotAFraction(key: string)      // Decimal(...) of a nested mapping: TypeError
    | NoIntervals(key: string)       // indexing a plain number as a mapping: TypeError
    | NoDefaultConfig                // dict.update(None) when `default` is absent: TypeError
    | DivisionByZero(market: string) // (n - o) / n with n == 0 in the tolerance check
    | NoTradeIds                     // max() of an empty collection: ValueError
    | NotBooted                      // most_recent_trade_id read before boot_trades: AttributeError
    | ApiError(code: int)            // APIException re-raised by place_order

  datatype Result<+T> = Ok(value: T) | Err(error: Error)

  /** An ordered dictionary with string keys, as Python's dict keeps insertion order. */
  type Entries<V> = seq<(string, V)>

  /** d[key] on an ordered dictionary: the value of the first entry with that key. */
  function Lookup<V>(d: Entries<V>, key: string): (r: Option<V>)
    ensures r.None? <==> forall i :: 0 <= i < |d| ==> d[i].0 != key
    ensures r.Some? ==> exists i :: 0 <= i < |d| && d[i] == (key, r.value)
  {
    if |d| == 0 then None
    else if d[0].0 == key then Some(d[0].1)
    else
      var r := Lookup(d[1..], key);
      assert r.Some? ==> exists i :: 0 <= i < |d| - 1 && d[1..][i] == (key, r.value);
      assert forall i :: 1 <= i < |d| ==> d[i] == d[1..][i - 1];
      r
  }

  /** The keys of an ordered dictionary, in order. */
  function Keys<V>(d: Entries<V>): (ks: seq<string>)
    ensures |ks| == |d|
    ensures forall i :: 0 <= i < |d| ==> ks[i] == d[i].0
  {
    seq(|d|, i requires 0 <= i < |d| => d[i].0)
  }
}
