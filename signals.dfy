/** What the backtest strategies share: the signal they emit, the untyped parameter object they
    are configured with, and JavaScript's reading of arrays. Indicator series (SMA, RSI, MACD)
    are computed by a library outside this model and are handed to the strategies as sequences. */
module Signals {
  import opened Wrappers

  datatype Signal = BuySignal | SellSignal | Hold

  /** A strategy's `params` object: named numbers. */
  type Params = map<string, real>

  /** `params.key` on an object that exists. */
  function Lookup(params: Params, key: string): (r: Option<real>)
    ensures r.Some? <==> key in params
    ensures r.Some? ==> r.value == params[key]
  {
    if key in params then Some(params[key]) else None
  }

  /** `params?.key`, where `None` stands for a null or missing `params`. */
  function Param(params: Option<Params>, key: string): (r: Option<real>)
    ensures r.Some? <==> params.Some? && key in params.value
    ensures r.Some? ==> r.value == params.value[key]
  {
    if params.Some? then Lookup(params.value, key) else None
  }

  /** Whether `k` is a valid index of a length-`n` array: a whole number in range. */
  predicate IsIndex(k: real, n: nat)
  {
    k.Floor as real == k && 0 <= k.Floor < n
  }

  /** JavaScript `s[k]`: `undefined` unless `k` is a whole number within the array. */
  function At<T>(s: seq<T>, k: real): (r: Option<T>)
    ensures r.Some? <==> IsIndex(k, |s|)
    ensures r.Some? ==> r.value == s[k.Floor]
  {
    if IsIndex(k, |s|) then Some(s[k.Floor]) else None
  }

  /** `s[index - period + shift]`; a missing `period` makes the index NaN, which reads `undefined`. */
  function Aligned(s: seq<real>, index: int, period: Option<real>, shift: real): (r: Option<real>)
    ensures period.None? ==> r.None?
    ensures period.Some? ==> r == At(s, index as real - period.value + shift)
  {
    if period.Some? then At(s, index as real - period.value + shift) else None
  }

  /** Extending a series at the end does not change what is read below the old length. */
  lemma AtPrefix<T>(s: seq<T>, n: nat, k: real)
    requires n <= |s| && k < n as real
    ensures At(s[..n], k) == At(s, k)
  {
  }

  /** The comparisons `a <= b`, `a >= b`, `a < b`, `a > b` of JavaScript, where a side may be
      `undefined`: every comparison with `undefined` is false. */
  predicate AtMost(a: Option<real>, b: real)
  {
    a.Some? && a.value <= b
  }

  predicate AtLeast(a: Option<real>, b: real)
  {
    a.Some? && a.value >= b
  }

  predicate Below(a: Option<real>, b: real)
  {
    a.Some? && a.value < b
  }

  predicate Above(a: Option<real>, b: real)
  {
    a.Some? && a.value > b
  }

  /** `params?.key || fallback`: the setting a strategy uses, its default when missing or zero. */
  function Setting(params: Option<Params>, key: string, fallback: real): (r: real)
    ensures Truthy(Param(params, key)) ==> r == params.value[key]
    ensures !Truthy(Param(params, key)) ==> r == fallback
  {
    OrElse(Param(params, key), fallback)
  }

  /** `if (!params.key) params.key = fallback`: the in-place default a validator writes. */
  function WithDefault(params: Params, key: string, fallback: real): (r: Params)
    ensures key in r && r[key] == Setting(Some(params), key, fallback)
    ensures forall k :: k != key ==> (k in r <==> k in params)
    ensures forall k :: k != key && k in params ==> r[k] == params[k]
  {
    if Truthy(Lookup(params, key)) then params else params[key := fallback]
  }

  /** Writing a default never changes the setting a later reader with the same default sees,
      for that key or any other. */
  lemma WithDefaultKeepsSettings(params: Params, key: string, fallback: real, other: string, d: real)
    ensures Setting(Some(WithDefault(params, key, fallback)), key, fallback) == Setting(Some(params), key, fallback)
    ensures other != key ==> Setting(Some(WithDefault(params, key, fallback)), other, d) == Setting(Some(params), other, d)
  {
  }
}
