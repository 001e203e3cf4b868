/**
 * The signal record passed from the entry layer through the execution
 * planner to the backtester. Each optional field is a dict key that may be
 * absent.
 */
module Signals {
  import opened Wrappers

  type Meta = map<string, string>

  datatype Signal = Signal(
    symbol: string,
    date: Option<int>,
    price: Option<real>,
    stopLoss: Option<real>,
    targetPrice: Option<real>,
    meta: Option<Meta>,
    execDate: Option<int>,
    execPriceType: Option<string>,
    signalDate: Option<int>)

  /** dict.setdefault(key, value) on the resulting dict: an existing key is kept. */
  function SetDefault(m: Meta, key: string, value: string): (r: Meta)
    ensures key in r && r.Keys == m.Keys + {key}
    ensures key in m ==> r == m
    ensures key !in m ==> r[key] == value && forall k :: k in m ==> r[k] == m[k]
  {
    if key in m then m else m[key := value]
  }
}
