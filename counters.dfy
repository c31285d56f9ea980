/**
 * Labelled monotonic counters, as kept by the metrics registry: one count per
 * label tuple. A label tuple that was never incremented reads as zero, which is
 * what a registry child created on first use and then incremented amounts to.
 */
module Counters {

  /** The current value of the counter child labelled `k`. */
  function Count<K>(m: map<K, nat>, k: K): nat {
    if k in m then m[k] else 0
  }

  /** `COUNTER.labels(k).inc()`: the child `k` goes up by one, every other child keeps its value. */
  function Inc<K(!new)>(m: map<K, nat>, k: K): (r: map<K, nat>)
    ensures Count(r, k) == Count(m, k) + 1
    ensures forall j :: j != k ==> Count(r, j) == Count(m, j)
    ensures r.Keys == m.Keys + {k}
  {
    m[k := Count(m, k) + 1]
  }
}
