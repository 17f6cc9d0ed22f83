/** The arithmetic of the benchmark library (benchmarks/src/lib.rs): payload
    bookkeeping, the CPU-cycle estimate and the Cap'n Proto size estimates. */
module Benchmarks {
  import opened Common
  import opened Utf8
  import opened Metrics

  /** Bytes sent, bytes received and their total. */
  datatype PayloadSizes = PayloadSizes(requestBytes: Usize, responseBytes: Usize, totalBytes: Usize)

  /** `PayloadSizes::new`. The `usize` addition must not overflow: that is the
      caller's obligation (a debug build panics, a release build wraps). */
  function NewPayloadSizes(requestBytes: Usize, responseBytes: Usize): (p: PayloadSizes)
    requires requestBytes + responseBytes < U64_LIMIT
    ensures p.requestBytes == requestBytes && p.responseBytes == responseBytes
    ensures p.totalBytes == p.requestBytes + p.responseBytes
  {
    PayloadSizes(requestBytes, responseBytes, requestBytes + responseBytes)
  }

  // ---------------------------------------------------------------------------
  // CPU-cycle estimate

  const NANOS_PER_SEC: nat := 1_000_000_000
  const APPROXIMATE_CPU_HZ: nat := 3_000_000_000

  type SubsecNanos = n: int | 0 <= n < 1_000_000_000

  /** `std::time::Duration`: whole seconds and the nanoseconds below one second. */
  datatype Duration = Duration(secs: Uint64, subsecNanos: SubsecNanos)

  /** `Duration::as_nanos`, a `u128`. Its partner is the split back into seconds
      and nanoseconds. */
  function AsNanos(d: Duration): (n: nat)
    ensures n / NANOS_PER_SEC == d.secs && n % NANOS_PER_SEC == d.subsecNanos
    ensures n < U64_LIMIT * NANOS_PER_SEC
  {
    d.secs * NANOS_PER_SEC + d.subsecNanos
  }

  /** `estimate_cpu_cycles` as written, in a release build: `as u64` keeps the
      low 64 bits of the `u128` nanoseconds, and the `u64` multiplication by
      3 GHz wraps around modulo 2^64 before the division. */
  function EstimateCpuCyclesAsWritten(d: Duration): (cycles: Uint64)
    ensures cycles <= U64_MAX / NANOS_PER_SEC
  {
    var nanos := AsNanos(d) % U64_LIMIT;
    (nanos * APPROXIMATE_CPU_HZ % U64_LIMIT) / NANOS_PER_SEC
  }

  /** Below the overflow point (about 6.15 s) the estimate is three cycles per
      nanosecond. */
  lemma CyclesAreThreePerNano(d: Duration)
    requires AsNanos(d) * APPROXIMATE_CPU_HZ < U64_LIMIT
    ensures EstimateCpuCyclesAsWritten(d) == 3 * AsNanos(d)
  {
    var n := AsNanos(d);
    assert n % U64_LIMIT == n;
    assert (n * APPROXIMATE_CPU_HZ) % U64_LIMIT == n * APPROXIMATE_CPU_HZ;
    assert n * APPROXIMATE_CPU_HZ == (3 * n) * NANOS_PER_SEC;
  }

  /** Within the non-overflowing domain a longer duration never gives fewer cycles. */
  lemma CyclesMonotone(d1: Duration, d2: Duration)
    requires AsNanos(d1) <= AsNanos(d2)
    requires AsNanos(d2) * APPROXIMATE_CPU_HZ < U64_LIMIT
    ensures EstimateCpuCyclesAsWritten(d1) <= EstimateCpuCyclesAsWritten(d2)
  {
    CyclesAreThreePerNano(d1);
    CyclesAreThreePerNano(d2);
  }

  /** Seven seconds overflow the multiplication: the estimate is about 2.55e9
      cycles instead of 2.1e10, and less than the estimate for six seconds. */
  lemma CyclesOverflowAtSevenSeconds()
    ensures EstimateCpuCyclesAsWritten(Duration(7, 0)) == 2_553_255_926
    ensures EstimateCpuCyclesAsWritten(Duration(6, 0)) == 18_000_000_000
    ensures EstimateCpuCyclesAsWritten(Duration(7, 0)) != 3 * AsNanos(Duration(7, 0))
  {
    CyclesAreThreePerNano(Duration(6, 0));
  }

  /** The estimate the comment in the source describes: nanoseconds times 3 GHz
      over 10^9, computed in `u128` and saturated to `u64`. */
  function EstimateCpuCycles(d: Duration): (cycles: Uint64)
    ensures 3 * AsNanos(d) <= U64_MAX ==> cycles == 3 * AsNanos(d)
    ensures 3 * AsNanos(d) > U64_MAX ==> cycles == U64_MAX
  {
    var exact := AsNanos(d) * APPROXIMATE_CPU_HZ / NANOS_PER_SEC;
    assert exact == 3 * AsNanos(d);
    if exact <= U64_MAX then exact else U64_MAX
  }

  /** The corrected estimate is monotone on every duration, and agrees with the
      code as written wherever the latter does not overflow. */
  lemma EstimateCpuCyclesCorrected(d1: Duration, d2: Duration)
    ensures AsNanos(d1) <= AsNanos(d2) ==> EstimateCpuCycles(d1) <= EstimateCpuCycles(d2)
    ensures AsNanos(d1) * APPROXIMATE_CPU_HZ < U64_LIMIT ==>
              EstimateCpuCycles(d1) == EstimateCpuCyclesAsWritten(d1)
  {
    if AsNanos(d1) * APPROXIMATE_CPU_HZ < U64_LIMIT {
      CyclesAreThreePerNano(d1);
    }
  }

  // ---------------------------------------------------------------------------
  // Cap'n Proto size estimates

  /** Bytes one tag adds: key, value and 8 bytes of overhead. */
  function TagEntryBytes(key: string, value: string): nat {
    ByteLen(key) + ByteLen(value) + 8
  }

  /** Sum of the tag entries over a set of keys, in no particular order: the
      order-free reference the iteration is measured against. */
  ghost function TagBytesOver(tags: map<string, string>, keys: set<string>): nat
    requires keys <= tags.Keys
    decreases keys
  {
    if keys == {} then 0
    else
      var k :| k in keys;
      TagEntryBytes(k, tags[k]) + TagBytesOver(tags, keys - {k})
  }

  ghost function TagBytes(tags: map<string, string>): nat {
    TagBytesOver(tags, tags.Keys)
  }

  /** Any key may be taken out first: the sum does not depend on which one the
      definition happens to choose. */
  lemma {:induction false} TagBytesOverRemove(tags: map<string, string>, keys: set<string>, k: string)
    requires keys <= tags.Keys && k in keys
    ensures TagBytesOver(tags, keys) == TagEntryBytes(k, tags[k]) + TagBytesOver(tags, keys - {k})
    decreases keys
  {
    var j :| j in keys && TagBytesOver(tags, keys) == TagEntryBytes(j, tags[j]) + TagBytesOver(tags, keys - {j});
    if j != k {
      TagBytesOverRemove(tags, keys - {j}, k);
      TagBytesOverRemove(tags, keys - {k}, j);
      assert keys - {j} - {k} == keys - {k} - {j};
    }
  }

  /** Every tag adds at least its 8 bytes of overhead. */
  lemma {:induction false} TagBytesOverAtLeast(tags: map<string, string>, keys: set<string>)
    requires keys <= tags.Keys
    ensures TagBytesOver(tags, keys) >= 8 * |keys|
    decreases keys
  {
    if keys != {} {
      var k :| k in keys && TagBytesOver(tags, keys) == TagEntryBytes(k, tags[k]) + TagBytesOver(tags, keys - {k});
      TagBytesOverAtLeast(tags, keys - {k});
      assert |keys - {k}| == |keys| - 1;
      assert TagEntryBytes(k, tags[k]) >= 8;
      assert TagBytesOver(tags, keys - {k}) >= 8 * (|keys| - 1);
    }
  }

  /** `order` is an order in which a `HashMap` with these entries can be
      iterated: every key exactly once. */
  predicate IsIterationOrder(tags: map<string, string>, order: seq<string>) {
    && (forall i :: 0 <= i < |order| ==> order[i] in tags)
    && (forall k :: k in tags ==> k in order)
    && (forall i, j :: 0 <= i < j < |order| ==> order[i] != order[j])
  }

  /** The `.iter().map(..).sum()` over the tags, visiting keys in `order`. */
  function TagBytesInOrder(tags: map<string, string>, order: seq<string>): nat
    requires forall i :: 0 <= i < |order| ==> order[i] in tags
    decreases |order|
  {
    if order == [] then 0
    else TagEntryBytes(order[0], tags[order[0]]) + TagBytesInOrder(tags, order[1..])
  }

  lemma {:induction false} TagBytesInOrderIsTagBytesOver(tags: map<string, string>, order: seq<string>)
    requires forall i :: 0 <= i < |order| ==> order[i] in tags
    requires forall i, j :: 0 <= i < j < |order| ==> order[i] != order[j]
    ensures (set k | k in order) <= tags.Keys
    ensures TagBytesInOrder(tags, order) == TagBytesOver(tags, set k | k in order)
    decreases |order|
  {
    var keys := set k | k in order;
    if order != [] {
      var rest := order[1..];
      TagBytesInOrderIsTagBytesOver(tags, rest);
      assert (set k | k in rest) == keys - {order[0]} by {
        forall k | k in keys - {order[0]} ensures k in rest {
          var i :| 0 <= i < |order| && order[i] == k;
          assert i != 0;
          assert rest[i - 1] == k;
        }
      }
      TagBytesOverRemove(tags, keys, order[0]);
    } else {
      assert keys == {};
    }
  }

  /** Summing in any iteration order gives the order-free sum. */
  lemma TagBytesOrderIndependent(tags: map<string, string>, order: seq<string>)
    requires IsIterationOrder(tags, order)
    ensures TagBytesInOrder(tags, order) == TagBytes(tags)
  {
    TagBytesInOrderIsTagBytesOver(tags, order);
    assert (set k | k in order) == tags.Keys;
  }

  /** `measure_capnp_metric_size`, with the `HashMap`'s iteration order made
      explicit: 24 bytes of fixed fields, the hostname's bytes, every tag's
      bytes and 32 bytes of framing. */
  function CapnpMetricSize(metric: MetricPoint, order: seq<string>): (size: nat)
    requires IsIterationOrder(metric.tags, order)
    ensures size == 56 + ByteLen(metric.hostname) + TagBytes(metric.tags)
    ensures size >= 56 + ByteLen(metric.hostname) + 8 * |metric.tags|
  {
    TagBytesOrderIndependent(metric.tags, order);
    TagBytesOverAtLeast(metric.tags, metric.tags.Keys);
    var hostnameLen := ByteLen(metric.hostname);
    var tagsLen := TagBytesInOrder(metric.tags, order);
    24 + hostnameLen + tagsLen + 32
  }

  /** The estimate does not depend on the order the map is iterated in. */
  lemma CapnpMetricSizeOrderIndependent(metric: MetricPoint, order1: seq<string>, order2: seq<string>)
    requires IsIterationOrder(metric.tags, order1) && IsIterationOrder(metric.tags, order2)
    ensures CapnpMetricSize(metric, order1) == CapnpMetricSize(metric, order2)
  {
  }

  /** `measure_capnp_query_size`: 16 bytes of timestamps, the filter's bytes if
      there is one, 16 bytes of framing. */
  function CapnpQuerySize(query: MetricQuery): (size: nat)
    ensures query.hostnameFilter.None? ==> size == 32
    ensures query.hostnameFilter.Some? ==> size == 32 + ByteLen(query.hostnameFilter.value)
  {
    var hostnameLen := match query.hostnameFilter
      case Some(s) => ByteLen(s)
      case None => 0;
    16 + hostnameLen + 16
  }

  /** The time window never changes the estimate; an empty filter costs as much
      as none. */
  lemma CapnpQuerySizeOnlyHostname(q1: MetricQuery, q2: MetricQuery)
    ensures q1.hostnameFilter == q2.hostnameFilter ==> CapnpQuerySize(q1) == CapnpQuerySize(q2)
    ensures q1.hostnameFilter == Some("") ==> CapnpQuerySize(q1) == CapnpQuerySize(q1.(hostnameFilter := None))
  {
  }
}
