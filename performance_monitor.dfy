/**
 * QueryPerformanceMonitor: a process-wide table from "<queryKey>-<operation>" to the
 * timing samples recorded under that key. startTiming makes sure the key exists and
 * hands out a handle that closes over one start time; every end() on the handle
 * appends one sample. Clock readings are parameters (integer milliseconds).
 */
module PerformanceMonitor {
  import opened Wrappers

  /** One completed timing: the handle's start, the end reading, their difference, the wall-clock stamp. */
  datatype Sample = Sample(startTime: int, endTime: int, duration: int, timestamp: int)

  /** end() throws a TypeError when the key's list is gone (cleared after startTiming). */
  datatype MonitorError = MissingMetricsList(key: string)

  type Metrics = map<string, seq<Sample>>

  /** The composite key under which an operation of a query is recorded. */
  function MetricKey(queryKey: string, operation: string): (key: string)
    ensures queryKey <= key && |key| == |queryKey| + 1 + |operation|
    ensures key[|queryKey|] == '-' && key[|queryKey| + 1..] == operation
  {
    queryKey + "-" + operation
  }

  /** The sample end() records for a handle started at startTime. */
  function SampleAt(startTime: int, endTime: int, stamp: int): (s: Sample)
    ensures s.startTime == startTime && s.endTime == endTime
    ensures s.startTime + s.duration == s.endTime
  {
    Sample(startTime, endTime, endTime - startTime, stamp)
  }

  /** The table after startTiming: the key exists, nothing that existed changes. */
  function EnsureKey(m: Metrics, key: string): (r: Metrics)
    ensures r.Keys == m.Keys + {key}
    ensures forall k :: k in m ==> r[k] == m[k]
    ensures key !in m ==> r[key] == []
  {
    if key in m then m else m[key := []]
  }

  /** The table after one successful end(): one sample appended to one list. */
  function Record(m: Metrics, key: string, s: Sample): (r: Metrics)
    requires key in m
    ensures r.Keys == m.Keys
    ensures r[key] == m[key] + [s] && |r[key]| == |m[key]| + 1
    ensures forall k :: k in m && k != key ==> r[k] == m[k]
  {
    m[key := m[key] + [s]]
  }

  /** True when getMetrics(prefix) filters: a non-empty string was passed. */
  predicate Filters(prefix: Option<string>) {
    prefix.Some? && prefix.value != ""
  }

  /** What getMetrics(prefix) returns: the entries whose key starts with the prefix, or all of them. */
  function WithPrefix(m: Metrics, prefix: Option<string>): (r: Metrics)
    ensures forall k :: k in r <==> k in m && (Filters(prefix) ==> prefix.value <= k)
    ensures forall k :: k in r ==> r[k] == m[k]
  {
    if Filters(prefix) then map k | k in m && prefix.value <= k :: m[k] else m
  }

  class QueryPerformanceMonitor {
    var metrics: Metrics

    constructor ()
      ensures metrics == map[]
    {
      metrics := map[];
    }

    /** startTiming: registers the key (empty list when new) and returns a handle that remembers the start. */
    method StartTiming(queryKey: string, operation: string, startTime: int) returns (h: TimingHandle)
      modifies this
      ensures fresh(h) && h.monitor == this
      ensures h.key == MetricKey(queryKey, operation) && h.startTime == startTime
      ensures metrics == EnsureKey(old(metrics), h.key)
    {
      var key := queryKey + "-" + operation;
      if key !in metrics {
        metrics := metrics[key := []];
      }
      h := new TimingHandle(this, key, queryKey, operation, startTime);
    }

    /** getMetrics: builds the result entry by entry, keeping keys that start with the prefix. */
    method GetMetrics(prefix: Option<string>) returns (results: Metrics)
      ensures results == WithPrefix(metrics, prefix)
    {
      if prefix.Some? && prefix.value != "" {
        var p := prefix.value;
        results := map[];
        var rest := metrics.Keys;
        while rest != {}
          invariant rest <= metrics.Keys
          invariant forall k :: k in results <==> k in metrics && k !in rest && p <= k
          invariant forall k :: k in results ==> results[k] == metrics[k]
          decreases rest
        {
          var k :| k in rest;
          if p <= k {
            results := results[k := metrics[k]];
          }
          rest := rest - {k};
        }
        assert results.Keys == WithPrefix(metrics, prefix).Keys;
      } else {
        results := metrics;
      }
    }

    /** clearMetrics: drops every key and every sample. */
    method ClearMetrics()
      modifies this
      ensures metrics == map[]
    {
      metrics := map[];
    }
  }

  /** The object startTiming returns; its end() closes over the monitor, the key and the start time. */
  class TimingHandle {
    const monitor: QueryPerformanceMonitor
    const key: string
    const queryKey: string
    const operation: string
    const startTime: int

    constructor (monitor: QueryPerformanceMonitor, key: string, queryKey: string, operation: string, startTime: int)
      ensures this.monitor == monitor && this.key == key && this.startTime == startTime
      ensures this.queryKey == queryKey && this.operation == operation
    {
      this.monitor := monitor;
      this.key := key;
      this.queryKey := queryKey;
      this.operation := operation;
      this.startTime := startTime;
    }

    /**
     * end(): appends one sample to the key's list and returns its duration. Every call
     * appends again with the same start. When the list was cleared meanwhile, the
     * non-null assertion on the missing list throws and nothing changes.
     */
    method End(endTime: int, stamp: int) returns (r: Result<int, MonitorError>)
      modifies monitor
      ensures key in old(monitor.metrics) ==>
                r == Success(endTime - startTime) &&
                monitor.metrics == Record(old(monitor.metrics), key, SampleAt(startTime, endTime, stamp))
      ensures key !in old(monitor.metrics) ==>
                r == Failure(MissingMetricsList(key)) && monitor.metrics == old(monitor.metrics)
    {
      if key !in monitor.metrics {
        return Failure(MissingMetricsList(key));
      }
      var duration := endTime - startTime;
      monitor.metrics := monitor.metrics[key := monitor.metrics[key] + [Sample(startTime, endTime, duration, stamp)]];
      r := Success(duration);
    }
  }

  /** The static `instance` slot behind getInstance. */
  class MonitorRegistry {
    var instance: QueryPerformanceMonitor?

    constructor ()
      ensures instance == null
    {
      instance := null;
    }

    /** getInstance: creates the monitor on first access only; afterwards returns the same object. */
    method GetInstance() returns (m: QueryPerformanceMonitor)
      modifies this
      ensures old(instance) != null ==> m == old(instance)
      ensures old(instance) == null ==> fresh(m) && m.metrics == map[]
      ensures instance == m
    {
      if instance == null {
        instance := new QueryPerformanceMonitor();
      }
      m := instance;
    }
  }

  /** Two getInstance calls hand out one object. */
  method GetInstanceTwice(registry: MonitorRegistry) returns (first: QueryPerformanceMonitor, second: QueryPerformanceMonitor)
    modifies registry
    ensures first == second && registry.instance == first
  {
    first := registry.GetInstance();
    second := registry.GetInstance();
  }

  /** Calling end() twice on one handle appends two samples that share the handle's start time. */
  lemma TwoEndsShareStart(m: Metrics, key: string, startTime: int, end1: int, stamp1: int, end2: int, stamp2: int)
    requires key in m
    ensures var s1, s2 := SampleAt(startTime, end1, stamp1), SampleAt(startTime, end2, stamp2);
            var m2 := Record(Record(m, key, s1), key, s2);
            m2[key] == m[key] + [s1, s2] && s1.startTime == s2.startTime == startTime &&
            forall k :: k in m && k != key ==> m2[k] == m[k]
  {
    var s1, s2 := SampleAt(startTime, end1, stamp1), SampleAt(startTime, end2, stamp2);
    assert m[key] + [s1] + [s2] == m[key] + [s1, s2];
  }

  /** A key made by startTiming(q, op) is always listed by getMetrics(q), with its samples. */
  lemma StartedKeyIsListed(m: Metrics, queryKey: string, operation: string, prefix: Option<string>)
    requires prefix == Some(queryKey) || prefix == None
    ensures var key := MetricKey(queryKey, operation);
            var r := WithPrefix(EnsureKey(m, key), prefix);
            key in r && (key in m ==> r[key] == m[key])
  {
  }

  /**
   * Prefix filtering is on raw strings: getMetrics(p) lists the keys of every query
   * whose name merely starts with p, e.g. getMetrics("user") lists "users-fetch".
   */
  lemma {:induction false} PrefixAlsoMatchesLongerQueryKeys(m: Metrics, queryKey: string, operation: string, p: string)
    requires p != "" && p <= queryKey
    ensures var key := MetricKey(queryKey, operation);
            key in WithPrefix(EnsureKey(m, key), Some(p))
  {
    var key := MetricKey(queryKey, operation);
    assert key[..|queryKey|] == queryKey;
    assert key[..|p|] == queryKey[..|p|] == p;
  }

  /** The composite key is not injective: ("a-b", "c") and ("a", "b-c") share one list, for all a, b, c. */
  lemma CompositeKeysCollide(a: string, b: string, c: string)
    ensures (a + "-" + b, c) != (a, b + "-" + c)
    ensures MetricKey(a + "-" + b, c) == MetricKey(a, b + "-" + c)
  {
    assert |a + "-" + b| > |a|;
    assert (a + "-" + b) + "-" + c == a + "-" + (b + "-" + c);
  }

  /** After clearMetrics, getMetrics returns nothing, whatever the prefix. */
  lemma ClearedMetricsAreEmpty(prefix: Option<string>)
    ensures WithPrefix(map[], prefix) == map[]
  {
  }

  /** A handle started before clearMetrics fails on end(), and leaves the table empty. */
  method EndAfterClear(monitor: QueryPerformanceMonitor, queryKey: string, operation: string, t0: int, t1: int, stamp: int)
    returns (r: Result<int, MonitorError>)
    modifies monitor
    ensures r.Failure? && monitor.metrics == map[]
  {
    var h := monitor.StartTiming(queryKey, operation, t0);
    monitor.ClearMetrics();
    r := h.End(t1, stamp);
  }
}
