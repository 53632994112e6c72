/** The metrics collector and counter of pkg/observability/metrics.go. Values
    are exact reals rather than float64, and time is an explicit `now`. */
module Metrics {

  datatype MetricType = CounterMetric | Gauge | Histogram

  datatype Metric = Metric(name: string, metricType: MetricType, value: real, labels: map<string, string>, timestamp: int)

  /** The sum of a counter's increments, oldest first. */
  function Sum(xs: seq<real>): real
    decreases |xs|
  {
    if xs == [] then 0.0 else Sum(xs[..|xs| - 1]) + xs[|xs| - 1]
  }

  /** The values a counter records for a run of increments: each is the
      running total after that increment. */
  function RunningTotals(start: real, adds: seq<real>): (totals: seq<real>)
    ensures |totals| == |adds|
    decreases |adds|
  {
    if adds == [] then [] else [start + adds[0]] + RunningTotals(start + adds[0], adds[1..])
  }

  /** The k-th recorded value is the starting value plus the first k+1
      increments: a counter's metrics are cumulative, not per increment. */
  lemma {:induction false} RunningTotalsAreSums(start: real, adds: seq<real>, k: nat)
    requires k < |adds|
    ensures RunningTotals(start, adds)[k] == start + Sum(adds[..k + 1])
    decreases |adds|
  {
    if k > 0 {
      RunningTotalsAreSums(start + adds[0], adds[1..], k - 1);
      SumCons(adds[0], adds[1..][..k]);
      assert [adds[0]] + adds[1..][..k] == adds[..k + 1];
    }
  }

  lemma {:induction false} SumCons(x: real, xs: seq<real>)
    ensures Sum([x] + xs) == x + Sum(xs)
    decreases |xs|
  {
    if xs != [] {
      assert ([x] + xs)[..|[x] + xs| - 1] == [x] + xs[..|xs| - 1];
      SumCons(x, xs[..|xs| - 1]);
    }
  }

  class MetricsCollector {
    var metrics: map<string, seq<Metric>>

    /** `NewMetricsCollector`. */
    constructor ()
      ensures metrics == map[]
    {
      metrics := map[];
    }

    /** The metrics recorded under a name, oldest first. */
    function Recorded(name: string): (ms: seq<Metric>)
      reads this
      ensures name !in metrics ==> ms == []
      ensures name in metrics ==> ms == metrics[name]
    {
      if name in metrics then metrics[name] else []
    }

    /** `RecordMetric(m)`: appends `m`, stamped with `now`, under its name. */
    method RecordMetric(m: Metric, now: int)
      modifies this
      ensures metrics == old(metrics)[m.name := old(Recorded(m.name)) + [m.(timestamp := now)]]
    {
      metrics := metrics[m.name := Recorded(m.name) + [m.(timestamp := now)]];
    }

    /** `GetMetrics(name)`. */
    method GetMetrics(name: string) returns (ms: seq<Metric>)
      ensures ms == Recorded(name)
    {
      ms := if name in metrics then metrics[name] else [];
    }

    /** `NewCounter(name, labels)`: a zero counter reporting to this collector. */
    method NewCounter(name: string, labels: map<string, string>) returns (c: Counter)
      ensures fresh(c) && c.name == name && c.labels == labels && c.mc == this
      ensures c.value == 0.0 && c.added == [] && c.Valid()
    {
      c := new Counter(name, labels, this);
    }
  }

  class Counter {
    const name: string
    var value: real
    const labels: map<string, string>
    const mc: MetricsCollector
    /** Every amount added so far, oldest first. */
    ghost var added: seq<real>

    ghost predicate Valid()
      reads this
    {
      value == Sum(added)
    }

    constructor (name: string, labels: map<string, string>, mc: MetricsCollector)
      ensures this.name == name && this.labels == labels && this.mc == mc
      ensures value == 0.0 && added == [] && Valid()
    {
      this.name := name;
      this.labels := labels;
      this.mc := mc;
      value := 0.0;
      added := [];
    }

    /** `Add(v)`: raises the value by `v` and records one counter metric
        carrying the new total. */
    method Add(v: real, now: int)
      requires Valid()
      modifies this, mc
      ensures Valid() && added == old(added) + [v] && value == old(value) + v
      ensures mc.metrics == old(mc.metrics)[name := old(mc.Recorded(name)) + [Metric(name, CounterMetric, value, labels, now)]]
    {
      value := value + v;
      added := added + [v];
      assert added[..|added| - 1] == old(added);
      mc.RecordMetric(Metric(name, CounterMetric, value, labels, now), now);
    }

    /** `Inc`: `Add(1)`. */
    method Inc(now: int)
      requires Valid()
      modifies this, mc
      ensures Valid() && added == old(added) + [1.0] && value == old(value) + 1.0
      ensures mc.metrics == old(mc.metrics)[name := old(mc.Recorded(name)) + [Metric(name, CounterMetric, value, labels, now)]]
    {
      Add(1.0, now);
    }
  }

  /** A run of `Add` calls on one counter records, under its name, one metric
      per call carrying the running total. */
  method AddEach(c: Counter, adds: seq<real>, now: int)
    requires c.Valid()
    modifies c, c.mc
    ensures c.Valid() && c.value == old(c.value) + Sum(adds)
    ensures |c.mc.Recorded(c.name)| == |old(c.mc.Recorded(c.name))| + |adds|
    ensures c.mc.Recorded(c.name)[..|old(c.mc.Recorded(c.name))|] == old(c.mc.Recorded(c.name))
    ensures forall k | 0 <= k < |adds| ::
      c.mc.Recorded(c.name)[|old(c.mc.Recorded(c.name))| + k] == Metric(c.name, CounterMetric, RunningTotals(old(c.value), adds)[k], c.labels, now)
  {
    ghost var before := c.mc.Recorded(c.name);
    ghost var start := c.value;
    var i := 0;
    while i < |adds|
      invariant 0 <= i <= |adds| && c.Valid()
      invariant c.value == start + Sum(adds[..i])
      invariant |c.mc.Recorded(c.name)| == |before| + i
      invariant c.mc.Recorded(c.name)[..|before|] == before
      invariant forall k | 0 <= k < i ::
        c.mc.Recorded(c.name)[|before| + k] == Metric(c.name, CounterMetric, RunningTotals(start, adds)[k], c.labels, now)
    {
      assert adds[..i + 1][..i] == adds[..i];
      RunningTotalsAreSums(start, adds, i);
      c.Add(adds[i], now);
      i := i + 1;
    }
    assert adds[..i] == adds;
  }
}
