/** Metering records and the per-model meters they feed
    (`router/src/metering.rs`, `router/src/metrics.rs`). */
module RouterMetrics {
  import opened Wrappers
  import opened Folds

  // ---------------------------------------------------------------------
  // Metering records
  // ---------------------------------------------------------------------

  datatype Usage = Usage(prompt: nat, completion: nat, total: nat)

  datatype MeterStatus = Completed | Cancelled | UpstreamError

  /** The status written to the record; `Unrecognized` is any other text. */
  datatype LogStatus = LogCompleted | LogUnmetered | LogCancelled | LogUpstreamError | Unrecognized

  datatype MeterContext = MeterContext(requestId: string, model: string, replicaId: string, zone: Option<string>,
                                       startedAt: int)

  datatype Record = Record(requestId: string, model: string, replicaId: string, zone: Option<string>,
                           prompt: nat, completion: nat, total: nat, status: LogStatus, startedAt: int, finishedAt: int)

  /** `MeterContext::finish`: a completion without usage is `unmetered`. */
  function Finish(ctx: MeterContext, usage: Option<Usage>, status: MeterStatus, now: int): Record {
    var logged := match status
                  case Completed => if usage.None? then LogUnmetered else LogCompleted
                  case Cancelled => LogCancelled
                  case UpstreamError => LogUpstreamError;
    var u := usage.GetOr(Usage(0, 0, 0));
    Record(ctx.requestId, ctx.model, ctx.replicaId, ctx.zone, u.prompt, u.completion, u.total, logged, ctx.startedAt,
           now)
  }

  // ---------------------------------------------------------------------
  // Meters
  // ---------------------------------------------------------------------

  /** The request-duration bounds, in seconds. */
  const BOUNDS: seq<real> := [0.05, 0.1, 0.25, 0.5, 1.0, 2.5, 5.0, 10.0, 30.0, 60.0]

  predicate Increasing(bounds: seq<real>) {
    forall i, j :: 0 <= i < j < |bounds| ==> bounds[i] < bounds[j]
  }

  lemma BoundsIncrease()
    ensures Increasing(BOUNDS)
  {
  }

  datatype ModelMeter = ModelMeter(
    completed: nat, unmetered: nat, cancelled: nat, upstreamError: nat,
    prompt: nat, completion: nat,
    buckets: seq<nat>, latencySum: real, latencyCount: nat)

  function EmptyMeter(n: nat): ModelMeter {
    ModelMeter(0, 0, 0, 0, 0, 0, seq(n, _ => 0), 0.0, 0)
  }

  datatype Observation = Observation(status: LogStatus, prompt: nat, completion: nat, latency: real)

  function ObservationOf(rec: Record): Observation {
    Observation(rec.status, rec.prompt, rec.completion, Max(rec.finishedAt - rec.startedAt, 0) as real / 1000.0)
  }

  /** The first bucket whose bound the latency does not exceed, searched from `i`. */
  function Bucket(bounds: seq<real>, latency: real, i: nat): (b: nat)
    requires i <= |bounds|
    ensures i <= b <= |bounds|
    ensures b < |bounds| ==> latency <= bounds[b]
    ensures forall k :: i <= k < b ==> bounds[k] < latency
    decreases |bounds| - i
  {
    if i == |bounds| || latency <= bounds[i] then i else Bucket(bounds, latency, i + 1)
  }

  function MeterAfter(bounds: seq<real>, m: ModelMeter, o: Observation): (r: ModelMeter)
    ensures |r.buckets| == |m.buckets|
  {
    var b := Bucket(bounds, o.latency, 0);
    m.(completed := m.completed + Bit(o.status.LogCompleted?),
       unmetered := m.unmetered + Bit(o.status.LogUnmetered?),
       cancelled := m.cancelled + Bit(o.status.LogCancelled?),
       upstreamError := m.upstreamError + Bit(o.status.LogUpstreamError?),
       prompt := m.prompt + o.prompt,
       completion := m.completion + o.completion,
       buckets := if b < |m.buckets| then m.buckets[b := m.buckets[b] + 1] else m.buckets,
       latencySum := m.latencySum + o.latency,
       latencyCount := m.latencyCount + 1)
  }

  type Meters = map<string, ModelMeter>

  function MetersAfter(bounds: seq<real>, models: Meters, model: string, o: Observation): Meters {
    models[model := MeterAfter(bounds, if model in models then models[model] else EmptyMeter(|bounds|), o)]
  }

  // ---------------------------------------------------------------------
  // The histogram
  // ---------------------------------------------------------------------

  /** The meter a sequence of observations amounts to. */
  function MeterOf(bounds: seq<real>, obs: seq<Observation>): (m: ModelMeter)
    ensures |m.buckets| == |bounds|
  {
    if obs == [] then EmptyMeter(|bounds|) else MeterAfter(bounds, MeterOf(bounds, obs[..|obs| - 1]), obs[|obs| - 1])
  }

  /** Sum of the first `n` bucket counts. */
  function Cumulative(buckets: seq<nat>, n: nat): nat
    requires n <= |buckets|
  {
    if n == 0 then 0 else Cumulative(buckets, n - 1) + buckets[n - 1]
  }

  ghost function AtMost(bound: real): Observation -> bool {
    (o: Observation) => o.latency <= bound
  }

  lemma {:induction false} CumulativeBump(buckets: seq<nat>, b: nat, n: nat)
    requires n <= |buckets| && b < |buckets|
    ensures Cumulative(buckets[b := buckets[b] + 1], n) == Cumulative(buckets, n) + Bit(b < n)
  {
    if n > 0 {
      CumulativeBump(buckets, b, n - 1);
    }
  }

  lemma {:induction false} EmptyCumulative(buckets: seq<nat>, n: nat)
    requires n <= |buckets| && forall i :: 0 <= i < |buckets| ==> buckets[i] == 0
    ensures Cumulative(buckets, n) == 0
  {
    if n > 0 {
      EmptyCumulative(buckets, n - 1);
    }
  }

  lemma {:induction false} CountAtMostAll(obs: seq<Observation>, bound: real)
    ensures CountIf(obs, AtMost(bound)) <= |obs|
  {
    if obs != [] {
      CountAtMostAll(obs[..|obs| - 1], bound);
    }
  }

  /** The cumulative count at a bound is the number of observed latencies that
      do not exceed it; the counts never decrease and never pass the `+Inf`
      count, which is the number of observations. */
  lemma {:induction false} HistogramExact(bounds: seq<real>, obs: seq<Observation>, i: nat)
    requires Increasing(bounds) && i < |bounds|
    ensures
      var m := MeterOf(bounds, obs);
      && Cumulative(m.buckets, i + 1) == CountIf(obs, AtMost(bounds[i])) <= m.latencyCount
      && Cumulative(m.buckets, i) <= Cumulative(m.buckets, i + 1)
      && m.latencyCount == |obs|
  {
    CountAtMostAll(obs, bounds[i]);
    if obs == [] {
      EmptyCumulative(MeterOf(bounds, obs).buckets, i + 1);
    } else {
      var before, o := obs[..|obs| - 1], obs[|obs| - 1];
      HistogramExact(bounds, before, i);
      var b := Bucket(bounds, o.latency, 0);
      if b < |bounds| {
        CumulativeBump(MeterOf(bounds, before).buckets, b, i + 1);
      }
      assert o.latency <= bounds[i] <==> b <= i;
    }
  }

  // ---------------------------------------------------------------------
  // The mutable registry of meters
  // ---------------------------------------------------------------------

  class Metrics {
    const bounds: seq<real>
    var starved: map<string, nat>
    var models: Meters

    constructor ()
      ensures bounds == BOUNDS && starved == map[] && models == map[]
    {
      bounds := BOUNDS;
      starved, models := map[], map[];
    }

    predicate WellFormed()
      reads this
    {
      forall m :: m in models ==> |models[m].buckets| == |bounds|
    }

    method IncStarved(model: string)
      modifies this`starved
      ensures starved == old(starved)[model := (if model in old(starved) then old(starved)[model] else 0) + 1]
    {
      var n := if model in starved then starved[model] else 0;
      starved := starved[model := n + 1];
    }

    /** `observe`: exactly one meter changes, by exactly one observation. */
    method Observe(model: string, o: Observation)
      requires WellFormed()
      modifies this`models
      ensures WellFormed() && models == MetersAfter(bounds, old(models), model, o)
    {
      var m := if model in models then models[model] else EmptyMeter(|bounds|);
      match o.status {
        case LogCompleted => m := m.(completed := m.completed + 1);
        case LogUnmetered => m := m.(unmetered := m.unmetered + 1);
        case LogCancelled => m := m.(cancelled := m.cancelled + 1);
        case LogUpstreamError => m := m.(upstreamError := m.upstreamError + 1);
        case Unrecognized =>
      }
      m := m.(prompt := m.prompt + o.prompt, completion := m.completion + o.completion);
      var i := FindBucket(o.latency);
      if i < |bounds| {
        m := m.(buckets := m.buckets[i := m.buckets[i] + 1]);
      }
      m := m.(latencySum := m.latencySum + o.latency, latencyCount := m.latencyCount + 1);
      models := models[model := m];
    }

    method FindBucket(latency: real) returns (i: nat)
      ensures i == Bucket(bounds, latency, 0)
    {
      i := 0;
      while i < |bounds| && !(latency <= bounds[i])
        invariant i <= |bounds|
        invariant Bucket(bounds, latency, 0) == Bucket(bounds, latency, i)
      {
        i := i + 1;
      }
    }

    /** The cumulative series `render` writes for one model: when the meter came
        from the observations `obs`, entry `i` counts those at or below bound `i`. */
    method RenderBuckets(model: string, ghost obs: seq<Observation>) returns (series: seq<nat>)
      requires Increasing(bounds) && model in models && models[model] == MeterOf(bounds, obs)
      ensures |series| == |bounds|
      ensures forall i :: 0 <= i < |series| ==> series[i] == CountIf(obs, AtMost(bounds[i]))
    {
      var buckets := models[model].buckets;
      var cumulative := 0;
      series := [];
      for i := 0 to |bounds|
        invariant |series| == i && cumulative == Cumulative(buckets, i)
        invariant forall k :: 0 <= k < i ==> series[k] == CountIf(obs, AtMost(bounds[k]))
      {
        cumulative := cumulative + buckets[i];
        series := series + [cumulative];
        HistogramExact(bounds, obs, i);
      }
    }
  }
}
