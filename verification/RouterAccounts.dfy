/** What the router's numbers come from: capacities from the inventory, records from what a
    request saw, and meters from the records. */
module RouterAccounts {
  import opened Wrappers
  import opened Folds
  import opened Routing
  import opened RouterMetrics
  import opened RouterProtocol
  import opened RouterProofs
  import opened RouterTheorems

  // ---------------------------------------------------------------------
  // Capacities
  // ---------------------------------------------------------------------

  lemma HeapStep(s: State, step: Step, t: State)
    requires Next(s, step, t)
    ensures s.heap <= t.heap
  {
    if OfRequest(step) {
      RequestFrame(s, step, t);
    }
  }

  /** An object keeps its description for ever. */
  lemma {:induction false} HeapGrows(states: seq<State>, steps: seq<Step>, i: nat, j: nat)
    requires IsRun(states, steps) && i <= j <= |steps|
    ensures states[i].heap <= states[j].heap
    decreases j
  {
    if i < j {
      HeapGrows(states, steps, i, j - 1);
      HeapStep(states[j - 1], steps[j - 1], states[j]);
    }
  }

  /** Slots free and slots held of an object add up to this number. */
  ghost predicate Shares(s: State, o: nat, slots: nat) {
    o < |s.heap| == |s.free| && s.free[o] + CountIf(s.reqs, Holds(o)) == slots
  }

  function Slots(concurrency: nat): nat {
    if concurrency == 0 then 1 else concurrency
  }

  lemma PolledSpecs(s: State, step: Step, t: State, i: nat)
    requires step.Poll? && step.fetched.Some? && Next(s, step, t) && i < |step.fetched.value|
    ensures |t.table| == |step.fetched.value| && t.table[i] == |s.heap| + i < |t.heap|
    ensures OfRunner(t.heap[|s.heap| + i], step.fetched.value[i])
  {
  }

  /** What a poll brings in: the table is one object per runner, and from then on, in the table
      or replaced, the i-th has the runner's name, zone and models and shares out exactly the
      runner's concurrency. */
  lemma {:induction false} PolledObject(states: seq<State>, steps: seq<Step>, l: nat, j: nat, i: nat)
    requires IsRun(states, steps) && l < j <= |steps| && steps[l].Poll? && steps[l].fetched.Some?
    requires i < |steps[l].fetched.value|
    ensures
      var o, runner := |states[l].heap| + i, steps[l].fetched.value[i];
      && |states[l + 1].table| == |steps[l].fetched.value| && states[l + 1].table[i] == o
      && Shares(states[j], o, Slots(runner.concurrency)) && OfRunner(states[j].heap[o], runner)
  {
    PolledSpecs(states[l], steps[l], states[l + 1], i);
    HeapGrows(states, steps, l + 1, j);
    CapacityAndRegistry(states, steps, j);
  }

  /** The same for the configured replicas. */
  lemma {:induction false} ConfiguredObject(states: seq<State>, steps: seq<Step>, configs: seq<ReplicaConfig>,
                                            j: nat, i: nat)
    requires IsRun(states, steps) && InitFrom(states[0], configs) && j <= |steps| && i < |configs|
    ensures |states[0].table| == |configs| && states[0].table[i] == i
    ensures Shares(states[j], i, Slots(configs[i].concurrency)) && OfConfig(states[j].heap[i], i, configs[i])
  {
    HeapGrows(states, steps, 0, j);
    CapacityAndRegistry(states, steps, j);
  }

  lemma AdmitRejects(s: State, step: Step, t: State)
    requires step.Admit? && Next(s, step, t)
    ensures HasObject(s, step.r)
    ensures t.counters.rejected > s.counters.rejected <==> s.free[s.reqs[step.r].obj.value] == 0
    ensures step.r < |t.reqs| && (t.reqs[step.r].permit || t.counters.rejected > s.counters.rejected)
  {
  }

  /** An admission on an object with this many slots is rejected if and only if as many
      requests hold one already. */
  lemma {:induction false} RejectedIff(states: seq<State>, steps: seq<Step>, j: nat, slots: nat)
    requires IsRun(states, steps) && j < |steps| && steps[j].Admit? && HasObject(states[j], steps[j].r)
    requires Shares(states[j], states[j].reqs[steps[j].r].obj.value, slots)
    ensures states[j + 1].counters.rejected > states[j].counters.rejected <==>
            CountIf(states[j].reqs, Holds(states[j].reqs[steps[j].r].obj.value)) == slots
  {
    AdmitRejects(states[j], steps[j], states[j + 1]);
  }

  // ---------------------------------------------------------------------
  // Records
  // ---------------------------------------------------------------------

  /** A step brings new usage: a chunk that carries some, or the body. */
  function UsageAfter(step: Step, usage: Option<Usage>): Option<Usage> {
    if (step.Chunk? && step.usage.Some?) || step.BodyArrives? then step.usage else usage
  }

  /** A step decides how its request ends. */
  function FateAfter(step: Step, fate: Option<MeterStatus>): Option<MeterStatus> {
    if step.SeeCancel? then Some(Cancelled)
    else if step.UpstreamFails? then Some(UpstreamError)
    else if step.BodyArrives? || step.StreamEnds? || step.StreamResumes? then Some(Completed)
    else fate
  }

  /** The usage request `r` saw last in the first `j` steps. */
  function SeenUsage(steps: seq<Step>, j: nat, r: nat): Option<Usage>
    requires j <= |steps|
  {
    if j == 0 then None
    else
      var before, step := SeenUsage(steps, j - 1, r), steps[j - 1];
      if OfRequest(step) && Actor(step) == r then UsageAfter(step, before) else before
  }

  /** How request `r` ended, as its last turn in the first `j` steps says. */
  function Fate(steps: seq<Step>, j: nat, r: nat): Option<MeterStatus>
    requires j <= |steps|
  {
    if j == 0 then None
    else
      var before, step := Fate(steps, j - 1, r), steps[j - 1];
      if OfRequest(step) && Actor(step) == r then FateAfter(step, before) else before
  }

  /** What the request carries is what its steps say. */
  predicate Traced(q: Req, usage: Option<Usage>, fate: Option<MeterStatus>) {
    q.usage == usage && (q.phase.Ending? || q.phase.Counted? ==> fate == Some(q.phase.status))
  }

  lemma EnteringTraced(s: State, step: Step, t: State, usage: Option<Usage>, fate: Option<MeterStatus>)
    requires Entering(step) && Next(s, step, t) && step.r < |s.reqs| && Traced(s.reqs[step.r], usage, fate)
    ensures step.r < |t.reqs| && Traced(t.reqs[step.r], usage, fate)
  {
    if step.SelectReplica? {
      SelectedIs(s, step, t);
    }
  }

  lemma ClosingTraced(s: State, step: Step, t: State, usage: Option<Usage>, fate: Option<MeterStatus>)
    requires Closing(step) && Next(s, step, t) && step.r < |s.reqs| && Traced(s.reqs[step.r], usage, fate)
    ensures step.r < |t.reqs| && Traced(t.reqs[step.r], usage, fate)
  {
  }

  lemma ForwardingTraced(s: State, step: Step, t: State, usage: Option<Usage>, fate: Option<MeterStatus>)
    requires OfRequest(step) && !Entering(step) && !Closing(step) && Next(s, step, t)
    requires Actor(step) < |s.reqs| && Traced(s.reqs[Actor(step)], usage, fate)
    ensures Actor(step) < |t.reqs| && Traced(t.reqs[Actor(step)], UsageAfter(step, usage), FateAfter(step, fate))
  {
  }

  /** Steps of other requests, and of requests that have not arrived, say nothing about `r`. */
  lemma TraceStep(s: State, step: Step, t: State, r: nat, usage: Option<Usage>, fate: Option<MeterStatus>)
    requires Next(s, step, t)
    requires if r < |s.reqs| then Traced(s.reqs[r], usage, fate) else usage.None? && fate.None?
    ensures var mine := OfRequest(step) && Actor(step) == r;
            var u, f := if mine then UsageAfter(step, usage) else usage, if mine then FateAfter(step, fate) else fate;
            if r < |t.reqs| then Traced(t.reqs[r], u, f) else u.None? && f.None?
  {
    if !OfRequest(step) || Actor(step) != r {
      OthersTrace(s, step, t, r);
    } else {
      RequestFrame(s, step, t);
      if Entering(step) {
        EnteringTraced(s, step, t, usage, fate);
      } else if Closing(step) {
        ClosingTraced(s, step, t, usage, fate);
      } else {
        ForwardingTraced(s, step, t, usage, fate);
      }
    }
  }

  lemma OthersTrace(s: State, step: Step, t: State, r: nat)
    requires Next(s, step, t) && (!OfRequest(step) || Actor(step) != r)
    ensures |s.reqs| <= |t.reqs| && (r < |s.reqs| ==> t.reqs[r] == s.reqs[r])
    ensures |s.reqs| <= r < |t.reqs| ==> Traced(t.reqs[r], None, None)
  {
    if OfRequest(step) {
      RequestFrame(s, step, t);
    }
  }

  lemma {:induction false} TraceOfRun(states: seq<State>, steps: seq<Step>, j: nat, r: nat)
    requires IsRun(states, steps) && j <= |steps|
    ensures var usage, fate := SeenUsage(steps, j, r), Fate(steps, j, r);
            if r < |states[j].reqs| then Traced(states[j].reqs[r], usage, fate) else usage.None? && fate.None?
  {
    if j > 0 {
      TraceOfRun(states, steps, j - 1, r);
      TraceStep(states[j - 1], steps[j - 1], states[j], r, SeenUsage(steps, j - 1, r), Fate(steps, j - 1, r));
    }
  }

  /** The record a request leaves: who, where, when, how it ended and what it used. */
  predicate Accounts(rec: Record, q: Req, spec: Spec, usage: Option<Usage>, fate: Option<MeterStatus>, started: int,
                     now: int) {
    && rec.requestId == q.id && rec.model == q.model && rec.replicaId == spec.id && rec.zone == spec.zone
    && rec.startedAt == started && rec.finishedAt == now
    && (usage.Some? ==> Usage(rec.prompt, rec.completion, rec.total) == usage.value)
    && (usage.None? ==> rec.prompt == rec.completion == rec.total == 0)
    && (rec.status == LogCancelled <==> fate == Some(Cancelled))
    && (rec.status == LogUpstreamError <==> fate == Some(UpstreamError))
    && (rec.status == LogCompleted <==> fate == Some(Completed) && usage.Some?)
    && (rec.status == LogUnmetered <==> fate == Some(Completed) && usage.None?)
  }

  /** Step `i` wrote the record of request `r`. */
  predicate WrittenAt(states: seq<State>, steps: seq<Step>, i: nat, r: nat, rec: Record)
    requires i < |steps| < |states|
  {
    && steps[i].Observe? && steps[i].r == r && HasObject(states[i], r)
    && Accounts(rec, states[i].reqs[r], states[i].heap[states[i].reqs[r].obj.value], SeenUsage(steps, i, r),
                Fate(steps, i, r), steps[i].started, steps[i].now)
  }

  lemma ObserveWrites(s: State, step: Step, t: State, usage: Option<Usage>, fate: Option<MeterStatus>)
    requires step.Observe? && Next(s, step, t) && step.r < |s.reqs| && Traced(s.reqs[step.r], usage, fate)
    ensures HasObject(s, step.r) && step.r < |t.reqs| && t.reqs[step.r].record.Some?
    ensures Accounts(t.reqs[step.r].record.value, s.reqs[step.r], s.heap[s.reqs[step.r].obj.value], usage, fate,
                     step.started, step.now)
  {
  }

  lemma RecordBefore(s: State, step: Step, t: State, r: nat)
    requires Next(s, step, t) && r < |t.reqs| && t.reqs[r].record.Some?
    ensures r < |s.reqs| && (t.reqs[r].record == s.reqs[r].record || (step.Observe? && step.r == r))
  {
    if OfRequest(step) {
      RequestFrame(s, step, t);
      if !step.Observe? {
        RecordsKept(s, step, t);
      }
    }
  }

  /** In every run a metering record was written once, by its request, with the tokens of the
      last usage it saw and the status its last turn decided. */
  lemma {:induction false} RecordMeaning(states: seq<State>, steps: seq<Step>, j: nat, r: nat) returns (i: nat)
    requires IsRun(states, steps) && j <= |steps| && r < |states[j].reqs| && states[j].reqs[r].record.Some?
    ensures i < j && WrittenAt(states, steps, i, r, states[j].reqs[r].record.value)
    decreases j
  {
    if j == 0 {
      assert false;
    }
    RecordBefore(states[j - 1], steps[j - 1], states[j], r);
    if steps[j - 1].Observe? && steps[j - 1].r == r {
      i := j - 1;
      TraceOfRun(states, steps, j - 1, r);
      ObserveWrites(states[j - 1], steps[j - 1], states[j], SeenUsage(steps, j - 1, r), Fate(steps, j - 1, r));
    } else {
      i := RecordMeaning(states, steps, j - 1, r);
    }
  }

  // ---------------------------------------------------------------------
  // Cancellation
  // ---------------------------------------------------------------------

  /** The step is a cancel message for the id, which stands for this request. */
  predicate Asks(s: State, step: Step, r: nat) {
    step.NatsCancel? && step.id in s.registry && s.registry[step.id] == r
  }

  lemma CancelledBefore(s: State, step: Step, t: State, r: nat)
    requires Next(s, step, t) && r in t.cancelled
    ensures r in s.cancelled || Asks(s, step, r)
  {
    if OfRequest(step) {
      RequestFrame(s, step, t);
    }
  }

  lemma {:induction false} TokenWasAsked(states: seq<State>, steps: seq<Step>, j: nat, r: nat) returns (i: nat)
    requires IsRun(states, steps) && j <= |steps| && r in states[j].cancelled
    ensures i < j && Asks(states[i], steps[i], r)
    decreases j
  {
    if j == 0 {
      assert false;
    }
    CancelledBefore(states[j - 1], steps[j - 1], states[j], r);
    if r in states[j - 1].cancelled {
      i := TokenWasAsked(states, steps, j - 1, r);
    } else {
      i := j - 1;
    }
  }

  /** Where the turn that decided a cancelled ending was. */
  lemma {:induction false} FateWasSeen(states: seq<State>, steps: seq<Step>, j: nat, r: nat) returns (i: nat)
    requires IsRun(states, steps) && j <= |steps| && Fate(steps, j, r) == Some(Cancelled)
    ensures i < j && steps[i] == SeeCancel(r)
    decreases j
  {
    var step := steps[j - 1];
    if step == SeeCancel(r) {
      i := j - 1;
    } else {
      i := FateWasSeen(states, steps, j - 1, r);
    }
  }

  lemma SeenIsCancelled(s: State, step: Step, t: State)
    requires step.SeeCancel? && Next(s, step, t)
    ensures step.r in s.cancelled
  {
  }

  /** No request is metered as cancelled unless a cancel message named it while it was registered. */
  lemma {:induction false} CancelledWasAsked(states: seq<State>, steps: seq<Step>, j: nat, r: nat) returns (i: nat)
    requires IsRun(states, steps) && j <= |steps| && r < |states[j].reqs| && states[j].reqs[r].record.Some?
    requires states[j].reqs[r].record.value.status == LogCancelled
    ensures i < j && Asks(states[i], steps[i], r) && r < |states[i].reqs| && states[i].reqs[r].id == steps[i].id
  {
    var k := RecordMeaning(states, steps, j, r);
    var l := FateWasSeen(states, steps, k, r);
    SeenIsCancelled(states[l], steps[l], states[l + 1]);
    i := TokenWasAsked(states, steps, l, r);
    RunInv(states, steps, i);
  }

  // ---------------------------------------------------------------------
  // Starvation
  // ---------------------------------------------------------------------

  /** No live replica of the table serves the model. */
  ghost predicate Unserved(s: State, model: string) {
    TableOk(s) && forall i :: 0 <= i < |s.table| ==> !(s.heap[s.table[i]].live && model in s.heap[s.table[i]].models)
  }

  /** The step turns a request for the model away: nothing serves it, or its replica is full. */
  ghost predicate Starves(s: State, step: Step, model: string) {
    || (step.SelectReplica? && step.r < |s.reqs| && s.reqs[step.r].model == model && Unserved(s, model))
    || (step.Admit? && HasObject(s, step.r) && s.reqs[step.r].model == model && s.free[s.reqs[step.r].obj.value] == 0)
  }

  function StarvedCount(s: State, model: string): nat {
    if model in s.counters.starved then s.counters.starved[model] else 0
  }

  lemma SelectStarves(s: State, step: Step, t: State, model: string)
    requires step.SelectReplica? && Next(s, step, t)
    ensures StarvedCount(t, model) == StarvedCount(s, model) + Bit(Starves(s, step, model))
  {
    var q := s.reqs[step.r];
    var route := Select(Views(s), q.model, q.zone);
    assert Unserved(s, q.model) <==> route.NoReplica? by {
      if !route.NoReplica? {
        var j :| 0 <= j < |Views(s)| && Serves(Views(s)[j].spec, q.model);
        assert Views(s)[j].spec == s.heap[s.table[j]];
      } else {
        forall i | 0 <= i < |s.table| ensures !(s.heap[s.table[i]].live && q.model in s.heap[s.table[i]].models) {
          assert !Serves(Views(s)[i].spec, q.model);
        }
      }
    }
  }

  lemma AdmitStarves(s: State, step: Step, t: State, model: string)
    requires step.Admit? && Next(s, step, t)
    ensures StarvedCount(t, model) == StarvedCount(s, model) + Bit(Starves(s, step, model))
  {
  }

  lemma OthersDoNotStarve(s: State, step: Step, t: State)
    requires !step.SelectReplica? && !step.Admit? && Next(s, step, t)
    ensures t.counters.starved == s.counters.starved
  {
  }

  /** How many of the first `j` steps turn a request for the model away. */
  ghost function Starvations(states: seq<State>, steps: seq<Step>, j: nat, model: string): nat
    requires j <= |steps| < |states|
  {
    if j == 0 then 0
    else Starvations(states, steps, j - 1, model) + Bit(Starves(states[j - 1], steps[j - 1], model))
  }

  /** In every run a model's starved counter is the number of its requests turned away. */
  lemma {:induction false} StarvedOfRun(states: seq<State>, steps: seq<Step>, j: nat, model: string)
    requires IsRun(states, steps) && j <= |steps|
    ensures StarvedCount(states[j], model) == Starvations(states, steps, j, model)
  {
    if j > 0 {
      StarvedOfRun(states, steps, j - 1, model);
      StarvedStep(states[j - 1], steps[j - 1], states[j], model);
    }
  }

  lemma StarvedStep(s: State, step: Step, t: State, model: string)
    requires Next(s, step, t)
    ensures StarvedCount(t, model) == StarvedCount(s, model) + Bit(Starves(s, step, model))
  {
    if step.SelectReplica? {
      SelectStarves(s, step, t, model);
    } else if step.Admit? {
      AdmitStarves(s, step, t, model);
    } else {
      OthersDoNotStarve(s, step, t);
    }
  }

  // ---------------------------------------------------------------------
  // Meters
  // ---------------------------------------------------------------------

  type Slot = Option<Record>

  /** The records written so far, one slot per request. */
  function RecordsOf(reqs: seq<Req>): (recs: seq<Slot>)
    ensures |recs| == |reqs|
    ensures forall r :: 0 <= r < |recs| ==> recs[r] == reqs[r].record
  {
    seq(|reqs|, r requires 0 <= r < |reqs| => reqs[r].record)
  }

  /** How long the request took, in milliseconds; a clock that went back counts as none. */
  function Millis(rec: Record): real {
    if rec.finishedAt < rec.startedAt then 0.0 else (rec.finishedAt - rec.startedAt) as real
  }

  predicate IsOf(x: Slot, model: string) {
    x.Some? && x.value.model == model
  }

  ghost function OfModel(model: string): Slot -> bool {
    (x: Slot) => IsOf(x, model)
  }

  ghost function Logged(model: string, st: LogStatus): Slot -> bool {
    (x: Slot) => IsOf(x, model) && x.value.status == st
  }

  /** Took at most this many seconds. */
  ghost function Within(model: string, bound: real): Slot -> bool {
    (x: Slot) => IsOf(x, model) && Millis(x.value) <= 1000.0 * bound
  }

  ghost function Prompts(model: string): Slot -> real {
    (x: Slot) => if IsOf(x, model) then x.value.prompt as real else 0.0
  }

  ghost function Completions(model: string): Slot -> real {
    (x: Slot) => if IsOf(x, model) then x.value.completion as real else 0.0
  }

  ghost function Times(model: string): Slot -> real {
    (x: Slot) => if IsOf(x, model) then Millis(x.value) else 0.0
  }

  ghost predicate StatusesAre(m: ModelMeter, recs: seq<Slot>, model: string) {
    && m.completed == CountIf(recs, Logged(model, LogCompleted))
    && m.unmetered == CountIf(recs, Logged(model, LogUnmetered))
    && m.cancelled == CountIf(recs, Logged(model, LogCancelled))
    && m.upstreamError == CountIf(recs, Logged(model, LogUpstreamError))
    && m.latencyCount == CountIf(recs, OfModel(model))
  }

  ghost predicate TotalsAre(m: ModelMeter, recs: seq<Slot>, model: string) {
    && m.prompt as real == SumBy(recs, Prompts(model)) && m.completion as real == SumBy(recs, Completions(model))
    && 1000.0 * m.latencySum == SumBy(recs, Times(model))
  }

  ghost predicate BucketsAre(m: ModelMeter, recs: seq<Slot>, model: string) {
    |m.buckets| == |BOUNDS| && forall i: nat :: i < |BOUNDS| ==> BucketIs(m, recs, model, i)
  }

  ghost predicate BucketIs(m: ModelMeter, recs: seq<Slot>, model: string, i: nat)
    requires |m.buckets| == |BOUNDS| && i < |BOUNDS|
  {
    Cumulative(m.buckets, i + 1) == CountIf(recs, Within(model, BOUNDS[i]))
  }

  /** The meter says of the model's records how many ended in each way, what tokens they used
      in all, how long they took in all, and how many took at most each bound. */
  ghost predicate MeterIs(m: ModelMeter, recs: seq<Slot>, model: string) {
    StatusesAre(m, recs, model) && TotalsAre(m, recs, model) && BucketsAre(m, recs, model)
  }

  lemma StatusesAfter(m: ModelMeter, recs: seq<Slot>, r: nat, rec: Record, model: string)
    requires StatusesAre(m, recs, model) && r < |recs| && recs[r].None?
    ensures StatusesAre(if rec.model == model then MeterAfter(BOUNDS, m, ObservationOf(rec)) else m,
                        recs[r := Some(rec)], model)
  {
    CountUpdate(recs, r, Some(rec), Logged(model, LogCompleted));
    CountUpdate(recs, r, Some(rec), Logged(model, LogUnmetered));
    CountUpdate(recs, r, Some(rec), Logged(model, LogCancelled));
    CountUpdate(recs, r, Some(rec), Logged(model, LogUpstreamError));
    CountUpdate(recs, r, Some(rec), OfModel(model));
  }

  lemma TotalsAfter(m: ModelMeter, recs: seq<Slot>, r: nat, rec: Record, model: string)
    requires TotalsAre(m, recs, model) && r < |recs| && recs[r].None?
    ensures TotalsAre(if rec.model == model then MeterAfter(BOUNDS, m, ObservationOf(rec)) else m,
                      recs[r := Some(rec)], model)
  {
    SumByUpdate(recs, r, Some(rec), Prompts(model));
    SumByUpdate(recs, r, Some(rec), Completions(model));
    SumByUpdate(recs, r, Some(rec), Times(model));
    LatencyIsMillis(rec);
  }

  lemma LatencyIsMillis(rec: Record)
    ensures 1000.0 * ObservationOf(rec).latency == Millis(rec)
  {
  }

  lemma BucketAfter(m: ModelMeter, recs: seq<Slot>, r: nat, rec: Record, model: string, i: nat)
    requires |m.buckets| == |BOUNDS| && i < |BOUNDS| && BucketIs(m, recs, model, i) && r < |recs| && recs[r].None?
    ensures BucketIs(if rec.model == model then MeterAfter(BOUNDS, m, ObservationOf(rec)) else m,
                     recs[r := Some(rec)], model, i)
  {
    CountUpdate(recs, r, Some(rec), Within(model, BOUNDS[i]));
    LatencyIsMillis(rec);
    BoundsIncrease();
    if rec.model == model {
      CumulativeAfter(BOUNDS, m, ObservationOf(rec), i);
    }
  }

  lemma CumulativeAfter(bounds: seq<real>, m: ModelMeter, o: Observation, i: nat)
    requires Increasing(bounds) && |m.buckets| == |bounds| && i < |bounds|
    ensures Cumulative(MeterAfter(bounds, m, o).buckets, i + 1) == Cumulative(m.buckets, i + 1) +
            Bit(o.latency <= bounds[i])
  {
    var b := Bucket(bounds, o.latency, 0);
    if b < |bounds| {
      CumulativeBump(m.buckets, b, i + 1);
    }
    assert o.latency <= bounds[i] <==> b <= i;
  }

  lemma MeterIsAfter(m: ModelMeter, recs: seq<Slot>, r: nat, rec: Record, model: string)
    requires MeterIs(m, recs, model) && r < |recs| && recs[r].None?
    ensures MeterIs(if rec.model == model then MeterAfter(BOUNDS, m, ObservationOf(rec)) else m,
                    recs[r := Some(rec)], model)
  {
    StatusesAfter(m, recs, r, rec, model);
    TotalsAfter(m, recs, r, rec, model);
    var after := if rec.model == model then MeterAfter(BOUNDS, m, ObservationOf(rec)) else m;
    var recs' := recs[r := Some(rec)];
    forall i: nat | i < |BOUNDS| ensures BucketIs(after, recs', model, i) {
      BucketAfter(m, recs, r, rec, model, i);
    }
  }

  /** A request that arrives has no record yet. */
  lemma MeterIsAppend(m: ModelMeter, recs: seq<Slot>, model: string)
    requires MeterIs(m, recs, model)
    ensures MeterIs(m, recs + [None], model)
  {
    CountAppend(recs, None, Logged(model, LogCompleted));
    CountAppend(recs, None, Logged(model, LogUnmetered));
    CountAppend(recs, None, Logged(model, LogCancelled));
    CountAppend(recs, None, Logged(model, LogUpstreamError));
    CountAppend(recs, None, OfModel(model));
    SumByAppend(recs, None, Prompts(model));
    SumByAppend(recs, None, Completions(model));
    SumByAppend(recs, None, Times(model));
    forall i: nat | i < |BOUNDS| ensures BucketIs(m, recs + [None], model, i) {
      assert BucketIs(m, recs, model, i);
      CountAppend(recs, None, Within(model, BOUNDS[i]));
    }
  }

  lemma EmptyMeterIs(model: string)
    ensures MeterIs(EmptyMeter(|BOUNDS|), [], model)
  {
    forall i: nat | i < |BOUNDS| ensures BucketIs(EmptyMeter(|BOUNDS|), [], model, i) {
      EmptyCumulative(EmptyMeter(|BOUNDS|).buckets, i + 1);
    }
  }

  function MeterFor(s: State, model: string): ModelMeter {
    if model in s.counters.models then s.counters.models[model] else EmptyMeter(|BOUNDS|)
  }

  /** What a step does to the records and the meters. */
  lemma ObserveRecord(s: State, step: Step, t: State, model: string)
    requires step.Observe? && Next(s, step, t) && ShapeInv(s)
    ensures step.r < |s.reqs| == |t.reqs| && s.reqs[step.r].record.None? && t.reqs[step.r].record.Some?
    ensures RecordsOf(t.reqs) == RecordsOf(s.reqs)[step.r := t.reqs[step.r].record]
    ensures var rec := t.reqs[step.r].record.value;
            MeterFor(t, model) == if rec.model == model
                                  then MeterAfter(BOUNDS, MeterFor(s, model), ObservationOf(rec))
                                      else MeterFor(s, model)
  {
    RequestFrame(s, step, t);
    assert ReqOk(s.heap, s.reqs[step.r]);
  }

  lemma RequestLeavesRecords(s: State, step: Step, t: State, model: string)
    requires OfRequest(step) && !step.Observe? && Next(s, step, t)
    ensures MeterFor(t, model) == MeterFor(s, model) && RecordsOf(t.reqs) == RecordsOf(s.reqs)
  {
    RequestFrame(s, step, t);
    RecordsKept(s, step, t);
  }

  lemma OutsideLeavesRecords(s: State, step: Step, t: State, model: string)
    requires !OfRequest(step) && Next(s, step, t)
    ensures MeterFor(t, model) == MeterFor(s, model)
    ensures RecordsOf(t.reqs) == RecordsOf(s.reqs) + if step.Arrive? then [None] else []
  {
  }

  /** In every run each model's meter is what the metering records say. */
  lemma {:induction false} MeterOfRecords(states: seq<State>, steps: seq<Step>, j: nat, model: string)
    requires IsRun(states, steps) && j <= |steps|
    ensures MeterIs(MeterFor(states[j], model), RecordsOf(states[j].reqs), model)
  {
    var good := MeterIsAt(states, model);
    MeterIsInit(states[0], model);
    forall l: nat | l < j && good(l) ensures good(l + 1) {
      MeterIsNext(states, steps, l, model);
    }
    KeptAlways(good, j);
  }

  ghost function MeterIsAt(states: seq<State>, model: string): nat -> bool {
    (l: nat) => l < |states| && MeterIs(MeterFor(states[l], model), RecordsOf(states[l].reqs), model)
  }

  lemma MeterIsInit(s: State, model: string)
    requires Init(s)
    ensures MeterIs(MeterFor(s, model), RecordsOf(s.reqs), model)
  {
    EmptyMeterIs(model);
    assert RecordsOf(s.reqs) == [];
  }

  lemma {:induction false} MeterIsNext(states: seq<State>, steps: seq<Step>, l: nat, model: string)
    requires IsRun(states, steps) && l < |steps| && MeterIsAt(states, model)(l)
    ensures MeterIsAt(states, model)(l + 1)
  {
    RunInv(states, steps, l);
    MeterIsStep(states[l], steps[l], states[l + 1], model);
  }

  lemma MeterIsStep(s: State, step: Step, t: State, model: string)
    requires Next(s, step, t) && ShapeInv(s) && MeterIs(MeterFor(s, model), RecordsOf(s.reqs), model)
    ensures MeterIs(MeterFor(t, model), RecordsOf(t.reqs), model)
  {
    var recs := RecordsOf(s.reqs);
    if step.Observe? {
      ObserveRecord(s, step, t, model);
      MeterIsAfter(MeterFor(s, model), recs, step.r, t.reqs[step.r].record.value, model);
    } else if OfRequest(step) {
      RequestLeavesRecords(s, step, t, model);
    } else {
      OutsideLeavesRecords(s, step, t, model);
      MeterIsAppend(MeterFor(s, model), recs, model);
      assert recs + [] == recs;
    }
  }
}
