/** The router's promises, over every run. */
module RouterTheorems {
  import opened Wrappers
  import opened Folds
  import opened Routing
  import opened RouterMetrics
  import opened RouterProtocol
  import opened RouterProofs

  function GuardedIds(s: State): set<string> {
    set r | 0 <= r < |s.reqs| && s.reqs[r].guard :: s.reqs[r].id
  }

  predicate DistinctIds(reqs: seq<Req>) {
    forall i, j :: 0 <= i < j < |reqs| ==> reqs[i].id != reqs[j].id
  }

  /** No permit leaks and none is invented. In every reachable state each
      replica object, in the current table or replaced long ago, has
      free + held = capacity >= 1; the registry only names requests that are in
      flight, and names exactly those when request ids are distinct. */
  lemma CapacityAndRegistry(states: seq<State>, steps: seq<Step>, j: nat)
    requires IsRun(states, steps) && j <= |steps|
    ensures
      var s := states[j];
      && |s.free| == |s.heap|
      && (forall o :: 0 <= o < |s.heap| ==>
            s.free[o] + CountIf(s.reqs, Holds(o)) == s.heap[o].capacity >= 1)
      && s.registry.Keys <= GuardedIds(s)
      && (DistinctIds(s.reqs) ==>
            s.registry.Keys == GuardedIds(s) &&
            forall r :: 0 <= r < |s.reqs| && s.reqs[r].guard ==> s.registry[s.reqs[r].id] == r)
  {
    RunInv(states, steps, j);
    var s := states[j];
    forall k | k in s.registry.Keys ensures k in GuardedIds(s) {
      assert s.reqs[s.registry[k]].id == k;
    }
    if DistinctIds(s.reqs) {
      forall r | 0 <= r < |s.reqs| && s.reqs[r].guard
        ensures s.reqs[r].id in s.registry && s.registry[s.reqs[r].id] == r
      {
        assert !Twin(s.reqs, r);
      }
    }
  }

  /** When nothing is in flight, by whatever path it ended, the registry is
      empty and every semaphore is full. */
  lemma IdleIsClean(states: seq<State>, steps: seq<Step>, j: nat)
    requires IsRun(states, steps) && j <= |steps|
    requires forall r :: 0 <= r < |states[j].reqs| ==>
             states[j].reqs[r].phase.Arrived? || states[j].reqs[r].phase.Finished?
    ensures states[j].registry == map[]
    ensures states[j].free == Capacities(states[j].heap)
  {
    RunInv(states, steps, j);
    var s := states[j];
    assert forall r :: 0 <= r < |s.reqs| ==> ReqOk(s.heap, s.reqs[r]);
    forall o | 0 <= o < |s.heap| ensures s.free[o] == s.heap[o].capacity {
      CountNone(s.reqs, Holds(o));
    }
    assert s.registry.Keys == {};
  }

  /** The ledger equations, at every moment: each global counter is its per-model sum, plus
      the requests between their counter and their record, plus, for upstream errors, the
      streams that broke mid-body. There is one observation per record. */
  lemma LedgerEquations(states: seq<State>, steps: seq<Step>, j: nat)
    requires IsRun(states, steps) && j <= |steps|
    ensures
      var s := states[j];
      && s.counters.completed == SumMap(s.counters.models, Booked(Completed)) + CountIf(s.reqs, CountedAs(Completed))
      && s.counters.cancelled == SumMap(s.counters.models, Booked(Cancelled)) + CountIf(s.reqs, CountedAs(Cancelled))
      && s.counters.upstreamError ==
         SumMap(s.counters.models, Booked(UpstreamError)) + CountIf(s.reqs, CountedAs(UpstreamError)) +
             CountIf(s.reqs, Broke())
      && s.counters.requests == |s.reqs|
      && SumMap(s.counters.models, Observed()) == CountIf(s.reqs, HasRecord())
  {
    RunInv(states, steps, j);
    var s := states[j];
    assert LedgerFor(s, Completed) && LedgerFor(s, Cancelled) && LedgerFor(s, UpstreamError);
  }

  /** So they balance exactly whenever no request is between the two. */
  lemma LedgerBalances(states: seq<State>, steps: seq<Step>, j: nat)
    requires IsRun(states, steps) && j <= |steps|
    requires forall r :: 0 <= r < |states[j].reqs| ==> !states[j].reqs[r].phase.Counted?
    ensures
      var s := states[j];
      && s.counters.completed == SumMap(s.counters.models, Booked(Completed))
      && s.counters.cancelled == SumMap(s.counters.models, Booked(Cancelled))
      && s.counters.upstreamError == SumMap(s.counters.models, Booked(UpstreamError)) + CountIf(s.reqs, Broke())
  {
    LedgerEquations(states, steps, j);
    CountNone(states[j].reqs, CountedAs(Completed));
    CountNone(states[j].reqs, CountedAs(Cancelled));
    CountNone(states[j].reqs, CountedAs(UpstreamError));
  }

  // ---------------------------------------------------------------------
  // Meters
  // ---------------------------------------------------------------------

  /** The observations of a model that a step makes. */
  function ObservedBy(s: State, step: Step, model: string): seq<Observation> {
    if step.Observe? && HasObject(s, step.r) && s.reqs[step.r].phase.Counted? && s.reqs[step.r].model == model
    then [ObservationOf(RecordOf(s, step.r, step.started, step.now))]
    else []
  }

  /** The observations of a model in a run, in order: one per metering record. */
  function Observations(states: seq<State>, steps: seq<Step>, model: string): seq<Observation>
    requires |states| == |steps| + 1
    decreases |steps|
  {
    var n := |steps|;
    if n == 0 then []
    else Observations(states[..n], steps[..n - 1], model) + ObservedBy(states[n - 1], steps[n - 1], model)
  }

  lemma MetersStep(s: State, step: Step, t: State, model: string)
    requires Next(s, step, t)
    ensures ObservedBy(s, step, model) == [] ==>
              (model in t.counters.models <==> model in s.counters.models)
              && (model in s.counters.models ==> t.counters.models[model] == s.counters.models[model])
    ensures ObservedBy(s, step, model) != [] ==>
              && model in t.counters.models
              && t.counters.models[model] ==
                 MeterAfter(BOUNDS, if model in s.counters.models then s.counters.models[model]
                            else EmptyMeter(|BOUNDS|),
                            ObservedBy(s, step, model)[0])
  {
    if OfRequest(step) && !step.Observe? {
      RecordsKept(s, step, t);
    }
  }

  /** In every run a model's meter is the one its own records amount to. */
  lemma {:induction false} MetersOfRun(states: seq<State>, steps: seq<Step>, model: string)
    requires IsRun(states, steps)
    ensures
      var models, obs := states[|steps|].counters.models, Observations(states, steps, model);
      && (model in models <==> obs != [])
      && (model in models ==> models[model] == MeterOf(BOUNDS, obs))
    decreases |steps|
  {
    var n := |steps|;
    if n > 0 {
      var before, more := Observations(states[..n], steps[..n - 1], model),
          ObservedBy(states[n - 1], steps[n - 1], model);
      MetersOfRun(states[..n], steps[..n - 1], model);
      MetersStep(states[n - 1], steps[n - 1], states[n], model);
      MeterAppend(before, more);
    }
  }

  lemma MeterAppend(before: seq<Observation>, more: seq<Observation>)
    requires |more| <= 1
    ensures MeterOf(BOUNDS, before + more) ==
            if more == [] then MeterOf(BOUNDS, before) else MeterAfter(BOUNDS, MeterOf(BOUNDS, before), more[0])
  {
    if more == [] {
      assert before + more == before;
    } else {
      assert (before + more)[..|before|] == before;
    }
  }

  /** So in every run the histogram counts exactly the recorded latencies. */
  lemma HistogramOfRun(states: seq<State>, steps: seq<Step>, model: string, i: nat)
    requires IsRun(states, steps) && i < |BOUNDS| && model in states[|steps|].counters.models
    ensures
      var m, obs := states[|steps|].counters.models[model], Observations(states, steps, model);
      && |m.buckets| == |BOUNDS| && Cumulative(m.buckets, i + 1) == CountIf(obs, AtMost(BOUNDS[i]))
      && m.latencyCount == |obs|
  {
    MetersOfRun(states, steps, model);
    BoundsIncrease();
    HistogramExact(BOUNDS, Observations(states, steps, model), i);
  }

  // ---------------------------------------------------------------------
  // Residency
  // ---------------------------------------------------------------------

  /** Step `i` selected object `o` for request `r`, out of the table of that moment. */
  ghost predicate SelectedAt(states: seq<State>, steps: seq<Step>, i: nat, r: nat, o: nat)
    requires i < |steps| < |states|
  {
    var s := states[i];
    && steps[i] == SelectReplica(r) && r < |s.reqs| && TableOk(s)
    && exists k :: 0 <= k < |s.table| && s.table[k] == o &&
                   IsSelection(Views(s), s.reqs[r].model, s.reqs[r].zone, To(k))
  }

  lemma ObjectStep(s: State, step: Step, t: State, r: nat)
    requires Next(s, step, t) && r < |t.reqs| && t.reqs[r].obj.Some?
    ensures r < |s.reqs|
    ensures s.reqs[r].obj == t.reqs[r].obj || step == SelectReplica(r)
  {
    if OfRequest(step) {
      RequestFrame(s, step, t);
      if step.SelectReplica? {
        SelectedIs(s, step, t);
      } else if Entering(step) {
        EnteringKeepsObject(s, step, t);
      } else if Closing(step) {
        ClosingKeepsObject(s, step, t);
      } else {
        ForwardingKeepsObject(s, step, t);
      }
    } else {
      OutsideKeepsObject(s, step, t, r);
    }
  }

  lemma EnteringKeepsObject(s: State, step: Step, t: State)
    requires Entering(step) && !step.SelectReplica? && Next(s, step, t)
    ensures step.r < |s.reqs| == |t.reqs| && t.reqs[step.r].obj == s.reqs[step.r].obj
  {
  }

  lemma ClosingKeepsObject(s: State, step: Step, t: State)
    requires Closing(step) && Next(s, step, t)
    ensures step.r < |s.reqs| == |t.reqs| && t.reqs[step.r].obj == s.reqs[step.r].obj
  {
  }

  lemma ForwardingKeepsObject(s: State, step: Step, t: State)
    requires OfRequest(step) && !Entering(step) && !Closing(step) && Next(s, step, t)
    ensures Actor(step) < |s.reqs| == |t.reqs| && t.reqs[Actor(step)].obj == s.reqs[Actor(step)].obj
  {
  }

  lemma OutsideKeepsObject(s: State, step: Step, t: State, r: nat)
    requires !OfRequest(step) && Next(s, step, t) && r < |t.reqs| && t.reqs[r].obj.Some?
    ensures r < |s.reqs| && t.reqs[r].obj == s.reqs[r].obj
  {
  }

  /** A request's object was chosen from the table that was current then. */
  lemma {:induction false} ObjectWasSelected(states: seq<State>, steps: seq<Step>, j: nat, r: nat)
    requires IsRun(states, steps) && j <= |steps| && r < |states[j].reqs| && states[j].reqs[r].obj.Some?
    ensures exists i :: 0 <= i < j && SelectedAt(states, steps, i, r, states[j].reqs[r].obj.value)
  {
    if j > 0 {
      var s, step, t := states[j - 1], steps[j - 1], states[j];
      ObjectStep(s, step, t, r);
      if step == SelectReplica(r) {
        RunInv(states, steps, j - 1);
        SelectedHere(states, steps, j - 1, r);
      } else {
        ObjectWasSelected(states, steps, j - 1, r);
        var i :| 0 <= i < j - 1 && SelectedAt(states, steps, i, r, states[j - 1].reqs[r].obj.value);
        assert SelectedAt(states, steps, i, r, states[j].reqs[r].obj.value);
      }
    }
  }

  lemma {:induction false} SelectedHere(states: seq<State>, steps: seq<Step>, l: nat, r: nat)
    requires l < |steps| < |states| && Next(states[l], steps[l], states[l + 1]) && steps[l] == SelectReplica(r)
    requires ShapeInv(states[l]) && r < |states[l + 1].reqs| && states[l + 1].reqs[r].obj.Some?
    ensures SelectedAt(states, steps, l, r, states[l + 1].reqs[r].obj.value)
  {
    var s, t := states[l], states[l + 1];
    SelectedIs(s, steps[l], t);
    assert ReqOk(s.heap, s.reqs[r]);
    var route := Select(Views(s), s.reqs[r].model, s.reqs[r].zone);
    assert route.To? && t.reqs[r].obj == Some(s.table[route.i]);
  }

  /** Residency holds whatever happens to the table meanwhile: the object a
      request is forwarded to was selected from the table of its time, is live,
      serves the model and lies in the required zone; and the metering record
      carries that model and that zone. */
  lemma ResidencyHolds(states: seq<State>, steps: seq<Step>, j: nat, r: nat)
    requires IsRun(states, steps) && j <= |steps| && r < |states[j].reqs|
    ensures
      var s := states[j];
      var q := s.reqs[r];
      && (q.phase.InFlight() || q.record.Some? ==> q.obj.Some?)
      && (q.obj.Some? ==>
            && q.obj.value < |s.heap|
            && s.heap[q.obj.value].live && q.model in s.heap[q.obj.value].models
            && (q.zone.Some? ==> s.heap[q.obj.value].zone == q.zone)
            && exists i :: 0 <= i < j && SelectedAt(states, steps, i, r, q.obj.value))
      && (q.record.Some? ==>
            && q.record.value.model == q.model && q.record.value.requestId == q.id
            && (q.zone.Some? ==> q.record.value.zone == q.zone))
  {
    RunInv(states, steps, j);
    assert ReqOk(states[j].heap, states[j].reqs[r]);
    if states[j].reqs[r].obj.Some? {
      ObjectWasSelected(states, steps, j, r);
    }
  }
}
