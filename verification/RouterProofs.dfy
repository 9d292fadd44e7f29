/** What every step of the router protocol keeps. */
module RouterProofs {
  import opened Wrappers
  import opened Folds
  import opened Routing
  import opened RouterMetrics
  import opened RouterProtocol

  // ---------------------------------------------------------------------
  // Flags and routing
  // ---------------------------------------------------------------------

  /** A request's phase says what it holds, and its object is one it may use. */
  predicate ReqOk(heap: seq<Spec>, q: Req) {
    && (q.phase.Arrived? || q.phase.Selected? || q.phase.Finished? ==> !q.permit && !q.guard)
    && (q.phase.Arrived? ==> q.obj.None?)
    && (q.phase.Admitted? ==> q.permit && !q.guard)
    && (q.phase.InFlight() ==> q.permit && q.guard)
    && (q.permit || q.guard || q.phase.Selected? ==> q.obj.Some?)
    && (q.obj.Some? ==> q.obj.value < |heap| && Placeable(heap[q.obj.value], q.model, q.zone))
    && (q.record.Some? ==>
          && q.obj.Some? && (q.phase.Leaving? || q.phase.Finished?)
          && q.record.value.requestId == q.id && q.record.value.model == q.model
          && q.record.value.replicaId == heap[q.obj.value].id && q.record.value.zone == heap[q.obj.value].zone)
  }

  predicate ShapeInv(s: State) {
    && TableOk(s)
    && (forall o :: 0 <= o < |s.heap| ==> s.heap[o].capacity >= 1)
    && (forall r :: 0 <= r < |s.reqs| ==> ReqOk(s.heap, s.reqs[r]))
  }

  /** The step of one request. */
  predicate OfRequest(step: Step) {
    !step.Arrive? && !step.NatsCancel? && !step.Poll?
  }

  function Actor(step: Step): nat
    requires OfRequest(step)
  {
    step.r
  }

  /** A request step changes one request, never its identity, and no object's description. */
  predicate FramedBy(s: State, r: nat, t: State) {
    && r < |s.reqs| == |t.reqs| && t.reqs == s.reqs[r := t.reqs[r]]
    && t.heap == s.heap && t.table == s.table && t.cancelled == s.cancelled && |t.free| == |s.free|
    && t.reqs[r].id == s.reqs[r].id && t.reqs[r].model == s.reqs[r].model && t.reqs[r].zone == s.reqs[r].zone
  }

  /** The steps up to the connection, and those that hand back what a request holds. */
  predicate Entering(step: Step) {
    step.Refuse? || step.SelectReplica? || step.Admit? || step.Register?
  }

  predicate Closing(step: Step) {
    step.Count? || step.Observe? || step.Disconnect? || step.DropPermit? || step.DropGuard? || step.Return?
  }

  lemma SelectFrame(s: State, step: Step, t: State)
    requires step.SelectReplica? && Next(s, step, t)
    ensures FramedBy(s, step.r, t)
  {
    match Select(Views(s), s.reqs[step.r].model, s.reqs[step.r].zone)
    case To(_) =>
    case NoReplica(_) =>
    case ResidencyUnsatisfiable(_, _) =>
  }

  lemma EnteringFrame(s: State, step: Step, t: State)
    requires Entering(step) && !step.SelectReplica? && Next(s, step, t)
    ensures FramedBy(s, step.r, t)
  {
  }

  lemma ClosingFrame(s: State, step: Step, t: State)
    requires Closing(step) && Next(s, step, t)
    ensures FramedBy(s, step.r, t)
  {
  }

  lemma ForwardingFrame(s: State, step: Step, t: State)
    requires OfRequest(step) && !Entering(step) && !Closing(step) && Next(s, step, t)
    ensures FramedBy(s, Actor(step), t)
  {
  }

  lemma RequestFrame(s: State, step: Step, t: State)
    requires OfRequest(step) && Next(s, step, t)
    ensures FramedBy(s, Actor(step), t)
  {
    if step.SelectReplica? {
      SelectFrame(s, step, t);
    } else if Entering(step) {
      EnteringFrame(s, step, t);
    } else if Closing(step) {
      ClosingFrame(s, step, t);
    } else {
      ForwardingFrame(s, step, t);
    }
  }

  /** What a selection does to its request. */
  lemma SelectedIs(s: State, step: Step, t: State)
    requires step.SelectReplica? && Next(s, step, t)
    ensures step.r < |s.reqs| == |t.reqs| && t.heap == s.heap && TableOk(s) && s.reqs[step.r].phase.Arrived?
    ensures var q := s.reqs[step.r];
            var route := Select(Views(s), q.model, q.zone);
            t.reqs[step.r] == if route.To? then q.(phase := Selected, obj := Some(s.table[route.i]))
                else q.(phase := Finished)
  {
  }

  lemma SelectedPlaceable(s: State, model: string, zone: Option<string>)
    requires TableOk(s)
    ensures var route := Select(Views(s), model, zone);
            route.To? ==> Placeable(s.heap[s.table[route.i]], model, zone)
  {
    var route := Select(Views(s), model, zone);
    assert route.To? ==> Views(s)[route.i].spec == s.heap[s.table[route.i]];
  }

  lemma SelectReqOk(s: State, step: Step, t: State)
    requires step.SelectReplica? && Next(s, step, t) && ShapeInv(s)
    ensures step.r < |t.reqs| && ReqOk(t.heap, t.reqs[step.r])
  {
    SelectedIs(s, step, t);
    var q := s.reqs[step.r];
    assert ReqOk(s.heap, q);
    SelectedPlaceable(s, q.model, q.zone);
    var route := Select(Views(s), q.model, q.zone);
    assert route.To? ==> s.table[route.i] < |s.heap|;
    ChosenOk(s.heap, q, t.reqs[step.r]);
  }

  lemma ChosenOk(heap: seq<Spec>, q: Req, p: Req)
    requires ReqOk(heap, q) && q.phase.Arrived?
    requires p == q.(phase := Finished) ||
             (p == q.(phase := Selected, obj := p.obj) && p.obj.Some? && p.obj.value < |heap| &&
              Placeable(heap[p.obj.value], p.model, p.zone))
    ensures ReqOk(heap, p)
  {
  }

  lemma HoldingReqOk(s: State, step: Step, t: State)
    requires step.Admit? || step.Register? || step.DropPermit? || step.DropGuard? || step.Observe?
    requires Next(s, step, t) && ShapeInv(s)
    ensures t.heap == s.heap && step.r < |t.reqs| && ReqOk(t.heap, t.reqs[step.r])
  {
    assert ReqOk(s.heap, s.reqs[step.r]);
  }

  lemma MovingReqOk(s: State, step: Step, t: State)
    requires OfRequest(step) && !step.SelectReplica? && !step.Admit? && !step.Register?
    requires !step.DropPermit? && !step.DropGuard? && !step.Observe?
    requires Next(s, step, t) && ShapeInv(s)
    ensures t.heap == s.heap && Actor(step) < |t.reqs| && ReqOk(t.heap, t.reqs[Actor(step)])
  {
    assert ReqOk(s.heap, s.reqs[Actor(step)]);
  }

  lemma PollKeepsReqOk(heap: seq<Spec>, more: seq<Spec>, q: Req)
    requires ReqOk(heap, q)
    ensures ReqOk(heap + more, q)
  {
  }

  lemma NextKeepsShape(s: State, step: Step, t: State)
    requires Next(s, step, t) && ShapeInv(s)
    ensures ShapeInv(t)
  {
    if OfRequest(step) {
      RequestFrame(s, step, t);
      if step.SelectReplica? {
        SelectReqOk(s, step, t);
      } else if step.Admit? || step.Register? || step.DropPermit? || step.DropGuard? || step.Observe? {
        HoldingReqOk(s, step, t);
      } else {
        MovingReqOk(s, step, t);
      }
    } else if step.Poll? && t != s {
      var specs := RunnerSpecs(step.fetched.value);
      forall r | 0 <= r < |t.reqs| ensures ReqOk(t.heap, t.reqs[r]) {
        PollKeepsReqOk(s.heap, specs, s.reqs[r]);
      }
    }
  }

  // ---------------------------------------------------------------------
  // Permits
  // ---------------------------------------------------------------------

  ghost function Holds(o: nat): Req -> bool {
    (q: Req) => q.permit && q.obj == Some(o)
  }

  /** For every object ever built: free permits plus held permits is its capacity. */
  ghost predicate PermitInv(s: State) {
    |s.free| == |s.heap| && forall o :: 0 <= o < |s.heap| ==>
        s.free[o] + CountIf(s.reqs, Holds(o)) == s.heap[o].capacity
  }

  /** A permit moves between the semaphore and the request, or stays. */
  lemma RequestBalance(s: State, step: Step, t: State, o: nat)
    requires OfRequest(step) && Next(s, step, t) && ShapeInv(s) && o < |s.heap|
    ensures Balanced(s, t, Actor(step), o)
  {
    if Entering(step) {
      EnteringBalance(s, step, t, o);
    } else {
      LeavingBalance(s, step, t, o);
    }
  }

  /** Request `r` and object `o` together keep their permits. */
  ghost predicate Balanced(s: State, t: State, r: nat, o: nat) {
    && r < |s.reqs| == |t.reqs| && o < |t.free| == |s.free|
    && t.free[o] + Bit(Holds(o)(t.reqs[r])) == s.free[o] + Bit(Holds(o)(s.reqs[r]))
  }

  lemma EnteringBalance(s: State, step: Step, t: State, o: nat)
    requires Entering(step) && Next(s, step, t) && ShapeInv(s) && o < |s.heap|
    ensures Balanced(s, t, Actor(step), o)
  {
    assert ReqOk(s.heap, s.reqs[Actor(step)]);
  }

  lemma LeavingBalance(s: State, step: Step, t: State, o: nat)
    requires OfRequest(step) && !Entering(step) && Next(s, step, t) && ShapeInv(s) && o < |s.heap|
    ensures Balanced(s, t, Actor(step), o)
  {
    assert ReqOk(s.heap, s.reqs[Actor(step)]);
  }

  lemma RequestKeepsPermits(s: State, step: Step, t: State)
    requires OfRequest(step) && Next(s, step, t) && ShapeInv(s) && PermitInv(s)
    ensures PermitInv(t)
  {
    RequestFrame(s, step, t);
    var r := Actor(step);
    forall o | 0 <= o < |t.heap| ensures t.free[o] + CountIf(t.reqs, Holds(o)) == t.heap[o].capacity {
      RequestBalance(s, step, t, o);
      CountUpdate(s.reqs, r, t.reqs[r], Holds(o));
    }
  }

  lemma PollKeepsPermits(s: State, step: Step, t: State)
    requires step.Poll? && Next(s, step, t) && ShapeInv(s) && PermitInv(s)
    ensures PermitInv(t)
  {
    forall o | |s.heap| <= o < |t.heap| ensures CountIf(t.reqs, Holds(o)) == 0 {
      assert forall r :: 0 <= r < |s.reqs| ==> ReqOk(s.heap, s.reqs[r]);
      CountNone(t.reqs, Holds(o));
    }
  }

  lemma NextKeepsPermits(s: State, step: Step, t: State)
    requires Next(s, step, t) && ShapeInv(s) && PermitInv(s)
    ensures PermitInv(t)
  {
    if OfRequest(step) {
      RequestKeepsPermits(s, step, t);
    } else if step.Poll? {
      PollKeepsPermits(s, step, t);
    } else if step.Arrive? {
      forall o | 0 <= o < |t.heap| ensures CountIf(t.reqs, Holds(o)) == CountIf(s.reqs, Holds(o)) {
        CountAppend(s.reqs, t.reqs[|s.reqs|], Holds(o));
      }
    }
  }

  // ---------------------------------------------------------------------
  // The registry
  // ---------------------------------------------------------------------

  predicate Twin(reqs: seq<Req>, r: nat)
    requires r < |reqs|
  {
    exists v :: 0 <= v < |reqs| && v != r && reqs[v].id == reqs[r].id
  }

  /** A registered id stands for a request that still holds its guard; a guard
      is out of the registry only if another request used the same id. */
  ghost predicate RegistryInv(s: State) {
    && (forall k :: k in s.registry ==>
          s.registry[k] < |s.reqs| && s.reqs[s.registry[k]].guard && s.reqs[s.registry[k]].id == k)
    && (forall r :: 0 <= r < |s.reqs| && s.reqs[r].guard ==>
          (s.reqs[r].id in s.registry && s.registry[s.reqs[r].id] == r) || Twin(s.reqs, r))
  }

  lemma TwinKept(reqs: seq<Req>, more: seq<Req>, r: nat)
    requires r < |reqs| <= |more| && Twin(reqs, r)
    requires forall v :: 0 <= v < |reqs| ==> more[v].id == reqs[v].id
    ensures Twin(more, r)
  {
    var v :| 0 <= v < |reqs| && v != r && reqs[v].id == reqs[r].id;
    assert more[v].id == more[r].id;
  }

  predicate TouchesRegistry(step: Step) {
    step.Register? || step.DropGuard?
  }

  lemma GuardFrame(s: State, step: Step, t: State)
    requires OfRequest(step) && !TouchesRegistry(step) && Next(s, step, t)
    ensures t.registry == s.registry
    ensures Actor(step) < |s.reqs| == |t.reqs| && t.reqs[Actor(step)].guard == s.reqs[Actor(step)].guard
  {
  }

  /** Ids, guards and the registry as they were. */
  ghost predicate SameGuards(s: State, t: State) {
    && t.registry == s.registry && |t.reqs| >= |s.reqs|
    && (forall r :: 0 <= r < |s.reqs| ==> t.reqs[r].id == s.reqs[r].id && t.reqs[r].guard == s.reqs[r].guard)
    && (forall r :: |s.reqs| <= r < |t.reqs| ==> !t.reqs[r].guard)
  }

  lemma SameGuardsKeepRegistry(s: State, t: State)
    requires SameGuards(s, t) && RegistryInv(s)
    ensures RegistryInv(t)
  {
    forall r | 0 <= r < |s.reqs| && Twin(s.reqs, r) ensures Twin(t.reqs, r) {
      TwinKept(s.reqs, t.reqs, r);
    }
  }

  /** Registering or dropping a guard concerns one id; requests sharing that id
      are twins of the actor. */
  lemma TouchKeepsRegistry(s: State, step: Step, t: State)
    requires TouchesRegistry(step) && Next(s, step, t) && RegistryInv(s)
    ensures RegistryInv(t)
  {
    var a := step.r;
    forall r | 0 <= r < |t.reqs| && t.reqs[r].guard
      ensures (t.reqs[r].id in t.registry && t.registry[t.reqs[r].id] == r) || Twin(t.reqs, r)
    {
      if r != a {
        if t.reqs[r].id == t.reqs[a].id {
          assert Twin(t.reqs, r);
        } else if Twin(s.reqs, r) {
          TwinKept(s.reqs, t.reqs, r);
        }
      }
    }
  }

  lemma NextKeepsRegistry(s: State, step: Step, t: State)
    requires Next(s, step, t) && RegistryInv(s)
    ensures RegistryInv(t)
  {
    if TouchesRegistry(step) {
      TouchKeepsRegistry(s, step, t);
    } else {
      GuardsUntouched(s, step, t);
      SameGuardsKeepRegistry(s, t);
    }
  }

  lemma GuardsUntouched(s: State, step: Step, t: State)
    requires !TouchesRegistry(step) && Next(s, step, t)
    ensures SameGuards(s, t)
  {
    if OfRequest(step) {
      RequestFrame(s, step, t);
      GuardFrame(s, step, t);
      OneRequestMoved(s, Actor(step), t);
    } else {
      OutsideKeepsGuards(s, step, t);
    }
  }

  lemma OneRequestMoved(s: State, r: nat, t: State)
    requires FramedBy(s, r, t) && t.registry == s.registry && t.reqs[r].guard == s.reqs[r].guard
    ensures SameGuards(s, t)
  {
  }

  lemma OutsideKeepsGuards(s: State, step: Step, t: State)
    requires !OfRequest(step) && Next(s, step, t)
    ensures SameGuards(s, t)
  {
  }

  // ---------------------------------------------------------------------
  // The ledger
  // ---------------------------------------------------------------------

  ghost function CountedAs(st: MeterStatus): Req -> bool {
    (q: Req) => q.phase == Counted(st)
  }

  ghost function Broke(): Req -> bool {
    (q: Req) => q.broke
  }

  ghost function HasRecord(): Req -> bool {
    (q: Req) => q.record.Some?
  }

  /** How a meter books a disposition. */
  ghost function Booked(st: MeterStatus): (string, ModelMeter) -> int {
    match st
    case Completed => (k: string, m: ModelMeter) => m.completed + m.unmetered
    case Cancelled => (k: string, m: ModelMeter) => m.cancelled as int
    case UpstreamError => (k: string, m: ModelMeter) => m.upstreamError as int
  }

  ghost function Observed(): (string, ModelMeter) -> int {
    (k: string, m: ModelMeter) => m.latencyCount as int
  }

  function Total(c: Counters, st: MeterStatus): nat {
    match st
    case Completed => c.completed
    case Cancelled => c.cancelled
    case UpstreamError => c.upstreamError
  }

  /** Mid-body breaks are booked globally as upstream errors and nowhere per model. */
  ghost function Unbooked(reqs: seq<Req>, st: MeterStatus): nat {
    if st.UpstreamError? then CountIf(reqs, Broke()) else 0
  }

  /** A global counter is the per-model sum, plus the requests between the
      counter and the record, plus the mid-body breaks. */
  ghost predicate LedgerFor(s: State, st: MeterStatus) {
    Total(s.counters, st) ==
        SumMap(s.counters.models, Booked(st)) + CountIf(s.reqs, CountedAs(st)) + Unbooked(s.reqs, st)
  }

  ghost predicate LedgerInv(s: State) {
    && LedgerFor(s, Completed) && LedgerFor(s, Cancelled) && LedgerFor(s, UpstreamError)
    && s.counters.requests == |s.reqs|
    && SumMap(s.counters.models, Observed()) == CountIf(s.reqs, HasRecord())
  }

  /** Observing a record books its own disposition once and no other. */
  lemma MeterBooks(models: Meters, model: string, o: Observation, st: MeterStatus)
    ensures SumMap(MetersAfter(BOUNDS, models, model, o), Observed()) == SumMap(models, Observed()) + 1
    ensures SumMap(MetersAfter(BOUNDS, models, model, o), Booked(st)) ==
            SumMap(models, Booked(st)) +
            (match st
             case Completed => Bit(o.status.LogCompleted?) + Bit(o.status.LogUnmetered?)
             case Cancelled => Bit(o.status.LogCancelled?)
             case UpstreamError => Bit(o.status.LogUpstreamError?))
  {
    var m := if model in models then models[model] else EmptyMeter(|BOUNDS|);
    var m' := MeterAfter(BOUNDS, m, o);
    SumUpdate(models, Observed(), model, m');
    SumUpdate(models, Booked(st), model, m');
  }

  lemma RequestCounts(s: State, t: State, r: nat, st: MeterStatus)
    requires r < |s.reqs| && |t.reqs| == |s.reqs| && t.reqs == s.reqs[r := t.reqs[r]]
    ensures CountIf(t.reqs, CountedAs(st)) + Bit(s.reqs[r].phase == Counted(st)) ==
            CountIf(s.reqs, CountedAs(st)) + Bit(t.reqs[r].phase == Counted(st))
    ensures CountIf(t.reqs, Broke()) + Bit(s.reqs[r].broke) == CountIf(s.reqs, Broke()) + Bit(t.reqs[r].broke)
    ensures CountIf(t.reqs, HasRecord()) + Bit(s.reqs[r].record.Some?) ==
            CountIf(s.reqs, HasRecord()) + Bit(t.reqs[r].record.Some?)
  {
    CountUpdate(s.reqs, r, t.reqs[r], CountedAs(st));
    CountUpdate(s.reqs, r, t.reqs[r], Broke());
    CountUpdate(s.reqs, r, t.reqs[r], HasRecord());
  }

  predicate Books(step: Step) {
    step.Count? || step.Observe? || step.StreamBreaks?
  }

  /** Neither the request's bookkeeping nor a counter of the ledger changes. */
  predicate BooksKept(s: State, r: nat, t: State) {
    && r < |s.reqs| == |t.reqs|
    && !s.reqs[r].phase.Counted? && !t.reqs[r].phase.Counted?
    && t.reqs[r].broke == s.reqs[r].broke && t.reqs[r].record == s.reqs[r].record
    && t.counters.models == s.counters.models && t.counters.requests == s.counters.requests
    && t.counters.completed == s.counters.completed && t.counters.cancelled == s.counters.cancelled
    && t.counters.upstreamError == s.counters.upstreamError
  }

  lemma SelectBooks(s: State, step: Step, t: State)
    requires step.SelectReplica? && Next(s, step, t)
    ensures BooksKept(s, step.r, t)
  {
    var route := Select(Views(s), s.reqs[step.r].model, s.reqs[step.r].zone);
    match route
    case To(_) =>
    case NoReplica(_) =>
    case ResidencyUnsatisfiable(_, _) =>
  }

  lemma EnteringBooks(s: State, step: Step, t: State)
    requires Entering(step) && !step.SelectReplica? && Next(s, step, t)
    ensures BooksKept(s, step.r, t)
  {
  }

  lemma QuietStep(s: State, step: Step, t: State)
    requires OfRequest(step) && !Books(step) && Next(s, step, t)
    ensures BooksKept(s, Actor(step), t)
  {
    if step.SelectReplica? {
      SelectBooks(s, step, t);
    } else if Entering(step) {
      EnteringBooks(s, step, t);
    }
  }

  lemma CountStep(s: State, step: Step, t: State, st: MeterStatus)
    requires step.Count? && Next(s, step, t) && LedgerFor(s, st)
    ensures LedgerFor(t, st)
  {
    RequestCounts(s, t, step.r, st);
  }

  lemma ObserveStep(s: State, step: Step, t: State, st: MeterStatus)
    requires step.Observe? && Next(s, step, t) && ShapeInv(s) && LedgerFor(s, st)
    ensures LedgerFor(t, st)
    ensures SumMap(t.counters.models, Observed()) == SumMap(s.counters.models, Observed()) + 1
  {
    RequestCounts(s, t, step.r, st);
    var rec := RecordOf(s, step.r, step.started, step.now);
    MeterBooks(s.counters.models, rec.model, ObservationOf(rec), st);
  }

  /** A stream can break only once: while it streams it has not broken yet. */
  predicate FreshStreams(s: State) {
    forall r :: 0 <= r < |s.reqs| && s.reqs[r].broke ==> !UpToStreaming(s.reqs[r].phase)
  }

  predicate UpToStreaming(p: Phase) {
    p.Arrived? || p.Selected? || p.Admitted? || p.Connecting? || p.Streaming?
  }

  lemma NextKeepsFresh(s: State, step: Step, t: State)
    requires Next(s, step, t) && FreshStreams(s)
    ensures FreshStreams(t)
  {
    if OfRequest(step) {
      RequestFrame(s, step, t);
      BrokenStaysPast(s, step, t);
    }
  }

  /** A broken stream never streams again. */
  lemma BrokenStaysPast(s: State, step: Step, t: State)
    requires OfRequest(step) && Next(s, step, t) && FreshStreams(s)
    ensures Actor(step) < |s.reqs| == |t.reqs|
    ensures t.reqs[Actor(step)].broke ==> !UpToStreaming(t.reqs[Actor(step)].phase)
  {
    if step.SelectReplica? {
      SelectedIs(s, step, t);
    } else if Entering(step) {
      EnteringFresh(s, step, t);
    }
  }

  lemma EnteringFresh(s: State, step: Step, t: State)
    requires Entering(step) && !step.SelectReplica? && Next(s, step, t) && FreshStreams(s)
    ensures step.r < |s.reqs| == |t.reqs|
    ensures t.reqs[step.r].broke ==> !UpToStreaming(t.reqs[step.r].phase)
  {
  }

  lemma BreakStep(s: State, step: Step, t: State, st: MeterStatus)
    requires step.StreamBreaks? && Next(s, step, t) && FreshStreams(s) && LedgerFor(s, st)
    ensures LedgerFor(t, st)
  {
    RequestCounts(s, t, step.r, st);
  }

  lemma RequestKeepsLedgerFor(s: State, step: Step, t: State, st: MeterStatus)
    requires OfRequest(step) && Next(s, step, t) && ShapeInv(s) && FreshStreams(s) && LedgerFor(s, st)
    ensures LedgerFor(t, st)
  {
    if step.Count? {
      CountStep(s, step, t, st);
    } else if step.Observe? {
      ObserveStep(s, step, t, st);
    } else if step.StreamBreaks? {
      BreakStep(s, step, t, st);
    } else {
      RequestFrame(s, step, t);
      QuietStep(s, step, t);
      RequestCounts(s, t, Actor(step), st);
    }
  }

  lemma RequestKeepsRecords(s: State, step: Step, t: State)
    requires OfRequest(step) && Next(s, step, t) && ShapeInv(s) && LedgerInv(s)
    ensures t.counters.requests == |t.reqs|
    ensures SumMap(t.counters.models, Observed()) == CountIf(t.reqs, HasRecord())
  {
    RequestFrame(s, step, t);
    RequestCounts(s, t, Actor(step), Completed);
    if step.Observe? {
      assert ReqOk(s.heap, s.reqs[step.r]);
      ObserveStep(s, step, t, Completed);
      ObserveRecords(s, step, t);
    } else {
      RecordsKept(s, step, t);
    }
  }

  lemma ObserveRecords(s: State, step: Step, t: State)
    requires step.Observe? && Next(s, step, t)
    ensures step.r < |t.reqs| && t.reqs[step.r].record.Some? && t.counters.requests == s.counters.requests
  {
  }

  lemma RecordsKept(s: State, step: Step, t: State)
    requires OfRequest(step) && !step.Observe? && Next(s, step, t)
    ensures Actor(step) < |s.reqs| == |t.reqs| && t.reqs[Actor(step)].record == s.reqs[Actor(step)].record
    ensures t.counters.requests == s.counters.requests && t.counters.models == s.counters.models
  {
    if !Books(step) {
      QuietStep(s, step, t);
    }
  }

  lemma NextKeepsLedger(s: State, step: Step, t: State)
    requires Next(s, step, t) && ShapeInv(s) && FreshStreams(s) && LedgerInv(s)
    ensures LedgerInv(t)
  {
    if OfRequest(step) {
      RequestKeepsLedgerFor(s, step, t, Completed);
      RequestKeepsLedgerFor(s, step, t, Cancelled);
      RequestKeepsLedgerFor(s, step, t, UpstreamError);
      RequestKeepsRecords(s, step, t);
    } else if step.Arrive? {
      ArriveCounts(s, t, Completed);
      ArriveCounts(s, t, Cancelled);
      ArriveCounts(s, t, UpstreamError);
    }
  }

  lemma ArriveCounts(s: State, t: State, st: MeterStatus)
    requires |t.reqs| == |s.reqs| + 1 && t.reqs == s.reqs + [t.reqs[|s.reqs|]]
    requires var q := t.reqs[|s.reqs|]; q.phase.Arrived? && !q.broke && q.record.None?
    ensures CountIf(t.reqs, CountedAs(st)) == CountIf(s.reqs, CountedAs(st))
    ensures CountIf(t.reqs, Broke()) == CountIf(s.reqs, Broke())
    ensures CountIf(t.reqs, HasRecord()) == CountIf(s.reqs, HasRecord())
  {
    var q := t.reqs[|s.reqs|];
    CountAppend(s.reqs, q, CountedAs(st));
    CountAppend(s.reqs, q, Broke());
    CountAppend(s.reqs, q, HasRecord());
  }

  // ---------------------------------------------------------------------
  // Together
  // ---------------------------------------------------------------------

  ghost predicate Inv(s: State) {
    && ShapeInv(s) && PermitInv(s) && RegistryInv(s) && FreshStreams(s) && LedgerInv(s)
  }

  lemma InitInv(s: State)
    requires Init(s)
    ensures Inv(s)
  {
    var configs :| InitFrom(s, configs);
  }

  lemma NextKeepsInv(s: State, step: Step, t: State)
    requires Next(s, step, t) && Inv(s)
    ensures Inv(t)
  {
    NextKeepsShape(s, step, t);
    NextKeepsPermits(s, step, t);
    NextKeepsRegistry(s, step, t);
    NextKeepsFresh(s, step, t);
    NextKeepsLedger(s, step, t);
  }

  lemma {:induction false} RunInv(states: seq<State>, steps: seq<Step>, j: nat)
    requires IsRun(states, steps) && j <= |steps|
    ensures Inv(states[j])
  {
    if j == 0 {
      InitInv(states[0]);
    } else {
      RunInv(states, steps, j - 1);
      NextKeepsInv(states[j - 1], steps[j - 1], states[j]);
    }
  }
}
