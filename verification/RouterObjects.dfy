/** The router's objects do what the protocol's steps say: each method that changes the
    registry, a semaphore, the replica table or the meters is one or two steps. */
module RouterObjects {
  import opened Wrappers
  import opened Folds
  import opened Routing
  import opened RouterCancel
  import opened RouterMetrics
  import opened RouterStream
  import opened RouterProtocol
  import opened RouterProofs
  import opened RouterTheorems

  // ---------------------------------------------------------------------
  // The registry
  // ---------------------------------------------------------------------

  /** `tokens` are the tokens handed out so far, one per request that has registered. The
      registry maps an id to the token of the request the state maps it to. */
  ghost predicate TokensMatch(reg: CancellationRegistry, tokens: map<nat, Token>, s: State)
    reads reg, tokens.Values
  {
    && reg.inner.Keys == s.registry.Keys && s.cancelled <= tokens.Keys
    && (forall id :: id in s.registry ==> s.registry[id] in tokens && reg.inner[id] == tokens[s.registry[id]])
    && (forall a, b :: a in tokens && b in tokens && a != b ==> tokens[a] != tokens[b])
    && (forall r :: r in tokens ==> r < |s.reqs| && !s.reqs[r].phase.Admitted?)
    && (forall r :: r in tokens ==> (tokens[r].cancelled <==> r in s.cancelled))
  }

  /** `register` is the step `Register`. */
  method RegisterIsStep(reg: CancellationRegistry, id: string, ghost r: nat, ghost tokens: map<nat, Token>,
                        ghost s: State)
    returns (token: Token, ghost t: State)
    requires TokensMatch(reg, tokens, s) && At(s, r, Admitted) && s.reqs[r].id == id
    modifies reg
    ensures Next(s, Register(r), t) && TokensMatch(reg, tokens[r := token], t)
  {
    token := reg.Register(id);
    t := With(s.(registry := s.registry[id := r]), r, s.reqs[r].(phase := Connecting, guard := true));
  }

  /** Dropping the guard is the step `DropGuard`. */
  method DeregisterIsStep(reg: CancellationRegistry, id: string, ghost r: nat, ghost tokens: map<nat, Token>,
                          ghost s: State)
    returns (ghost t: State)
    requires TokensMatch(reg, tokens, s) && At(s, r, Leaving) && s.reqs[r].guard && s.reqs[r].id == id
    modifies reg
    ensures Next(s, DropGuard(r), t) && TokensMatch(reg, tokens, t)
  {
    reg.Deregister(id);
    t := With(s.(registry := s.registry - {id}), r, s.reqs[r].(guard := false));
  }

  /** A cancel message is the step `NatsCancel`; it says whether the id was registered. */
  method CancelIsStep(reg: CancellationRegistry, id: string, ghost tokens: map<nat, Token>, ghost s: State)
    returns (live: bool, ghost t: State)
    requires TokensMatch(reg, tokens, s)
    modifies reg.inner.Values
    ensures Next(s, NatsCancel(id), t) && TokensMatch(reg, tokens, t) && (live <==> id in s.registry)
  {
    live := reg.Cancel(id);
    t := if id in s.registry then s.(cancelled := s.cancelled + {s.registry[id]}) else s;
  }

  // ---------------------------------------------------------------------
  // The replica table and its semaphores
  // ---------------------------------------------------------------------

  ghost function SemsOf(objs: seq<Replica>): set<Semaphore> {
    set o | 0 <= o < |objs| :: objs[o].sem
  }

  /** `objs` are the replica objects ever built; the table lists the current ones. */
  ghost predicate ObjectsMatch(table: ReplicaTable, objs: seq<Replica>, s: State)
    reads table, SemsOf(objs)
  {
    && TableOk(s) && |objs| == |s.heap|
    && (forall o :: 0 <= o < |objs| ==> objs[o].spec == s.heap[o] && objs[o].sem.available == s.free[o])
    && (forall o, p :: 0 <= o < p < |objs| ==> objs[o].sem != objs[p].sem)
    && |table.replicas| == |s.table|
    && (forall i :: 0 <= i < |s.table| ==> table.replicas[i] == objs[s.table[i]])
  }

  /** The free permits after one is taken from `o`, if there is one. */
  function Taken(free: seq<nat>, o: nat): seq<nat>
    requires o < |free|
  {
    if free[o] > 0 then free[o := free[o] - 1] else free
  }

  /** The state's free permits after selection and admission. */
  function FreeAfter(s: State, route: Route): seq<nat>
    requires TableOk(s) && (route.To? ==> route.i < |s.table|)
  {
    if route.To? then Taken(s.free, s.table[route.i]) else s.free
  }

  method TakeSlot(table: ReplicaTable, model: string, zone: Option<string>, ghost objs: seq<Replica>, ghost s: State)
    returns (route: Route, admitted: bool)
    requires ObjectsMatch(table, objs, s)
    modifies table.Sems()
    ensures route == Select(Views(s), model, zone)
    ensures admitted <==> route.To? && s.free[s.table[route.i]] > 0
    ensures ObjectsMatch(table, objs, s.(free := FreeAfter(s, route)))
  {
    ghost var views := table.Views();
    assert views == Views(s);
    route, admitted := table.SelectAndAdmit(model, zone);
    SelectionUnique(views, model, zone, route, Select(views, model, zone));
    if route.To? {
      ghost var c := s.table[route.i];
      assert table.replicas[route.i] == objs[c] && views[route.i].free == s.free[c];
      forall o | 0 <= o < |objs| && o != c ensures objs[o].sem != objs[c].sem {
        assert o < c ==> objs[o].sem != objs[c].sem;
        assert c < o ==> objs[c].sem != objs[o].sem;
      }
    }
  }

  /** What `select` and `try_admit` lead to. */
  function SelectedState(s: State, r: nat): State
    requires At(s, r, Arrived) && TableOk(s)
  {
    match Select(Views(s), s.reqs[r].model, s.reqs[r].zone)
    case To(i) => With(s, r, s.reqs[r].(phase := Selected, obj := Some(s.table[i])))
    case NoReplica(m) => Goto(s.(counters := IncStarved(s.counters, m)), r, Finished)
    case ResidencyUnsatisfiable(_, _) => Goto(s, r, Finished)
  }

  function AdmittedState(s: State, r: nat): State
    requires At(s, r, Selected) && HasObject(s, r)
  {
    var o := s.reqs[r].obj.value;
    if s.free[o] > 0
    then With(s.(free := s.free[o := s.free[o] - 1]), r, s.reqs[r].(phase := Admitted, permit := true))
    else Goto(s.(counters := IncStarved(s.counters.(rejected := s.counters.rejected + 1), s.reqs[r].model)), r,
              Finished)
  }

  lemma {:induction false} SelectStep(s: State, r: nat)
    requires At(s, r, Arrived) && TableOk(s)
    ensures Next(s, SelectReplica(r), SelectedState(s, r))
    ensures var t, route := SelectedState(s, r), Select(Views(s), s.reqs[r].model, s.reqs[r].zone);
            && t.heap == s.heap && t.free == s.free && t.table == s.table && |t.reqs| == |s.reqs|
            && (route.To? ==> At(t, r, Selected) && t.reqs[r].obj == Some(s.table[route.i]))
    ensures !s.reqs[r].permit ==> !SelectedState(s, r).reqs[r].permit
  {
  }

  lemma {:induction false} AdmitStep(s: State, r: nat)
    requires At(s, r, Selected) && HasObject(s, r) && !s.reqs[r].permit
    ensures Next(s, Admit(r), AdmittedState(s, r))
    ensures var t, o := AdmittedState(s, r), s.reqs[r].obj.value;
            && t.heap == s.heap && t.table == s.table && t.free == Taken(s.free, o)
            && |t.reqs| == |s.reqs| && (t.reqs[r].permit <==> s.free[o] > 0)
  {
  }

  lemma {:induction false} SameObjects(table: ReplicaTable, objs: seq<Replica>, s: State, t: State)
    requires ObjectsMatch(table, objs, s) && t.heap == s.heap && t.free == s.free && t.table == s.table
    ensures ObjectsMatch(table, objs, t)
  {
  }

  /** `select` followed by `try_admit` is the step `SelectReplica` and, when a replica was
      found, the step `Admit`. */
  method SelectAndAdmitIsSteps(table: ReplicaTable, model: string, zone: Option<string>,
                               ghost r: nat, ghost objs: seq<Replica>, ghost s: State)
    returns (route: Route, admitted: bool, ghost t: State, ghost u: State)
    requires ObjectsMatch(table, objs, s) && At(s, r, Arrived) && !s.reqs[r].permit
    requires s.reqs[r].model == model && s.reqs[r].zone == zone
    modifies table.Sems()
    ensures Next(s, SelectReplica(r), t) && ObjectsMatch(table, objs, u)
    ensures if route.To? then Next(t, Admit(r), u) else u == t
    ensures r < |u.reqs| && (admitted <==> u.reqs[r].permit)
  {
    SelectStep(s, r);
    route, admitted := TakeSlot(table, model, zone, objs, s);
    t := SelectedState(s, r);
    u := t;
    if route.To? {
      AdmitStep(t, r);
      u := AdmittedState(t, r);
    }
    SameObjects(table, objs, s.(free := FreeAfter(s, route)), u);
  }

  /** Dropping a permit is the step `DropPermit`. */
  method ReleaseIsStep(table: ReplicaTable, sem: Semaphore, ghost r: nat, ghost objs: seq<Replica>, ghost s: State)
    returns (ghost t: State)
    requires ObjectsMatch(table, objs, s) && At(s, r, Leaving) && s.reqs[r].permit && HasObject(s, r)
    requires sem == objs[s.reqs[r].obj.value].sem
    modifies sem
    ensures Next(s, DropPermit(r), t) && ObjectsMatch(table, objs, t)
  {
    ghost var o := s.reqs[r].obj.value;
    sem.Release();
    t := With(s.(free := s.free[o := s.free[o] + 1]), r, s.reqs[r].(permit := false));
    forall p | 0 <= p < |objs| ensures objs[p].sem.available == t.free[p] {
      assert p < o ==> objs[p].sem != objs[o].sem;
      assert o < p ==> objs[o].sem != objs[p].sem;
    }
  }

  /** The snapshot of a reachable state counts exactly the permits held on each listed object. */
  method SnapshotCountsHeld(table: ReplicaTable, ghost objs: seq<Replica>, ghost s: State)
    returns (stats: seq<ReplicaStat>)
    requires ObjectsMatch(table, objs, s) && PermitInv(s)
    ensures |stats| == |s.table|
    ensures forall i :: 0 <= i < |stats| ==>
              stats[i].spec == s.heap[s.table[i]] && stats[i].inFlight == CountIf(s.reqs, Holds(s.table[i]))
  {
    stats := table.Snapshot();
    forall i | 0 <= i < |stats| ensures stats[i].inFlight == CountIf(s.reqs, Holds(s.table[i])) {
      var o := s.table[i];
      assert s.free[o] + CountIf(s.reqs, Holds(o)) == s.heap[o].capacity;
    }
  }

  /** A configured table is an initial state. */
  method FromConfigIsInit(configs: seq<ReplicaConfig>) returns (table: ReplicaTable, ghost s: State)
    ensures fresh(table) && Init(s) && ObjectsMatch(table, table.replicas, s)
  {
    table := new ReplicaTable.FromConfig(configs);
    s := State(Specs(configs), Capacities(Specs(configs)), Range(0, |configs|), [], map[], {},
               Counters(0, 0, 0, 0, 0, map[], map[]));
    assert InitFrom(s, configs);
  }

  /** One poll is the step `Poll`: the old objects stay with whoever holds them. */
  method RefreshIsStep(table: ReplicaTable, fetched: Option<seq<ServingRunner>>, ghost objs: seq<Replica>,
                       ghost s: State)
    returns (ghost all: seq<Replica>, ghost t: State)
    requires ObjectsMatch(table, objs, s)
    modifies table
    ensures Next(s, Poll(fetched), t) && objs <= all && ObjectsMatch(table, all, t)
  {
    table.Refresh(fetched);
    if fetched.None? || fetched.value == [] {
      t, all := s, objs;
    } else {
      t, all := Grown(s, RunnerSpecs(fetched.value)), objs + table.replicas;
      forall o, i | 0 <= o < |objs| && 0 <= i < |table.replicas| ensures objs[o].sem != table.replicas[i].sem {
        assert table.replicas[i].sem in table.Sems();
      }
      GrownMatches(table, objs, s, RunnerSpecs(fetched.value));
    }
  }

  function Grown(s: State, specs: seq<Spec>): State {
    s.(heap := s.heap + specs, free := s.free + Capacities(specs), table := Range(|s.heap|, |specs|))
  }

  lemma {:induction false} GrownMatches(table: ReplicaTable, objs: seq<Replica>, s: State, specs: seq<Spec>)
    requires |objs| == |s.heap| == |s.free| && |table.replicas| == |specs| && table.Separate()
    requires forall o :: 0 <= o < |objs| ==> objs[o].spec == s.heap[o] && objs[o].sem.available == s.free[o]
    requires forall o, p :: 0 <= o < p < |objs| ==> objs[o].sem != objs[p].sem
    requires forall i :: 0 <= i < |specs| ==>
               table.replicas[i].spec == specs[i] && table.replicas[i].sem.available == specs[i].capacity
    requires forall o, i :: 0 <= o < |objs| && 0 <= i < |specs| ==> objs[o].sem != table.replicas[i].sem
    ensures ObjectsMatch(table, objs + table.replicas, Grown(s, specs))
  {
    var all, t, n := objs + table.replicas, Grown(s, specs), |objs|;
    forall o | 0 <= o < |all| ensures all[o].spec == t.heap[o] && all[o].sem.available == t.free[o] {
      assert o >= n ==> all[o] == table.replicas[o - n];
    }
    AllSeparate(objs, table.replicas);
  }

  lemma {:induction false} AllSeparate(old_: seq<Replica>, new_: seq<Replica>)
    requires forall o, p :: 0 <= o < p < |old_| ==> old_[o].sem != old_[p].sem
    requires forall o, p :: 0 <= o < p < |new_| ==> new_[o].sem != new_[p].sem
    requires forall o, i :: 0 <= o < |old_| && 0 <= i < |new_| ==> old_[o].sem != new_[i].sem
    ensures forall o, p :: 0 <= o < p < |old_ + new_| ==> (old_ + new_)[o].sem != (old_ + new_)[p].sem
  {
    var all, n := old_ + new_, |old_|;
    forall o, p | 0 <= o < p < |all| ensures all[o].sem != all[p].sem {
      assert o >= n ==> all[o] == new_[o - n];
      assert p >= n ==> all[p] == new_[p - n];
    }
  }

  // ---------------------------------------------------------------------
  // The stream
  // ---------------------------------------------------------------------

  lemma {:induction false} Append(states: seq<State>, steps: seq<Step>, step: Step, t: State)
    requires IsPath(states, steps) && Next(states[|steps|], step, t)
    ensures IsPath(states + [t], steps + [step]) && (states + [t])[0] == states[0] && (states + [t])[|steps| + 1] == t
  {
  }

  /** The state after the first `n` turns, all of them chunks. */
  function Streamed(s: State, r: nat, turns: seq<Turn>, n: nat): State
    requires r < |s.reqs| && n <= |turns|
  {
    With(s, r, s.reqs[r].(usage := LastUsage(turns[..n])))
  }

  lemma {:induction false} ChunksAreSteps(s: State, r: nat, turns: seq<Turn>, n: nat)
    returns (states: seq<State>, steps: seq<Step>)
    requires At(s, r, Streaming) && s.reqs[r].usage.None?
    requires n <= |turns| && forall i :: 0 <= i < n ==> turns[i].ChunkOk?
    ensures IsPath(states, steps) && states[0] == s && states[|steps|] == Streamed(s, r, turns, n)
  {
    if n == 0 {
      assert s.reqs[r := s.reqs[r]] == s.reqs;
      return [s], [];
    }
    states, steps := ChunksAreSteps(s, r, turns, n - 1);
    assert turns[..n][..n - 1] == turns[..n - 1];
    var t := Streamed(s, r, turns, n);
    ChunkStep(s, r, turns, n - 1);
    Append(states, steps, Chunk(r, turns[n - 1].usage), t);
    states, steps := states + [t], steps + [Chunk(r, turns[n - 1].usage)];
  }

  lemma {:induction false} ChunkStep(s: State, r: nat, turns: seq<Turn>, n: nat)
    requires At(s, r, Streaming) && n < |turns| && turns[n].ChunkOk?
    ensures Next(Streamed(s, r, turns, n), Chunk(r, turns[n].usage), Streamed(s, r, turns, n + 1))
  {
    assert turns[..n + 1][..n] == turns[..n];
  }

  /** Where the loop leaves the request: the disposition is decided, or, when the client
      went away, it is still streaming. */
  function StreamEnd(s: State, r: nat, usage: Option<Usage>, status: Option<MeterStatus>, broke: bool): State
    requires r < |s.reqs|
  {
    var q := s.reqs[r].(usage := usage, broke := s.reqs[r].broke || broke,
                        phase := if status.Some? then Ending(status.value) else s.reqs[r].phase);
    With(s.(counters := s.counters.(upstreamError := s.counters.upstreamError + Bit(broke))), r, q)
  }

  /** The body loop is a path of the protocol: a chunk each, and then the cancel, the break
      or the end, exactly as `StreamBody` reports them. */
  method StreamIsSteps(turns: seq<Turn>, ghost r: nat, ghost s: State)
    returns (forwarded: nat, usage: Option<Usage>, status: Option<MeterStatus>, broke: bool,
             ghost states: seq<State>, ghost steps: seq<Step>)
    requires At(s, r, Streaming) && s.reqs[r].usage.None? && (CancelSeen in turns ==> r in s.cancelled)
    ensures forwarded <= |turns| && usage == LastUsage(turns[..forwarded]) && (status.None? <==> forwarded == |turns|)
    ensures IsPath(states, steps) && states[0] == s && states[|steps|] == StreamEnd(s, r, usage, status, broke)
  {
    forwarded, usage, status, broke := StreamBody(turns);
    states, steps := ChunksAreSteps(s, r, turns, forwarded);
    if status.Some? {
      states, steps := LastTurnIsSteps(states, steps, s, r, turns, forwarded);
    } else {
      assert StreamEnd(s, r, usage, status, broke) == Streamed(s, r, turns, forwarded);
    }
  }

  lemma {:induction false} LastTurnIsSteps(before: seq<State>, path: seq<Step>, s: State, r: nat, turns: seq<Turn>,
                                           n: nat)
    returns (states: seq<State>, steps: seq<Step>)
    requires At(s, r, Streaming) && (CancelSeen in turns ==> r in s.cancelled)
    requires n < |turns| && !turns[n].ChunkOk?
    requires IsPath(before, path) && before[0] == s && before[|path|] == Streamed(s, r, turns, n)
    ensures IsPath(states, steps) && states[0] == s
    ensures states[|steps|] ==
            StreamEnd(s, r, LastUsage(turns[..n]), Some(if turns[n].CancelSeen? then Cancelled else Completed),
                                         turns[n].ChunkError?)
  {
    var t := Streamed(s, r, turns, n);
    if turns[n].ChunkError? {
      var b := With(t.(counters := t.counters.(upstreamError := t.counters.upstreamError + 1)), r,
                    t.reqs[r].(phase := Broken, broke := true));
      Append(before, path, StreamBreaks(r), b);
      var u := Goto(b, r, Ending(Completed));
      Append(before + [b], path + [StreamBreaks(r)], StreamResumes(r), u);
      states, steps := before + [b] + [u], path + [StreamBreaks(r)] + [StreamResumes(r)];
    } else {
      var step := if turns[n].CancelSeen? then SeeCancel(r) else StreamEnds(r);
      var u := Goto(t, r, Ending(if turns[n].CancelSeen? then Cancelled else Completed));
      Append(before, path, step, u);
      states, steps := before + [u], path + [step];
    }
  }

  // ---------------------------------------------------------------------
  // The meters
  // ---------------------------------------------------------------------

  ghost predicate MetersMatch(metrics: Metrics, s: State)
    reads metrics
  {
    && metrics.bounds == BOUNDS && metrics.WellFormed()
    && metrics.starved == s.counters.starved && metrics.models == s.counters.models
  }

  /** Recording a terminal request is the step `Observe`. */
  method ObserveIsStep(metrics: Metrics, rec: Record, ghost r: nat, ghost started: int, ghost now: int, ghost s: State)
    returns (ghost t: State)
    requires MetersMatch(metrics, s) && HasObject(s, r) && s.reqs[r].phase.Counted?
    requires rec == RecordOf(s, r, started, now)
    modifies metrics
    ensures Next(s, Observe(r, started, now), t) && MetersMatch(metrics, t)
  {
    metrics.Observe(rec.model, ObservationOf(rec));
    t := With(s.(counters := s.counters.(models := MetersAfter(BOUNDS, s.counters.models, rec.model,
                                                               ObservationOf(rec)))), r,
              s.reqs[r].(phase := Leaving, record := Some(rec)));
  }

  /** A rejected admission counts the model as starved: the step `Admit` on a full replica. */
  method StarvedIsStep(metrics: Metrics, model: string, ghost r: nat, ghost s: State) returns (ghost t: State)
    requires MetersMatch(metrics, s) && At(s, r, Selected) && HasObject(s, r) && s.free[s.reqs[r].obj.value] == 0
    requires s.reqs[r].model == model
    modifies metrics
    ensures Next(s, Admit(r), t) && MetersMatch(metrics, t)
  {
    metrics.IncStarved(model);
    t := AdmittedState(s, r);
  }

  /** What `render` writes for a model is, in every run, bound by bound, the number of that
      model's recorded latencies not above it. */
  method RenderOfRun(metrics: Metrics, model: string, ghost states: seq<State>, ghost steps: seq<Step>)
    returns (series: seq<nat>)
    requires IsRun(states, steps) && MetersMatch(metrics, states[|steps|]) && model in metrics.models
    ensures |series| == |BOUNDS|
    ensures forall i :: 0 <= i < |series| ==>
            series[i] == CountIf(Observations(states, steps, model), AtMost(BOUNDS[i]))
  {
    MetersOfRun(states, steps, model);
    BoundsIncrease();
    series := metrics.RenderBuckets(model, Observations(states, steps, model));
  }
}
