/** Runs of the router in which a promise fails: an id carried twice, a runner given more
    than its budget, and a slot missed between selection and admission. */
module RouterRuns {
  import opened Wrappers
  import opened Folds
  import opened Routing
  import opened RouterMetrics
  import opened RouterProtocol
  import opened RouterProofs
  import opened RouterLimits

  // ---------------------------------------------------------------------
  // Letting requests in
  // ---------------------------------------------------------------------

  /** `Select` is determined by what it promises. */
  lemma {:induction false} SelectIs(views: seq<View>, model: string, zone: Option<string>, k: nat)
    requires IsSelection(views, model, zone, To(k))
    ensures Select(views, model, zone) == To(k)
  {
    SelectionUnique(views, model, zone, Select(views, model, zone), To(k));
  }

  function Newcomer(id: string, model: string): Req {
    Req(id, model, None, true, Arrived, None, false, false, None, false, None)
  }

  function Arrives(s: State, id: string, model: string): State {
    s.(reqs := s.reqs + [Newcomer(id, model)], counters := s.counters.(requests := s.counters.requests + 1))
  }

  /** The next request has arrived and been sent to object `o`. */
  function Chosen(s: State, id: string, model: string, o: nat): State {
    var a := Arrives(s, id, model);
    With(a, |s.reqs|, a.reqs[|s.reqs|].(phase := Selected, obj := Some(o)))
  }

  lemma {:induction false} ReachChosen(s: State, id: string, model: string, k: nat)
    requires Reachable(s) && TableOk(s) && k < |s.table| && IsSelection(Views(s), model, None, To(k))
    ensures Reachable(Chosen(s, id, model, s.table[k]))
  {
    var a, r := Arrives(s, id, model), |s.reqs|;
    ReachNext(s, Arrive(id, model, None, true), a);
    assert Views(a) == Views(s);
    SelectIs(Views(a), model, None, k);
    ReachNext(a, SelectReplica(r), Chosen(s, id, model, s.table[k]));
  }

  function AdmittedTo(s: State, id: string, model: string, o: nat): State
    requires o < |s.free| && s.free[o] > 0
  {
    var c := Chosen(s, id, model, o);
    With(c.(free := c.free[o := c.free[o] - 1]), |s.reqs|, c.reqs[|s.reqs|].(phase := Admitted, permit := true))
  }

  lemma {:induction false} AdmitsNext(s: State, id: string, model: string, o: nat)
    requires |s.free| == |s.heap| && o < |s.free| && s.free[o] > 0
    ensures Next(Chosen(s, id, model, o), Admit(|s.reqs|), AdmittedTo(s, id, model, o))
  {
  }

  /** A request that has registered with object `o`. */
  function Connected(id: string, model: string, o: nat): Req {
    Req(id, model, None, true, Connecting, Some(o), true, true, None, false, None)
  }

  /** The state after a request was let in to object `o`. */
  function Entered(s: State, id: string, model: string, o: nat): State
    requires o < |s.free| && s.free[o] > 0
  {
    s.(reqs := s.reqs + [Connected(id, model, o)], free := s.free[o := s.free[o] - 1],
       registry := s.registry[id := |s.reqs|], counters := s.counters.(requests := s.counters.requests + 1))
  }

  lemma {:induction false} RegistersNext(s: State, id: string, model: string, o: nat)
    requires |s.free| == |s.heap| && o < |s.free| && s.free[o] > 0
    ensures Next(AdmittedTo(s, id, model, o), Register(|s.reqs|), Entered(s, id, model, o))
  {
    assert Entered(s, id, model, o).reqs ==
           AdmittedTo(s, id, model, o).reqs[|s.reqs| := Connected(id, model, o)];
  }

  lemma {:induction false} ReachEntered(s: State, id: string, model: string, k: nat)
    requires Reachable(s) && TableOk(s) && k < |s.table| && IsSelection(Views(s), model, None, To(k)) &&
             s.free[s.table[k]] > 0
    ensures Reachable(Chosen(s, id, model, s.table[k])) && Reachable(AdmittedTo(s, id, model, s.table[k]))
    ensures Reachable(Entered(s, id, model, s.table[k]))
  {
    var o := s.table[k];
    ReachChosen(s, id, model, k);
    AdmitsNext(s, id, model, o);
    ReachNext(Chosen(s, id, model, o), Admit(|s.reqs|), AdmittedTo(s, id, model, o));
    RegistersNext(s, id, model, o);
    ReachNext(AdmittedTo(s, id, model, o), Register(|s.reqs|), Entered(s, id, model, o));
  }

  function First(configs: seq<ReplicaConfig>): State {
    State(Specs(configs), Capacities(Specs(configs)), Range(0, |configs|), [], map[], {},
          Counters(0, 0, 0, 0, 0, map[], map[]))
  }

  lemma {:induction false} ReachFirst(configs: seq<ReplicaConfig>)
    ensures Reachable(First(configs))
  {
    assert InitFrom(First(configs), configs);
    assert IsRun([First(configs)], []);
  }

  lemma {:induction false} OnlyOne(s: State, model: string)
    requires TableOk(s) && |s.table| == 1 && Placeable(s.heap[s.table[0]], model, None)
    ensures IsSelection(Views(s), model, None, To(0))
  {
  }

  // ---------------------------------------------------------------------
  // An id carried twice
  // ---------------------------------------------------------------------

  lemma {:induction false} FirstTwin(id: string, model: string) returns (s: State)
    ensures Reachable(s) && TableOk(s) && s.table == [0] && |s.heap| == 1 && s.free == [1]
    ensures s.reqs == [Connected(id, model, 0)] && Placeable(s.heap[0], model, None)
  {
    var configs := [ReplicaConfig("u", [model], None, 2)];
    ReachFirst(configs);
    var s0 := First(configs);
    assert s0.free == [2] && s0.table == [0];
    OnlyOne(s0, model);
    ReachEntered(s0, id, model, 0);
    s := Entered(s0, id, model, 0);
  }

  /** The first of two requests leaves, and takes the registration of both with it. */
  lemma {:induction false} FirstLeaves(t: State, id: string, model: string) returns (u: State, v: State)
    requires t.reqs == [Connected(id, model, 0), Connected(id, model, 0)]
    ensures Next(t, Disconnect(0), u) && Next(u, DropGuard(0), v)
    ensures |v.reqs| == 2 && v.reqs[1] == Connected(id, model, 0) && id !in v.registry
  {
    u := Goto(t, 0, Leaving);
    v := With(u.(registry := u.registry - {id}), 0, u.reqs[0].(guard := false));
  }

  /** Two requests in flight carry the same id. The second registration collides; when the
      first request leaves, the second is still in flight and a cancel for its id does nothing. */
  lemma {:induction false} SharedIdLosesRegistration(id: string, model: string)
    returns (s: State, t: State, u: State, v: State)
    ensures Reachable(s) && Collides(s, Register(1))
    ensures Next(s, Register(1), t) && Next(t, Disconnect(0), u) && Next(u, DropGuard(0), v)
    ensures |v.reqs| == 2 && v.reqs[1].id == id && v.reqs[1].guard && v.reqs[1].phase.InFlight()
    ensures id !in v.registry && Next(v, NatsCancel(id), v)
  {
    var a := FirstTwin(id, model);
    OnlyOne(a, model);
    ReachEntered(a, id, model, 0);
    s, t := AdmittedTo(a, id, model, 0), Entered(a, id, model, 0);
    RegistersNext(a, id, model, 0);
    TwinCollides(a, id, model);
    u, v := FirstLeaves(t, id, model);
  }

  lemma {:induction false} TwinCollides(a: State, id: string, model: string)
    requires a.reqs == [Connected(id, model, 0)] && a.free == [1]
    ensures Collides(AdmittedTo(a, id, model, 0), Register(1))
    ensures Entered(a, id, model, 0).reqs == [Connected(id, model, 0), Connected(id, model, 0)]
  {
    assert CarriesIdOf(AdmittedTo(a, id, model, 0), 0, 1);
  }

  // ---------------------------------------------------------------------
  // A runner over its budget
  // ---------------------------------------------------------------------

  function Polled(s: State, server: ServingRunner): State {
    s.(heap := s.heap + RunnerSpecs([server]), free := s.free + Capacities(RunnerSpecs([server])),
       table := Range(|s.heap|, 1))
  }

  /** A runner with one slot, its slot taken, after the second poll. */
  predicate FullBehindSwap(s: State, runner: Spec, model: string) {
    && s.heap == [runner, runner] && s.free == [0, 1] && s.table == [1]
    && s.reqs == [Connected("a", model, 0)]
  }

  lemma {:induction false} ReachPolled(s: State, server: ServingRunner)
    requires Reachable(s)
    ensures Reachable(Polled(s, server))
  {
    ReachNext(s, Poll(Some([server])), Polled(s, server));
  }

  lemma {:induction false} PolledIs(s: State, server: ServingRunner)
    requires server.concurrency <= 1
    ensures Polled(s, server).heap == s.heap + [SpecOfRunner(server)] && Polled(s, server).free == s.free + [1]
    ensures Polled(s, server).table == [|s.heap|] && Polled(s, server).reqs == s.reqs
  {
  }

  lemma {:induction false} ReachFull(server: ServingRunner, model: string) returns (s: State)
    requires model in server.models && server.concurrency <= 1
    ensures Reachable(s) && s.heap == [SpecOfRunner(server)] && s.free == [0] && s.reqs == [Connected("a", model, 0)]
  {
    var a := ReachPolledFirst(server);
    OnlyOne(a, model);
    ReachEntered(a, "a", model, 0);
    s := Entered(a, "a", model, 0);
  }

  lemma {:induction false} ReachPolledFirst(server: ServingRunner) returns (s: State)
    requires server.concurrency <= 1
    ensures Reachable(s) && s.heap == [SpecOfRunner(server)] && s.free == [1] && s.table == [0] && s.reqs == []
  {
    var s0 := First([]);
    ReachFirst([]);
    ReachPolled(s0, server);
    PolledIs(s0, server);
    s := Polled(s0, server);
    assert s0.heap == [] && s0.free == [];
  }

  lemma {:induction false} ReachSwapped(server: ServingRunner, model: string) returns (s: State)
    requires model in server.models && server.concurrency <= 1
    ensures Reachable(s) && FullBehindSwap(s, SpecOfRunner(server), model)
  {
    var a := ReachFull(server, model);
    ReachPolled(a, server);
    PolledIs(a, server);
    s := Polled(a, server);
  }

  /** A runner with one slot holds a request; the table is polled again, and the next
      request is admitted to the same runner through its new object. */
  lemma {:induction false} SwapExceedsRunnerBudget(server: ServingRunner, model: string) returns (s: State, t: State)
    requires model in server.models && server.concurrency <= 1
    ensures Reachable(s) && Next(s, Admit(1), t) && Overfills(s, Admit(1), SpecOfRunner(server).id)
    ensures Budget(t.heap, SpecOfRunner(server).id) == 1 && HeldBy(t, SpecOfRunner(server).id) == 2
  {
    var a := ReachSwapped(server, model);
    OnlyOne(a, model);
    ReachEntered(a, "b", model, 0);
    s, t := Chosen(a, "b", model, 1), AdmittedTo(a, "b", model, 1);
    AdmitsNext(a, "b", model, 1);
    OverAfterEntry(a, SpecOfRunner(server), model);
  }

  lemma {:induction false} OverAfterEntry(s: State, runner: Spec, model: string)
    requires FullBehindSwap(s, runner, model)
    ensures HeldBy(AdmittedTo(s, "b", model, 1), runner.id) == 2
    ensures Overfills(Chosen(s, "b", model, 1), Admit(1), runner.id)
  {
    var heap, first := [runner, runner], Connected("a", model, 0);
    var waiting := Newcomer("b", model).(phase := Selected, obj := Some(1));
    var admitted := waiting.(phase := Admitted, permit := true);
    assert Chosen(s, "b", model, 1).reqs == [first] + [waiting];
    assert AdmittedTo(s, "b", model, 1).reqs == [first] + [admitted];
    assert [first] == [] + [first];
    CountAppend([], first, HoldsRunner(heap, runner.id));
    CountAppend([first], admitted, HoldsRunner(heap, runner.id));
    CountAppend([], first, HoldsElsewhere(heap, runner.id, 1));
    CountAppend([first], waiting, HoldsElsewhere(heap, runner.id, 1));
  }

  // ---------------------------------------------------------------------
  // A slot missed
  // ---------------------------------------------------------------------

  lemma {:induction false} OfTwo(s: State, model: string, k: nat)
    requires TableOk(s) && s.table == [0, 1] && k < 2 && |s.heap| == 2
    requires Placeable(s.heap[0], model, None) && Placeable(s.heap[1], model, None)
    requires if k == 0 then s.free[0] > s.free[1] else s.free[1] >= s.free[0]
    ensures IsSelection(Views(s), model, None, To(k))
  {
  }

  /** Two replicas of a model, and these free slots. */
  predicate TwoReplicas(s: State, model: string, free: seq<nat>) {
    && TableOk(s) && s.table == [0, 1] && |s.heap| == 2 && s.free == free
    && Placeable(s.heap[0], model, None) && Placeable(s.heap[1], model, None)
  }

  lemma {:induction false} ReachTwo(model: string) returns (s: State)
    ensures Reachable(s) && TwoReplicas(s, model, [1, 1]) && s.reqs == []
  {
    var configs := [ReplicaConfig("u", [model], None, 1), ReplicaConfig("v", [model], None, 1)];
    ReachFirst(configs);
    s := First(configs);
  }

  lemma {:induction false} ReachOneTaken(model: string) returns (s: State)
    ensures Reachable(s) && TwoReplicas(s, model, [1, 0]) && s.reqs == [Connected("a", model, 1)]
  {
    var a := ReachTwo(model);
    OfTwo(a, model, 1);
    ReachEntered(a, "a", model, 1);
    s := Entered(a, "a", model, 1);
  }

  lemma {:induction false} ReachBothTaken(model: string) returns (s: State)
    ensures Reachable(s) && TwoReplicas(s, model, [0, 0])
    ensures s.reqs == [Connected("a", model, 1), Connected("b", model, 0)]
  {
    var a := ReachOneTaken(model);
    OfTwo(a, model, 0);
    ReachEntered(a, "b", model, 0);
    s := Entered(a, "b", model, 0);
  }

  /** The request at index 1, which holds object 0, goes away and gives its slot back. */
  lemma {:induction false} SlotComesFree(b: State, model: string) returns (s: State)
    requires Reachable(b) && |b.reqs| == 3 && b.reqs[1] == Connected("b", model, 0) && TwoReplicas(b, model, [0, 0])
    ensures Reachable(s) && TwoReplicas(s, model, [1, 0]) && |s.reqs| == 3 && s.reqs[2] == b.reqs[2]
  {
    var c := Goto(b, 1, Leaving);
    ReachNext(b, Disconnect(1), c);
    s := With(c.(free := [1, 0]), 1, c.reqs[1].(permit := false));
    assert s.free == c.free[0 := 1];
    ReachNext(c, DropPermit(1), s);
  }

  /** A request is rejected beside a replica of the current table that could take it: the
      slot came free between its selection and its admission. */
  lemma {:induction false} LateSlotIsMissed(model: string) returns (s: State, t: State)
    ensures Reachable(s) && Next(s, Admit(2), t) && t.counters.rejected == s.counters.rejected + 1
    ensures |s.reqs| == 3 && s.reqs[2].model == model && s.table == [0, 1] && |s.heap| == |s.free| == 2
    ensures Placeable(s.heap[0], model, s.reqs[2].zone) && s.free[0] > 0
  {
    var a := ReachBothTaken(model);
    OfTwo(a, model, 1);
    ReachChosen(a, "c", model, 1);
    s := SlotComesFree(Chosen(a, "c", model, 1), model);
    t := Goto(s.(counters := IncStarved(s.counters.(rejected := s.counters.rejected + 1), model)), 2, Finished);
  }
}
