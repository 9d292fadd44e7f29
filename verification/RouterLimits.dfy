/** Two promises of the router that hold up to a condition: an exact registry, and a
    bound on what one runner is given. */
module RouterLimits {
  import opened Wrappers
  import opened Folds
  import opened Routing
  import opened RouterProtocol
  import opened RouterProofs

  // ---------------------------------------------------------------------
  // The registry
  // ---------------------------------------------------------------------

  /** The request's id stands for this request. */
  predicate Registered(s: State, r: nat)
    requires r < |s.reqs|
  {
    s.reqs[r].id in s.registry && s.registry[s.reqs[r].id] == r
  }

  /** Every request in flight can be cancelled by its id. */
  ghost predicate RegistryExact(s: State) {
    forall r: nat :: r < |s.reqs| && s.reqs[r].guard ==> Registered(s, r)
  }

  /** A request registers an id that another request in flight carries. */
  ghost predicate Collides(s: State, step: Step) {
    step.Register? && step.r < |s.reqs| && exists q: nat :: CarriesIdOf(s, q, step.r)
  }

  predicate CarriesIdOf(s: State, q: nat, r: nat)
    requires r < |s.reqs|
  {
    q < |s.reqs| && q != r && s.reqs[q].guard && s.reqs[q].id == s.reqs[r].id
  }

  lemma RegisterExactIff(s: State, step: Step, t: State)
    requires step.Register? && Next(s, step, t) && RegistryExact(s)
    ensures RegistryExact(t) <==> !Collides(s, step)
  {
    var a := step.r;
    if q: nat :| CarriesIdOf(s, q, a) {
      assert t.reqs[q].guard && !Registered(t, q);
    } else {
      forall r: nat | r < |t.reqs| && t.reqs[r].guard ensures Registered(t, r) {
        if r != a {
          assert Registered(s, r) && !CarriesIdOf(s, r, a);
        }
      }
    }
  }

  lemma DropGuardKeepsExact(s: State, step: Step, t: State)
    requires step.DropGuard? && Next(s, step, t) && RegistryExact(s)
    ensures RegistryExact(t)
  {
    var a := step.r;
    assert Registered(s, a);
    forall r: nat | r < |t.reqs| && t.reqs[r].guard ensures Registered(t, r) {
      assert Registered(s, r);
    }
  }

  /** A step breaks an exact registry exactly when it is such a registration. */
  lemma StepExactIff(s: State, step: Step, t: State)
    requires Next(s, step, t) && RegistryExact(s)
    ensures RegistryExact(t) <==> !Collides(s, step)
  {
    if step.Register? {
      RegisterExactIff(s, step, t);
    } else if step.DropGuard? {
      DropGuardKeepsExact(s, step, t);
    } else {
      GuardsUntouched(s, step, t);
      forall r: nat | r < |t.reqs| && t.reqs[r].guard ensures Registered(t, r) {
        assert Registered(s, r);
      }
    }
  }

  /** In every run, up to any point, every request in flight was cancellable by its id all
      the time if and only if none registered an id another in flight carried. Reusing the
      id of a request that has ended is fine. */
  lemma {:induction false} RegistryExactIff(states: seq<State>, steps: seq<Step>, j: nat)
    requires IsRun(states, steps) && j <= |steps|
    ensures (forall i: nat :: i <= j ==> RegistryExact(states[i])) <==>
            (forall l: nat :: l < j ==> !Collides(states[l], steps[l]))
  {
    if j > 0 {
      RegistryExactIff(states, steps, j - 1);
      if RegistryExact(states[j - 1]) {
        StepExactIff(states[j - 1], steps[j - 1], states[j]);
      }
    } else {
      var configs :| InitFrom(states[0], configs);
    }
  }

  // ---------------------------------------------------------------------
  // A runner's budget
  // ---------------------------------------------------------------------

  /** Holds a permit of some object of the runner. */
  predicate OnRunner(heap: seq<Spec>, id: string, q: Req) {
    q.permit && q.obj.Some? && q.obj.value < |heap| && heap[q.obj.value].id == id
  }

  ghost function HoldsRunner(heap: seq<Spec>, id: string): Req -> bool {
    (q: Req) => OnRunner(heap, id, q)
  }

  ghost function HoldsElsewhere(heap: seq<Spec>, id: string, o: nat): Req -> bool {
    (q: Req) => OnRunner(heap, id, q) && q.obj != Some(o)
  }

  /** The permits held on a runner, over all objects it ever had. */
  ghost function HeldBy(s: State, id: string): nat {
    CountIf(s.reqs, HoldsRunner(s.heap, id))
  }

  /** The permits held on its objects other than `o`. */
  ghost function HeldElsewhere(s: State, id: string, o: nat): nat {
    CountIf(s.reqs, HoldsElsewhere(s.heap, id, o))
  }

  lemma {:induction false} HeldSplits(reqs: seq<Req>, heap: seq<Spec>, id: string, o: nat)
    requires o < |heap| && heap[o].id == id
    ensures CountIf(reqs, HoldsRunner(heap, id)) == CountIf(reqs, Holds(o)) + CountIf(reqs, HoldsElsewhere(heap, id, o))
  {
    if reqs != [] {
      HeldSplits(reqs[..|reqs| - 1], heap, id, o);
    }
  }

  predicate HasRunner(heap: seq<Spec>, id: string) {
    exists o: nat :: o < |heap| && heap[o].id == id
  }

  /** The runner's budget: the capacity of its newest object, which is what the last poll
      that named it reported. */
  function Budget(heap: seq<Spec>, id: string): nat {
    if heap == [] then 0
    else if heap[|heap| - 1].id == id then heap[|heap| - 1].capacity
    else Budget(heap[..|heap| - 1], id)
  }

  lemma {:induction false} BudgetConcat(heap: seq<Spec>, more: seq<Spec>, id: string)
    ensures Budget(heap + more, id) == if HasRunner(more, id) then Budget(more, id) else Budget(heap, id)
  {
    if more == [] {
      assert heap + more == heap;
    } else {
      var n := |more| - 1;
      assert (heap + more)[..|heap + more| - 1] == heap + more[..n];
      BudgetConcat(heap, more[..n], id);
      LastOrEarlier(more, id);
    }
  }

  lemma LastOrEarlier(heap: seq<Spec>, id: string)
    requires heap != []
    ensures HasRunner(heap, id) <==> heap[|heap| - 1].id == id || HasRunner(heap[..|heap| - 1], id)
  {
    var n := |heap| - 1;
    if o: nat :| o < |heap| && heap[o].id == id && o != n {
      assert heap[..n][o].id == id;
    }
    if o: nat :| o < n && heap[..n][o].id == id {
      assert heap[o].id == id;
    }
  }

  /** What is held on the runner is within its budget. */
  ghost predicate WithinBudget(s: State, id: string) {
    HeldBy(s, id) <= Budget(s.heap, id)
  }

  /** The admission that overfills a runner: a free slot on one of its objects, while what its
      other objects hold and what this one holds reach the budget. With equal capacities: while
      the others hold at least as many permits as this one has slots left. */
  ghost predicate Overfills(s: State, step: Step, id: string) {
    && step.Admit? && HasObject(s, step.r)
    && var o := s.reqs[step.r].obj.value;
       s.heap[o].id == id && 0 < s.free[o] &&
           Budget(s.heap, id) + s.free[o] <= HeldElsewhere(s, id, o) + s.heap[o].capacity
  }

  /** The poll that lowers a runner's budget below what it holds. */
  ghost predicate Shrinks(s: State, step: Step, id: string) {
    && step.Poll? && step.fetched.Some? && HasRunner(RunnerSpecs(step.fetched.value), id)
    && Budget(RunnerSpecs(step.fetched.value), id) < HeldBy(s, id)
  }

  lemma AdmitHolds(s: State, step: Step, t: State, id: string)
    requires step.Admit? && Next(s, step, t) && ShapeInv(s)
    ensures var o := s.reqs[step.r].obj.value;
            HeldBy(t, id) == HeldBy(s, id) + Bit(s.heap[o].id == id && s.free[o] > 0)
  {
    var r := step.r;
    assert ReqOk(s.heap, s.reqs[r]);
    CountUpdate(s.reqs, r, t.reqs[r], HoldsRunner(s.heap, id));
  }

  /** Within the budget before, an admission exceeds it exactly when it overfills. */
  lemma AdmitExceedsIff(s: State, step: Step, t: State, id: string)
    requires step.Admit? && Next(s, step, t) && Inv(s) && WithinBudget(s, id)
    ensures !WithinBudget(t, id) <==> Overfills(s, step, id)
  {
    var o := s.reqs[step.r].obj.value;
    RequestFrame(s, step, t);
    AdmitHolds(s, step, t, id);
    if s.heap[o].id == id {
      HeldSplits(s.reqs, s.heap, id, o);
      assert s.free[o] + CountIf(s.reqs, Holds(o)) == s.heap[o].capacity;
    }
  }

  /** And a poll exactly when it lowers the budget below what is held. */
  lemma PollExceedsIff(s: State, step: Step, t: State, id: string)
    requires step.Poll? && Next(s, step, t) && ShapeInv(s) && WithinBudget(s, id)
    ensures !WithinBudget(t, id) <==> Shrinks(s, step, id)
  {
    OlderObjectsOnly(s.reqs, s.heap, t.heap, id);
    if step.fetched.Some? {
      BudgetConcat(s.heap, RunnerSpecs(step.fetched.value), id);
    }
  }

  /** No other step adds to what a runner holds. */
  lemma OthersAddNothing(s: State, step: Step, t: State, id: string)
    requires !step.Admit? && Next(s, step, t) && ShapeInv(s)
    ensures HeldBy(t, id) <= HeldBy(s, id)
  {
    if OfRequest(step) {
      RequestFrame(s, step, t);
      PermitsOnlyLeave(s, step, t);
      CountUpdate(s.reqs, Actor(step), t.reqs[Actor(step)], HoldsRunner(s.heap, id));
    } else if step.Arrive? {
      CountAppend(s.reqs, t.reqs[|s.reqs|], HoldsRunner(s.heap, id));
    } else if step.Poll? {
      OlderObjectsOnly(s.reqs, s.heap, t.heap, id);
    }
  }

  lemma PermitsOnlyLeave(s: State, step: Step, t: State)
    requires OfRequest(step) && !step.Admit? && Next(s, step, t) && ShapeInv(s)
    ensures Actor(step) < |s.reqs| == |t.reqs|
    ensures t.reqs[Actor(step)].permit ==>
              s.reqs[Actor(step)].permit && t.reqs[Actor(step)].obj == s.reqs[Actor(step)].obj
  {
    assert ReqOk(s.heap, s.reqs[Actor(step)]);
  }

  lemma {:induction false} OlderObjectsOnly(reqs: seq<Req>, heap: seq<Spec>, more: seq<Spec>, id: string)
    requires heap <= more && forall r :: 0 <= r < |reqs| ==> ReqOk(heap, reqs[r])
    ensures CountIf(reqs, HoldsRunner(more, id)) == CountIf(reqs, HoldsRunner(heap, id))
  {
    if reqs != [] {
      OlderObjectsOnly(reqs[..|reqs| - 1], heap, more, id);
      assert ReqOk(heap, reqs[|reqs| - 1]);
    }
  }

  /** Overfilling and shrinking are the only ways past a budget. */
  lemma BudgetStep(s: State, step: Step, t: State, id: string)
    requires Next(s, step, t) && Inv(s) && WithinBudget(s, id)
    ensures WithinBudget(t, id) <==> !Overfills(s, step, id) && !Shrinks(s, step, id)
  {
    if step.Admit? {
      AdmitExceedsIff(s, step, t, id);
    } else if step.Poll? {
      PollExceedsIff(s, step, t, id);
    } else {
      OthersAddNothing(s, step, t, id);
      HeapUnpolled(s, step, t);
    }
  }

  lemma HeapUnpolled(s: State, step: Step, t: State)
    requires !step.Poll? && Next(s, step, t)
    ensures t.heap == s.heap
  {
    if OfRequest(step) {
      RequestFrame(s, step, t);
    }
  }

  ghost function WithinIn(states: seq<State>, id: string): nat -> bool {
    (l: nat) => l < |states| && WithinBudget(states[l], id)
  }

  ghost function ExceedsIn(states: seq<State>, steps: seq<Step>, id: string): nat -> bool {
    (l: nat) => l < |steps| && l < |states| && (Overfills(states[l], steps[l], id) || Shrinks(states[l], steps[l], id))
  }

  /** In every run a runner is within its budget all the time if and only if no admission
      overfills it and no poll shrinks it below what it holds. */
  lemma {:induction false} BudgetKeptIff(states: seq<State>, steps: seq<Step>, j: nat, id: string)
    requires IsRun(states, steps) && j <= |steps|
    ensures (forall i: nat :: 0 <= i <= j ==> WithinIn(states, id)(i)) <==>
            (forall l: nat :: 0 <= l < j ==> !ExceedsIn(states, steps, id)(l))
  {
    NothingHeldAtFirst(states[0], id);
    forall l: nat | 0 <= l < j && WithinIn(states, id)(l)
      ensures WithinIn(states, id)(l + 1) <==> !ExceedsIn(states, steps, id)(l)
    {
      RunInv(states, steps, l);
      BudgetStep(states[l], steps[l], states[l + 1], id);
    }
    KeptIff(WithinIn(states, id), ExceedsIn(states, steps, id), 0, j);
  }

  lemma NothingHeldAtFirst(s: State, id: string)
    requires Init(s)
    ensures HeldBy(s, id) == 0
  {
    var configs :| InitFrom(s, configs);
  }
}
