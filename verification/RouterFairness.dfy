/** When a rejection is honest: what makes the replica chosen for a request the best choice, what
    undercuts it and what repairs it. */
module RouterFairness {
  import opened Wrappers
  import opened Folds
  import opened Routing
  import opened RouterProtocol
  import opened RouterProofs

  /** A permit is taken or given back, or the table is swapped. */
  predicate MovesPermits(step: Step) {
    step.Admit? || step.DropPermit? || step.Poll?
  }

  lemma PermitsUnmoved(s: State, step: Step, t: State)
    requires !MovesPermits(step) && Next(s, step, t)
    ensures t.free == s.free && t.table == s.table && t.heap == s.heap
  {
    if OfRequest(step) {
      RequestFrame(s, step, t);
    }
  }

  /** A request waits for admission with the object it was given, and is selected once. */
  lemma SelectedOnce(s: State, step: Step, t: State, r: nat)
    requires Next(s, step, t) && r < |s.reqs| && !s.reqs[r].phase.Arrived?
    ensures r < |t.reqs| && !t.reqs[r].phase.Arrived?
    ensures t.reqs[r].phase.Selected? ==> s.reqs[r].phase.Selected? && t.reqs[r].obj == s.reqs[r].obj
  {
    if OfRequest(step) {
      RequestFrame(s, step, t);
      if Actor(step) == r {
        NotBack(s, step, t);
      }
    }
  }

  /** No step of a request past its arrival leads back to the arrival or the selection. */
  lemma NotBack(s: State, step: Step, t: State)
    requires OfRequest(step) && Next(s, step, t) && Actor(step) < |s.reqs| && !s.reqs[Actor(step)].phase.Arrived?
    ensures Actor(step) < |t.reqs|
    ensures !t.reqs[Actor(step)].phase.Arrived? && !t.reqs[Actor(step)].phase.Selected?
  {
    if Entering(step) {
      EnteringNotBack(s, step, t);
    }
  }

  lemma EnteringNotBack(s: State, step: Step, t: State)
    requires Entering(step) && Next(s, step, t) && step.r < |s.reqs| && !s.reqs[step.r].phase.Arrived?
    ensures step.r < |t.reqs| && !t.reqs[step.r].phase.Arrived? && !t.reqs[step.r].phase.Selected?
  {
  }

  /** If the request waits for admission in `b` it did so in `a`, with the same object. */
  predicate WaitedSince(a: State, b: State, r: nat) {
    && r < |a.reqs| && r < |b.reqs| && !b.reqs[r].phase.Arrived?
    && (b.reqs[r].phase.Selected? ==> a.reqs[r].phase.Selected? && a.reqs[r].obj == b.reqs[r].obj)
  }

  lemma NoLongerArrived(s: State, step: Step, t: State)
    requires step.SelectReplica? && Next(s, step, t)
    ensures WaitedSince(t, t, step.r)
  {
    SelectedIs(s, step, t);
  }

  lemma WaitsOn(a: State, s: State, step: Step, t: State, r: nat)
    requires WaitedSince(a, s, r) && Next(s, step, t)
    ensures WaitedSince(a, t, r)
  {
    SelectedOnce(s, step, t, r);
  }

  lemma {:induction false} SelectedSince(states: seq<State>, steps: seq<Step>, i: nat, j: nat, r: nat)
    requires IsRun(states, steps) && i < j <= |steps| && steps[i] == SelectReplica(r)
    ensures WaitedSince(states[i + 1], states[j], r)
    decreases j
  {
    if i + 1 == j {
      NoLongerArrived(states[i], steps[i], states[j]);
    } else {
      SelectedSince(states, steps, i, j - 1, r);
      WaitsOn(states[i + 1], states[j - 1], steps[j - 1], states[j], r);
    }
  }

  /** No placeable replica of the table has more free permits than object `o`. */
  ghost predicate Fair(s: State, o: nat, model: string, zone: Option<string>) {
    && TableOk(s) && o < |s.free|
    && forall k: nat :: k < |s.table| && Placeable(s.heap[s.table[k]], model, zone) ==> s.free[s.table[k]] <= s.free[o]
  }

  /** A placeable replica of the table, other than `o`, with at least as many free permits. */
  predicate Rival(s: State, k: nat, o: nat, model: string, zone: Option<string>)
    requires TableOk(s) && o < |s.free|
  {
    k < |s.table| && s.table[k] != o && Placeable(s.heap[s.table[k]], model, zone) && s.free[s.table[k]] >= s.free[o]
  }

  /** The steps that make another replica the better choice: another request takes a permit
      of `o` although there is a rival; one gives a permit back to a rival; or a poll brings
      in a replica with more free permits. */
  ghost predicate Undercuts(s: State, step: Step, o: nat, model: string, zone: Option<string>)
    requires TableOk(s) && o < |s.free|
  {
    match step
    case Admit(q) =>
      && HasObject(s, q) && s.reqs[q].obj == Some(o) && s.free[o] > 0
      && exists k: nat :: Rival(s, k, o, model, zone)
    case DropPermit(q) =>
      HasObject(s, q) && exists k: nat :: Rival(s, k, o, model, zone) && Some(s.table[k]) == s.reqs[q].obj
    case Poll(fetched) =>
      && fetched.Some?
      && exists i: nat :: i < |fetched.value| && Outdoes(SpecOfRunner(fetched.value[i]), s.free[o], model, zone)
    case _ => false
  }

  predicate Outdoes(spec: Spec, free: nat, model: string, zone: Option<string>) {
    Placeable(spec, model, zone) && spec.capacity > free
  }

  lemma AdmitFairIff(s: State, step: Step, t: State, o: nat, model: string, zone: Option<string>)
    requires step.Admit? && Next(s, step, t) && Fair(s, o, model, zone)
    ensures Fair(t, o, model, zone) <==> !Undercuts(s, step, o, model, zone)
  {
    if k: nat :| Undercuts(s, step, o, model, zone) && Rival(s, k, o, model, zone) {
      assert Placeable(t.heap[t.table[k]], model, zone) && t.free[t.table[k]] > t.free[o];
    } else {
      forall k: nat | k < |t.table| && Placeable(t.heap[t.table[k]], model, zone)
        ensures t.free[t.table[k]] <= t.free[o] {
        assert !Undercuts(s, step, o, model, zone) && t.free[o] < s.free[o] ==> !Rival(s, k, o, model, zone);
      }
    }
  }

  lemma DropFairIff(s: State, step: Step, t: State, o: nat, model: string, zone: Option<string>)
    requires step.DropPermit? && Next(s, step, t) && Fair(s, o, model, zone)
    ensures Fair(t, o, model, zone) <==> !Undercuts(s, step, o, model, zone)
  {
    var x := s.reqs[step.r].obj;
    if k: nat :| Rival(s, k, o, model, zone) && Some(s.table[k]) == x {
      assert Placeable(t.heap[t.table[k]], model, zone) && t.free[t.table[k]] > t.free[o];
    } else {
      forall k: nat | k < |t.table| && Placeable(t.heap[t.table[k]], model, zone)
        ensures t.free[t.table[k]] <= t.free[o] {
        assert Some(s.table[k]) == x ==> !Rival(s, k, o, model, zone);
      }
    }
  }

  /** The k-th entry of the table is a new replica of this description, all slots free. */
  predicate Offers(t: State, k: nat, spec: Spec)
    requires TableOk(t) && k < |t.table|
  {
    t.heap[t.table[k]] == spec && t.free[t.table[k]] == spec.capacity
  }

  lemma PolledIs(s: State, step: Step, t: State)
    requires step.Poll? && step.fetched.Some? && step.fetched.value != [] && Next(s, step, t)
    ensures var specs := RunnerSpecs(step.fetched.value);
            t.heap == s.heap + specs && t.free == s.free + Capacities(specs) && t.table == Range(|s.heap|, |specs|)
  {
  }

  /** What a poll that replaces the table puts in it. */
  lemma PolledTable(s: State, servers: seq<ServingRunner>, t: State)
    requires TableOk(s) && t.heap == s.heap + RunnerSpecs(servers)
    requires t.free == s.free + Capacities(RunnerSpecs(servers)) && t.table == Range(|s.heap|, |servers|)
    ensures TableOk(t) && |t.table| == |servers| && s.free <= t.free
    ensures forall k: nat :: k < |t.table| ==> Offers(t, k, SpecOfRunner(servers[k]))
  {
    var specs, n := RunnerSpecs(servers), |s.heap|;
    forall k: nat | k < |t.table|
      ensures t.table[k] == n + k && t.heap[n + k] == specs[k] && t.free[n + k] == Capacities(specs)[k]
    {
    }
  }

  lemma PollFairIff(s: State, step: Step, t: State, o: nat, model: string, zone: Option<string>)
    requires step.Poll? && Next(s, step, t) && Fair(s, o, model, zone)
    ensures Fair(t, o, model, zone) <==> !Undercuts(s, step, o, model, zone)
  {
    if step.fetched.Some? && step.fetched.value != [] {
      PolledIs(s, step, t);
      PolledTable(s, step.fetched.value, t);
      NewTableFairIff(t, step.fetched.value, o, s.free[o], model, zone);
    }
  }

  lemma NewTableFairIff(t: State, servers: seq<ServingRunner>, o: nat, free: nat, model: string, zone: Option<string>)
    requires TableOk(t) && |t.table| == |servers| && o < |t.free| && t.free[o] == free
    requires forall k: nat :: k < |t.table| ==> Offers(t, k, SpecOfRunner(servers[k]))
    ensures Fair(t, o, model, zone) <==>
            !exists i: nat :: i < |servers| && Outdoes(SpecOfRunner(servers[i]), free, model, zone)
  {
    forall k: nat | k < |t.table|
      ensures Outdoes(SpecOfRunner(servers[k]), free, model, zone) <==>
              Placeable(t.heap[t.table[k]], model, zone) && t.free[t.table[k]] > t.free[o]
    {
      assert Offers(t, k, SpecOfRunner(servers[k]));
    }
  }

  /** A step makes a fair choice unfair if and only if it undercuts it. */
  lemma StepFairIff(s: State, step: Step, t: State, o: nat, model: string, zone: Option<string>)
    requires Next(s, step, t) && Fair(s, o, model, zone)
    ensures Fair(t, o, model, zone) <==> !Undercuts(s, step, o, model, zone)
  {
    if step.Admit? {
      AdmitFairIff(s, step, t, o, model, zone);
    } else if step.DropPermit? {
      DropFairIff(s, step, t, o, model, zone);
    } else if step.Poll? {
      PollFairIff(s, step, t, o, model, zone);
    } else {
      PermitsUnmoved(s, step, t);
    }
  }

  lemma FreeStep(s: State, step: Step, t: State)
    requires Next(s, step, t)
    ensures |s.free| <= |t.free|
  {
    if OfRequest(step) {
      RequestFrame(s, step, t);
    }
  }

  // ---------------------------------------------------------------------
  // Repairs
  // ---------------------------------------------------------------------

  /** A placeable replica of the table with more free permits than `o`. */
  predicate Better(s: State, k: nat, o: nat, model: string, zone: Option<string>)
    requires TableOk(s) && o < |s.free|
  {
    k < |s.table| && Placeable(s.heap[s.table[k]], model, zone) && s.free[s.table[k]] > s.free[o]
  }

  /** Every better replica is ahead by one permit only. */
  ghost predicate AheadByOne(s: State, o: nat, model: string, zone: Option<string>)
    requires TableOk(s) && o < |s.free|
  {
    forall k: nat :: Better(s, k, o, model, zone) ==> s.free[s.table[k]] == s.free[o] + 1
  }

  /** The steps that make an unfair choice fair again: the last slot by which the only better
      replica was ahead is taken; a permit comes back to `o` when nothing is ahead by more than
      one; or a poll brings in a table in which nothing outdoes `o`. */
  ghost predicate Repairs(s: State, step: Step, o: nat, model: string, zone: Option<string>)
    requires TableOk(s) && o < |s.free|
  {
    && (exists k: nat :: Better(s, k, o, model, zone))
    && match step
       case Admit(q) =>
         && HasObject(s, q) && AheadByOne(s, o, model, zone)
         && forall k: nat :: Better(s, k, o, model, zone) ==> Some(s.table[k]) == s.reqs[q].obj
       case DropPermit(q) =>
         HasObject(s, q) && s.reqs[q].obj == Some(o) && AheadByOne(s, o, model, zone)
       case Poll(fetched) =>
         && fetched.Some? && fetched.value != []
         && forall i: nat :: i < |fetched.value| ==> !Outdoes(SpecOfRunner(fetched.value[i]), s.free[o], model, zone)
       case _ => false
  }

  lemma UnfairIff(s: State, o: nat, model: string, zone: Option<string>)
    requires TableOk(s) && o < |s.free|
    ensures Fair(s, o, model, zone) <==> !exists k: nat :: Better(s, k, o, model, zone)
  {
    if k: nat :| k < |s.table| && Placeable(s.heap[s.table[k]], model, zone) && s.free[s.table[k]] > s.free[o] {
      assert Better(s, k, o, model, zone);
    }
  }

  lemma AdmitRepairsIff(s: State, step: Step, t: State, o: nat, model: string, zone: Option<string>)
    requires step.Admit? && Next(s, step, t) && TableOk(s) && o < |s.free| && !Fair(s, o, model, zone)
    ensures Fair(t, o, model, zone) <==> Repairs(s, step, o, model, zone)
  {
    UnfairIff(s, o, model, zone);
    AdmitFree(s, step, t);
    TakenRepairsIff(s, t, s.reqs[step.r].obj.value, o, model, zone);
  }

  /** Taking a permit of `x` repairs exactly when `x` is the only better replica, by one. */
  lemma TakenRepairsIff(s: State, t: State, x: nat, o: nat, model: string, zone: Option<string>)
    requires TableOk(s) && TableOk(t) && t.heap == s.heap && t.table == s.table && x < |s.free| && o < |s.free|
    requires t.free == if s.free[x] > 0 then s.free[x := s.free[x] - 1] else s.free
    requires exists k: nat :: Better(s, k, o, model, zone)
    ensures Fair(t, o, model, zone) <==>
            AheadByOne(s, o, model, zone) && forall k: nat :: Better(s, k, o, model, zone) ==> s.table[k] == x
  {
    UnfairIff(t, o, model, zone);
    if !AheadByOne(s, o, model, zone) {
      var k: nat :| Better(s, k, o, model, zone) && s.free[s.table[k]] != s.free[o] + 1;
      assert Better(t, k, o, model, zone);
    } else if k: nat :| Better(s, k, o, model, zone) && s.table[k] != x {
      assert Better(t, k, o, model, zone);
    } else {
      forall k: nat ensures !Better(t, k, o, model, zone) {
        assert Better(s, k, o, model, zone) ==> s.table[k] == x;
      }
    }
  }

  /** What an admission does to the permits and the table. */
  lemma AdmitFree(s: State, step: Step, t: State)
    requires step.Admit? && Next(s, step, t) && TableOk(s)
    ensures HasObject(s, step.r) && TableOk(t) && t.heap == s.heap && t.table == s.table
    ensures var x := s.reqs[step.r].obj.value;
            t.free == if s.free[x] > 0 then s.free[x := s.free[x] - 1] else s.free
  {
  }

  lemma DropFree(s: State, step: Step, t: State)
    requires step.DropPermit? && Next(s, step, t) && TableOk(s)
    ensures HasObject(s, step.r) && TableOk(t) && t.heap == s.heap && t.table == s.table
    ensures var x := s.reqs[step.r].obj.value; t.free == s.free[x := s.free[x] + 1]
  {
  }

  lemma DropRepairsIff(s: State, step: Step, t: State, o: nat, model: string, zone: Option<string>)
    requires step.DropPermit? && Next(s, step, t) && TableOk(s) && o < |s.free| && !Fair(s, o, model, zone)
    ensures Fair(t, o, model, zone) <==> Repairs(s, step, o, model, zone)
  {
    UnfairIff(s, o, model, zone);
    DropFree(s, step, t);
    UnfairIff(t, o, model, zone);
    var b: nat :| Better(s, b, o, model, zone);
    if s.reqs[step.r].obj != Some(o) {
      assert Better(t, b, o, model, zone);
    } else if AheadByOne(s, o, model, zone) {
      forall k: nat ensures !Better(t, k, o, model, zone) {
        assert Better(s, k, o, model, zone) ==> s.free[s.table[k]] == s.free[o] + 1;
      }
    } else {
      var k: nat :| Better(s, k, o, model, zone) && s.free[s.table[k]] != s.free[o] + 1;
      assert Better(t, k, o, model, zone);
    }
  }

  lemma PollRepairsIff(s: State, step: Step, t: State, o: nat, model: string, zone: Option<string>)
    requires step.Poll? && Next(s, step, t) && TableOk(s) && o < |s.free| && !Fair(s, o, model, zone)
    ensures Fair(t, o, model, zone) <==> Repairs(s, step, o, model, zone)
  {
    UnfairIff(s, o, model, zone);
    if step.fetched.Some? && step.fetched.value != [] {
      PolledIs(s, step, t);
      PolledTable(s, step.fetched.value, t);
      NewTableFairIff(t, step.fetched.value, o, s.free[o], model, zone);
    }
  }

  /** A step makes an unfair choice fair again if and only if it repairs it. */
  lemma StepRepairsIff(s: State, step: Step, t: State, o: nat, model: string, zone: Option<string>)
    requires Next(s, step, t) && TableOk(s) && o < |s.free| && !Fair(s, o, model, zone)
    ensures Fair(t, o, model, zone) <==> Repairs(s, step, o, model, zone)
  {
    if step.Admit? {
      AdmitRepairsIff(s, step, t, o, model, zone);
    } else if step.DropPermit? {
      DropRepairsIff(s, step, t, o, model, zone);
    } else if step.Poll? {
      PollRepairsIff(s, step, t, o, model, zone);
    } else {
      PermitsUnmoved(s, step, t);
    }
  }

  /** An undercut leaves the choice unfair, also when it already was. */
  lemma UndercutIsUnfair(s: State, step: Step, t: State, o: nat, model: string, zone: Option<string>)
    requires Next(s, step, t) && TableOk(s) && o < |s.free| && Undercuts(s, step, o, model, zone)
    ensures !Fair(t, o, model, zone)
  {
    if Fair(s, o, model, zone) {
      StepFairIff(s, step, t, o, model, zone);
    } else {
      StepRepairsIff(s, step, t, o, model, zone);
      UndercutIsNoRepair(s, step, o, model, zone);
    }
  }

  lemma UndercutIsNoRepair(s: State, step: Step, o: nat, model: string, zone: Option<string>)
    requires TableOk(s) && o < |s.free| && Undercuts(s, step, o, model, zone)
    ensures !Repairs(s, step, o, model, zone)
  {
    if k: nat :| Better(s, k, o, model, zone) {
      assert s.table[k] != o;
    }
  }

  // ---------------------------------------------------------------------
  // Over runs
  // ---------------------------------------------------------------------

  ghost function FairIn(states: seq<State>, o: nat, model: string, zone: Option<string>): nat -> bool {
    (l: nat) => l < |states| && Fair(states[l], o, model, zone)
  }

  ghost function UndercutIn(states: seq<State>, steps: seq<Step>, o: nat, model: string, zone: Option<string>)
    : nat -> bool
  {
    (l: nat) => l < |steps| && l < |states| && TableOk(states[l]) && o < |states[l].free|
                && Undercuts(states[l], steps[l], o, model, zone)
  }

  ghost function RepairIn(states: seq<State>, steps: seq<Step>, o: nat, model: string, zone: Option<string>)
    : nat -> bool
  {
    (l: nat) => l < |steps| && l < |states| && TableOk(states[l]) && o < |states[l].free|
                && Repairs(states[l], steps[l], o, model, zone)
  }

  /** How fairness moves at step `l`. */
  ghost predicate FairMoves(states: seq<State>, steps: seq<Step>, l: nat, o: nat, model: string, zone: Option<string>) {
    var good, next := FairIn(states, o, model, zone)(l), FairIn(states, o, model, zone)(l + 1);
    var bad, fix := UndercutIn(states, steps, o, model, zone)(l), RepairIn(states, steps, o, model, zone)(l);
    && (good ==> (next <==> !bad)) && (!good ==> (next <==> fix)) && (bad ==> !next) && (fix ==> !good && next)
  }

  lemma {:induction false} FairAt(states: seq<State>, steps: seq<Step>, l: nat, o: nat, model: string,
                                  zone: Option<string>)
    requires IsRun(states, steps) && l < |steps| && TableOk(states[l]) && o < |states[l].free|
    ensures FairMoves(states, steps, l, o, model, zone)
  {
    var s, step, t := states[l], steps[l], states[l + 1];
    UnfairIff(s, o, model, zone);
    if Undercuts(s, step, o, model, zone) {
      UndercutIsUnfair(s, step, t, o, model, zone);
    }
    if Fair(s, o, model, zone) {
      StepFairIff(s, step, t, o, model, zone);
    } else {
      StepRepairsIff(s, step, t, o, model, zone);
    }
  }

  /** No object is ever dropped from the heap. */
  lemma {:induction false} FreeGrows(states: seq<State>, steps: seq<Step>, i: nat, l: nat)
    requires IsRun(states, steps) && i <= l <= |steps|
    ensures |states[i].free| <= |states[l].free|
    decreases l
  {
    if i < l {
      FreeGrows(states, steps, i, l - 1);
      FreeStep(states[l - 1], steps[l - 1], states[l]);
    }
  }

  /** Every undercut between `i` and `j` is followed by a repair before `j`. */
  ghost predicate AllRepaired(states: seq<State>, steps: seq<Step>, i: nat, j: nat, o: nat, model: string,
                              zone: Option<string>) {
    forall l: nat :: i <= l < j && UndercutIn(states, steps, o, model, zone)(l) ==>
                       exists m: nat :: l < m < j && RepairIn(states, steps, o, model, zone)(m)
  }

  /** A choice that was fair at `i` is fair at `j` if and only if every undercut in between is
      followed by a repair. */
  lemma {:induction false} FairIff(states: seq<State>, steps: seq<Step>, i: nat, j: nat, o: nat, model: string,
                                   zone: Option<string>)
    requires IsRun(states, steps) && i <= j <= |steps| && Fair(states[i], o, model, zone)
    ensures Fair(states[j], o, model, zone) <==> AllRepaired(states, steps, i, j, o, model, zone)
  {
    var good := FairIn(states, o, model, zone);
    var bad, fix := UndercutIn(states, steps, o, model, zone), RepairIn(states, steps, o, model, zone);
    forall l: nat | i <= l < j
      ensures (good(l) ==> (good(l + 1) <==> !bad(l))) && (!good(l) ==> (good(l + 1) <==> fix(l)))
      ensures (bad(l) ==> !good(l + 1)) && (fix(l) ==> !good(l) && good(l + 1))
    {
      FreeGrows(states, steps, i, l);
      RunInv(states, steps, l);
      FairAt(states, steps, l, o, model, zone);
    }
    RepairedIff(good, bad, fix, i, j);
  }

  /** A selection is fair. */
  lemma SelectionIsFair(s: State, step: Step, t: State)
    requires step.SelectReplica? && Next(s, step, t) && step.r < |t.reqs| && t.reqs[step.r].phase.Selected?
    ensures step.r < |s.reqs| && t.reqs[step.r].obj.Some?
    ensures Fair(t, t.reqs[step.r].obj.value, s.reqs[step.r].model, s.reqs[step.r].zone)
  {
    SelectedIs(s, step, t);
    PermitsUnmoved(s, step, t);
    forall k: nat | k < |s.table| ensures Views(s)[k] == View(s.heap[s.table[k]], s.free[s.table[k]]) {
    }
  }

  /** Every placeable replica of the table is full. */
  ghost predicate NothingFree(s: State, model: string, zone: Option<string>) {
    TableOk(s) && forall k: nat :: k < |s.table| && Placeable(s.heap[s.table[k]], model, zone) ==>
        s.free[s.table[k]] == 0
  }

  lemma RejectedIsFull(s: State, step: Step, t: State)
    requires step.Admit? && Next(s, step, t) && t.counters.rejected > s.counters.rejected
    ensures HasObject(s, step.r) && s.free[s.reqs[step.r].obj.value] == 0 && s.reqs[step.r].phase.Selected?
  {
  }

  lemma FullAndFair(s: State, o: nat, model: string, zone: Option<string>)
    requires o < |s.free| && s.free[o] == 0
    ensures NothingFree(s, model, zone) <==> Fair(s, o, model, zone)
  {
  }

  /** The object the rejected request was given was a fair choice when it was selected. */
  lemma {:induction false} ChosenFairly(states: seq<State>, steps: seq<Step>, i: nat, j: nat, r: nat)
    requires IsRun(states, steps) && i < j < |steps| && steps[i] == SelectReplica(r) && steps[j] == Admit(r)
    requires states[j + 1].counters.rejected > states[j].counters.rejected
    ensures r < |states[i].reqs| && HasObject(states[j], r) && states[j].free[states[j].reqs[r].obj.value] == 0
    ensures Fair(states[i + 1], states[j].reqs[r].obj.value, states[i].reqs[r].model, states[i].reqs[r].zone)
  {
    RejectedIsFull(states[j], steps[j], states[j + 1]);
    SelectedSince(states, steps, i, j, r);
    SelectionIsFair(states[i], steps[i], states[i + 1]);
  }

  /** A rejection is honest, every placeable replica of the table being full, if and only if
      every step that undercut its choice since the selection was followed by a repair. */
  lemma {:induction false} RejectionHonestIff(states: seq<State>, steps: seq<Step>, i: nat, j: nat, r: nat)
    requires IsRun(states, steps) && i < j < |steps| && steps[i] == SelectReplica(r) && steps[j] == Admit(r)
    requires states[j + 1].counters.rejected > states[j].counters.rejected
    ensures r < |states[i].reqs| && HasObject(states[j], r)
    ensures NothingFree(states[j], states[i].reqs[r].model, states[i].reqs[r].zone) <==>
            AllRepaired(states, steps, i + 1, j, states[j].reqs[r].obj.value, states[i].reqs[r].model,
                        states[i].reqs[r].zone)
  {
    ChosenFairly(states, steps, i, j, r);
    HonestIffRepaired(states, steps, i + 1, j, states[j].reqs[r].obj.value, states[i].reqs[r].model,
                      states[i].reqs[r].zone);
  }

  lemma {:induction false} HonestIffRepaired(states: seq<State>, steps: seq<Step>, i: nat, j: nat, o: nat,
                                             model: string,
                                             zone: Option<string>)
    requires IsRun(states, steps) && i <= j <= |steps| && Fair(states[i], o, model, zone)
    requires o < |states[j].free| && states[j].free[o] == 0
    ensures NothingFree(states[j], model, zone) <==> AllRepaired(states, steps, i, j, o, model, zone)
  {
    FairIff(states, steps, i, j, o, model, zone);
    FullAndFair(states[j], o, model, zone);
  }

  /** Back to back, a rejection is always honest. */
  lemma {:induction false} BackToBackIsHonest(states: seq<State>, steps: seq<Step>, i: nat, r: nat)
    requires IsRun(states, steps) && i + 1 < |steps| && steps[i] == SelectReplica(r) && steps[i + 1] == Admit(r)
    requires states[i + 2].counters.rejected > states[i + 1].counters.rejected
    ensures r < |states[i].reqs| && NothingFree(states[i + 1], states[i].reqs[r].model, states[i].reqs[r].zone)
  {
    RejectionHonestIff(states, steps, i, i + 1, r);
  }
}
