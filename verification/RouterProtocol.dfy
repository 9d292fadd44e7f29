/** The request protocol of the inference router as a step system: concurrent
    requests, cancels, disconnects and hot swaps of the replica table
    (`router/src/proxy.rs`). */
module RouterProtocol {
  import opened Wrappers
  import opened Folds
  import opened Routing
  import opened RouterMetrics

  /** Where a request is. In `Arrived`, `Connecting`, `Buffering`, `Streaming`
      and `Broken` its future is suspended at an await, so the client can make
      it be dropped; the other phases run to the next one. */
  datatype Phase =
    | Arrived
    | Selected
    | Admitted
    | Connecting
    | Buffering
    | Streaming
    | Broken                    // the upstream failed mid-body and the error was yielded
    | Ending(status: MeterStatus)   // the disposition is decided
    | Counted(status: MeterStatus)  // the global counter is incremented
    | Leaving                   // only the permit and the guard remain to be dropped
    | Finished
  {
    predicate Suspended() {
      Arrived? || Connecting? || Buffering? || Streaming? || Broken?
    }

    predicate InFlight() {
      Connecting? || Buffering? || Streaming? || Broken? || Ending? || Counted?
    }
  }

  datatype Req = Req(
    id: string, model: string, zone: Option<string>, stream: bool,
    phase: Phase,
    obj: Option<nat>,       // the selected replica object
    permit: bool,           // holds a permit of `obj`
    guard: bool,            // holds the deregister guard
    usage: Option<Usage>,   // last usage seen
    broke: bool,            // the stream failed mid-body
    record: Option<Record>) // the metering record, once written

  datatype Counters = Counters(requests: nat, completed: nat, rejected: nat, cancelled: nat, upstreamError: nat,
                               starved: map<string, nat>, models: Meters)

  /** Replica objects are never destroyed: `heap[o]` and `free[o]` describe
      object `o`, and `table` lists the objects of the current inventory. */
  datatype State = State(
    heap: seq<Spec>, free: seq<nat>, table: seq<nat>,
    reqs: seq<Req>,
    registry: map<string, nat>,   // request id -> the request whose token it holds
    cancelled: set<nat>,          // requests whose token is cancelled
    counters: Counters)

  datatype Step =
    | Arrive(id: string, model: string, zone: Option<string>, stream: bool)
    | Refuse(r: nat)
    | SelectReplica(r: nat)
    | Admit(r: nat)
    | Register(r: nat)
    | UpstreamConnects(r: nat)
    | UpstreamFails(r: nat)
    | SeeCancel(r: nat)
    | BodyArrives(r: nat, usage: Option<Usage>)
    | Chunk(r: nat, usage: Option<Usage>)
    | StreamEnds(r: nat)
    | StreamBreaks(r: nat)
    | StreamResumes(r: nat)
    | Count(r: nat)
    | Observe(r: nat, started: int, now: int)
    | Disconnect(r: nat)
    | DropPermit(r: nat)
    | DropGuard(r: nat)
    | Return(r: nat)
    | NatsCancel(id: string)
    | Poll(fetched: Option<seq<ServingRunner>>)

  function Specs(configs: seq<ReplicaConfig>): (specs: seq<Spec>)
    ensures |specs| == |configs|
    ensures forall i :: 0 <= i < |specs| ==> specs[i] == SpecOfConfig(i, configs[i])
  {
    seq(|configs|, i requires 0 <= i < |configs| => SpecOfConfig(i, configs[i]))
  }

  function RunnerSpecs(servers: seq<ServingRunner>): (specs: seq<Spec>)
    ensures |specs| == |servers|
    ensures forall i :: 0 <= i < |specs| ==> specs[i] == SpecOfRunner(servers[i])
  {
    seq(|servers|, i requires 0 <= i < |servers| => SpecOfRunner(servers[i]))
  }

  function Capacities(specs: seq<Spec>): (cs: seq<nat>)
    ensures |cs| == |specs|
    ensures forall i :: 0 <= i < |cs| ==> cs[i] == specs[i].capacity
  {
    seq(|specs|, i requires 0 <= i < |specs| => specs[i].capacity)
  }

  function Range(lo: nat, n: nat): (r: seq<nat>)
    ensures |r| == n
    ensures forall i :: 0 <= i < n ==> r[i] == lo + i
  {
    seq(n, i requires 0 <= i < n => lo + i)
  }

  ghost predicate Init(s: State) {
    exists configs :: InitFrom(s, configs)
  }

  predicate InitFrom(s: State, configs: seq<ReplicaConfig>) {
    && s.heap == Specs(configs) && s.free == Capacities(s.heap) && s.table == Range(0, |configs|)
    && s.reqs == [] && s.registry == map[] && s.cancelled == {}
    && s.counters == Counters(0, 0, 0, 0, 0, map[], map[])
  }

  predicate TableOk(s: State) {
    |s.free| == |s.heap| && forall i :: 0 <= i < |s.table| ==> s.table[i] < |s.heap|
  }

  /** The current inventory as `select` sees it. */
  function Views(s: State): (vs: seq<View>)
    requires TableOk(s)
    ensures |vs| == |s.table|
    ensures forall i :: 0 <= i < |vs| ==> vs[i] == View(s.heap[s.table[i]], s.free[s.table[i]])
  {
    seq(|s.table|, i requires 0 <= i < |s.table| => View(s.heap[s.table[i]], s.free[s.table[i]]))
  }

  function With(s: State, r: nat, q: Req): State
    requires r < |s.reqs|
  {
    s.(reqs := s.reqs[r := q])
  }

  function Goto(s: State, r: nat, p: Phase): State
    requires r < |s.reqs|
  {
    With(s, r, s.reqs[r].(phase := p))
  }

  function IncStarved(c: Counters, model: string): Counters {
    c.(starved := c.starved[model := (if model in c.starved then c.starved[model] else 0) + 1])
  }

  function IncCounter(c: Counters, st: MeterStatus): Counters {
    match st
    case Completed => c.(completed := c.completed + 1)
    case Cancelled => c.(cancelled := c.cancelled + 1)
    case UpstreamError => c.(upstreamError := c.upstreamError + 1)
  }

  predicate At(s: State, r: nat, p: Phase) {
    r < |s.reqs| && s.reqs[r].phase == p
  }

  predicate HasObject(s: State, r: nat) {
    r < |s.reqs| && s.reqs[r].obj.Some? && s.reqs[r].obj.value < |s.heap| == |s.free|
  }

  function RecordOf(s: State, r: nat, started: int, now: int): Record
    requires HasObject(s, r) && s.reqs[r].phase.Counted?
  {
    var q := s.reqs[r];
    var spec := s.heap[q.obj.value];
    Finish(MeterContext(q.id, q.model, spec.id, spec.zone, started), q.usage, q.phase.status, now)
  }

  predicate Next(s: State, step: Step, t: State) {
    match step
    case Arrive(id, model, zone, stream) =>
      t == s.(reqs := s.reqs + [Req(id, model, zone, stream, Arrived, None, false, false, None, false, None)],
              counters := s.counters.(requests := s.counters.requests + 1))
    case Refuse(r) =>
      At(s, r, Arrived) && t == Goto(s, r, Finished)
    case SelectReplica(r) =>
      && At(s, r, Arrived) && TableOk(s)
      && (match Select(Views(s), s.reqs[r].model, s.reqs[r].zone)
          case To(i) => t == With(s, r, s.reqs[r].(phase := Selected, obj := Some(s.table[i])))
          case NoReplica(m) => t == Goto(s.(counters := IncStarved(s.counters, m)), r, Finished)
          case ResidencyUnsatisfiable(_, _) => t == Goto(s, r, Finished))
    case Admit(r) =>
      && At(s, r, Selected) && HasObject(s, r)
      && var o := s.reqs[r].obj.value;
         t == if s.free[o] > 0
              then With(s.(free := s.free[o := s.free[o] - 1]), r, s.reqs[r].(phase := Admitted, permit := true))
              else Goto(s.(counters := IncStarved(s.counters.(rejected := s.counters.rejected + 1),
                                                  s.reqs[r].model)), r, Finished)
    case Register(r) =>
      && At(s, r, Admitted)
      && t == With(s.(registry := s.registry[s.reqs[r].id := r]), r, s.reqs[r].(phase := Connecting, guard := true))
    case UpstreamConnects(r) =>
      At(s, r, Connecting) && t == Goto(s, r, if s.reqs[r].stream then Streaming else Buffering)
    case UpstreamFails(r) =>
      (At(s, r, Connecting) || At(s, r, Buffering)) && t == Goto(s, r, Ending(UpstreamError))
    case SeeCancel(r) =>
      && (At(s, r, Connecting) || At(s, r, Buffering) || At(s, r, Streaming)) && r in s.cancelled
      && t == Goto(s, r, Ending(Cancelled))
    case BodyArrives(r, usage) =>
      At(s, r, Buffering) && t == With(s, r, s.reqs[r].(phase := Ending(Completed), usage := usage))
    case Chunk(r, usage) =>
      && At(s, r, Streaming)
      && t == With(s, r, s.reqs[r].(usage := if usage.Some? then usage else s.reqs[r].usage))
    case StreamEnds(r) =>
      At(s, r, Streaming) && t == Goto(s, r, Ending(Completed))
    case StreamBreaks(r) =>
      && At(s, r, Streaming)
      && t == With(s.(counters := s.counters.(upstreamError := s.counters.upstreamError + 1)), r,
                   s.reqs[r].(phase := Broken, broke := true))
    case StreamResumes(r) =>
      // A broken stream falls through to the completed disposition.
      At(s, r, Broken) && t == Goto(s, r, Ending(Completed))
    case Count(r) =>
      && r < |s.reqs| && s.reqs[r].phase.Ending?
      && var st := s.reqs[r].phase.status;
         t == Goto(s.(counters := IncCounter(s.counters, st)), r, Counted(st))
    case Observe(r, started, now) =>
      && HasObject(s, r) && s.reqs[r].phase.Counted?
      && var rec := RecordOf(s, r, started, now);
         t == With(s.(counters := s.counters.(models := MetersAfter(BOUNDS, s.counters.models, rec.model,
                                                                    ObservationOf(rec)))), r,
                   s.reqs[r].(phase := Leaving, record := Some(rec)))
    case Disconnect(r) =>
      r < |s.reqs| && s.reqs[r].phase.Suspended() && t == Goto(s, r, Leaving)
    case DropPermit(r) =>
      && At(s, r, Leaving) && s.reqs[r].permit && HasObject(s, r)
      && var o := s.reqs[r].obj.value;
         t == With(s.(free := s.free[o := s.free[o] + 1]), r, s.reqs[r].(permit := false))
    case DropGuard(r) =>
      && At(s, r, Leaving) && s.reqs[r].guard
      && t == With(s.(registry := s.registry - {s.reqs[r].id}), r, s.reqs[r].(guard := false))
    case Return(r) =>
      At(s, r, Leaving) && !s.reqs[r].permit && !s.reqs[r].guard && t == Goto(s, r, Finished)
    case NatsCancel(id) =>
      t == if id in s.registry then s.(cancelled := s.cancelled + {s.registry[id]}) else s
    case Poll(fetched) =>
      t == if fetched.None? || fetched.value == [] then s
           else
             var specs := RunnerSpecs(fetched.value);
             s.(heap := s.heap + specs, free := s.free + Capacities(specs), table := Range(|s.heap|, |specs|))
  }

  /** States joined by steps, from anywhere. */
  predicate IsPath(states: seq<State>, steps: seq<Step>) {
    |states| == |steps| + 1 && forall i :: 0 <= i < |steps| ==> Next(states[i], steps[i], states[i + 1])
  }

  ghost predicate IsRun(states: seq<State>, steps: seq<Step>) {
    && |states| == |steps| + 1
    && Init(states[0])
    && forall i :: 0 <= i < |steps| ==> Next(states[i], steps[i], states[i + 1])
  }

  /** Some run ends here. */
  ghost predicate Reachable(s: State) {
    exists states, steps :: IsRun(states, steps) && states[|steps|] == s
  }

  lemma {:induction false} ReachNext(s: State, step: Step, t: State)
    requires Reachable(s) && Next(s, step, t)
    ensures Reachable(t)
  {
    var states, steps :| IsRun(states, steps) && states[|steps|] == s;
    var ss, ts := states + [t], steps + [step];
    assert IsRun(ss, ts) && ss[|ts|] == t;
  }
}
