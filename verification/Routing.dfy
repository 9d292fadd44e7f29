/** Replica selection, admission and the replica table
    (`router/src/routing.rs`, `router/src/admission.rs`, `router/src/inventory.rs`). */
module Routing {
  import opened Wrappers
  import opened Text

  /** The immutable part of a replica. */
  datatype Spec = Spec(id: string, baseUrl: string, zone: Option<string>, models: seq<string>, capacity: nat,
                       live: bool)

  /** A replica as `select` sees it: its description and its free permits now. */
  datatype View = View(spec: Spec, free: nat)

  predicate Serves(spec: Spec, model: string) {
    spec.live && model in spec.models
  }

  predicate Placeable(spec: Spec, model: string, zone: Option<string>) {
    Serves(spec, model) && (zone.Some? ==> spec.zone == zone)
  }

  datatype Route =
    | To(i: nat)
    | NoReplica(model: string)
    | ResidencyUnsatisfiable(model: string, zone: string)

  /** What a selection promises: a placeable replica with the most free permits,
      the last such one; or the exact reason there is none. */
  ghost predicate IsSelection(views: seq<View>, model: string, zone: Option<string>, r: Route) {
    match r
    case To(i) =>
      && i < |views| && Placeable(views[i].spec, model, zone)
      && forall j :: 0 <= j < |views| && Placeable(views[j].spec, model, zone) ==>
           views[j].free < views[i].free || (views[j].free == views[i].free && j <= i)
    case NoReplica(m) =>
      m == model && forall j :: 0 <= j < |views| ==> !Serves(views[j].spec, model)
    case ResidencyUnsatisfiable(m, z) =>
      && m == model && zone == Some(z)
      && (exists j :: 0 <= j < |views| && Serves(views[j].spec, model))
      && forall j :: 0 <= j < |views| ==> !Placeable(views[j].spec, model, zone)
  }

  /** The promise leaves no choice. */
  lemma SelectionUnique(views: seq<View>, model: string, zone: Option<string>, a: Route, b: Route)
    requires IsSelection(views, model, zone, a) && IsSelection(views, model, zone, b)
    ensures a == b
  {
  }

  /** The indices below `n` that pass the liveness and model filter. */
  function Serving(views: seq<View>, model: string, n: nat): (idx: seq<nat>)
    requires n <= |views|
    ensures forall k :: 0 <= k < |idx| ==> idx[k] < n && Serves(views[idx[k]].spec, model)
    ensures forall k, l :: 0 <= k < l < |idx| ==> idx[k] < idx[l]
    ensures forall j :: 0 <= j < n && Serves(views[j].spec, model) ==> j in idx
  {
    if n == 0 then [] else
    var idx, spec := Serving(views, model, n - 1), views[n - 1].spec;
    if spec.live && model in spec.models then idx + [n - 1] else idx
  }

  /** The subsequence of `idx` that passes the zone filter. */
  function InZone(views: seq<View>, idx: seq<nat>, zone: Option<string>): (ps: seq<nat>)
    requires forall k :: 0 <= k < |idx| ==> idx[k] < |views|
    requires forall k, l :: 0 <= k < l < |idx| ==> idx[k] < idx[l]
    ensures forall k :: 0 <= k < |ps| ==> ps[k] in idx && (zone.Some? ==> views[ps[k]].spec.zone == zone)
    ensures forall k, l :: 0 <= k < l < |ps| ==> ps[k] < ps[l]
    ensures forall j :: j in idx && (zone.Some? ==> views[j].spec.zone == zone) ==> j in ps
  {
    if idx == [] then [] else
    var last := idx[|idx| - 1];
    var ps := InZone(views, idx[..|idx| - 1], zone);
    if zone.Some? && views[last].spec.zone != zone then ps else ps + [last]
  }

  /** `max_by_key`: the last of the elements with the greatest key. */
  function MaxByFree(views: seq<View>, ps: seq<nat>): (i: nat)
    requires ps != []
    requires forall k :: 0 <= k < |ps| ==> ps[k] < |views|
    requires forall k, l :: 0 <= k < l < |ps| ==> ps[k] < ps[l]
    ensures i in ps
    ensures forall j :: j in ps ==> views[j].free < views[i].free || (views[j].free == views[i].free && j <= i)
  {
    var last := ps[|ps| - 1];
    if |ps| == 1 then last
    else
      var best := MaxByFree(views, ps[..|ps| - 1]);
      if views[last].free >= views[best].free then last else best
  }

  function Select(views: seq<View>, model: string, zone: Option<string>): (r: Route)
    ensures IsSelection(views, model, zone, r)
  {
    var serving := Serving(views, model, |views|);
    if serving == [] then NoReplica(model)
    else
      var placeable := InZone(views, serving, zone);
      if placeable != [] then To(MaxByFree(views, placeable))
      else
        assert Serves(views[serving[0]].spec, model);
        ResidencyUnsatisfiable(model, zone.GetOr(""))
  }

  // ---------------------------------------------------------------------
  // Inventories
  // ---------------------------------------------------------------------

  datatype ReplicaConfig = ReplicaConfig(baseUrl: string, models: seq<string>, zone: Option<string>, concurrency: nat)
  datatype ServingRunner = ServingRunner(runnerId: string, baseUrl: string, zone: Option<string>,
                                         models: seq<string>, concurrency: nat)

  /** `trim_end_matches('/')`. */
  function TrimEndSlash(s: string): (r: string)
    ensures r <= s && (r == "" || r[|r| - 1] != '/')
    ensures forall i :: |r| <= i < |s| ==> s[i] == '/'
  {
    if s != "" && s[|s| - 1] == '/' then TrimEndSlash(s[..|s| - 1]) else s
  }

  function SpecOfConfig(idx: nat, cfg: ReplicaConfig): (spec: Spec)
    ensures spec.capacity >= 1
  {
    Spec("replica-" + Decimal(idx), TrimEndSlash(cfg.baseUrl), cfg.zone, cfg.models, Max(cfg.concurrency, 1), true)
  }

  function SpecOfRunner(s: ServingRunner): (spec: Spec)
    ensures spec.capacity >= 1
  {
    Spec("runner-" + s.runnerId, TrimEndSlash(s.baseUrl), s.zone, s.models, Max(s.concurrency, 1), true)
  }

  /** The replica is live, called `id`, serves these models in this zone at this address, and
      has as many slots as the entry asks for; one if it asks for none. */
  predicate Describes(spec: Spec, id: string, baseUrl: string, zone: Option<string>, models: seq<string>,
                      concurrency: nat) {
    && spec.id == id && spec.baseUrl == TrimEndSlash(baseUrl) && spec.zone == zone && spec.models == models && spec.live
    && (concurrency > 0 ==> spec.capacity == concurrency) && (concurrency == 0 ==> spec.capacity == 1)
  }

  predicate OfConfig(spec: Spec, idx: nat, cfg: ReplicaConfig) {
    Describes(spec, "replica-" + Decimal(idx), cfg.baseUrl, cfg.zone, cfg.models, cfg.concurrency)
  }

  predicate OfRunner(spec: Spec, s: ServingRunner) {
    Describes(spec, "runner-" + s.runnerId, s.baseUrl, s.zone, s.models, s.concurrency)
  }

  // ---------------------------------------------------------------------
  // The table and its semaphores as objects
  // ---------------------------------------------------------------------

  class Semaphore {
    var available: nat

    constructor (permits: nat)
      ensures available == permits
    {
      available := permits;
    }

    /** `try_admit`: takes a permit if there is one, else changes nothing. */
    method TryAdmit() returns (admitted: bool)
      modifies this
      ensures admitted <==> old(available) > 0
      ensures available == if admitted then old(available) - 1 else old(available)
    {
      if available == 0 {
        return false;
      }
      available := available - 1;
      return true;
    }

    /** Dropping an owned permit. */
    method Release()
      modifies this
      ensures available == old(available) + 1
    {
      available := available + 1;
    }
  }

  class Replica {
    const spec: Spec
    const sem: Semaphore

    constructor (spec: Spec)
      ensures this.spec == spec && fresh(sem) && sem.available == spec.capacity
    {
      this.spec := spec;
      this.sem := new Semaphore(spec.capacity);
    }
  }

  datatype ReplicaStat = ReplicaStat(spec: Spec, inFlight: nat)

  class ReplicaTable {
    var replicas: seq<Replica>

    ghost function Sems(): set<Semaphore>
      reads this
    {
      set r | r in replicas :: r.sem
    }

    /** No two replicas share a semaphore. */
    ghost predicate Separate()
      reads this
    {
      forall i, j :: 0 <= i < j < |replicas| ==> replicas[i].sem != replicas[j].sem
    }

    function Views(): (vs: seq<View>)
      reads this, Sems()
      ensures |vs| == |replicas|
      ensures forall i :: 0 <= i < |vs| ==> vs[i] == View(replicas[i].spec, replicas[i].sem.available)
    {
      seq(|replicas|, i requires 0 <= i < |replicas| reads this,
          Sems() => View(replicas[i].spec, replicas[i].sem.available))
    }

    /** `ReplicaTable::from_config`. */
    constructor FromConfig(configs: seq<ReplicaConfig>)
      ensures |replicas| == |configs| && fresh(Sems()) && Separate()
      ensures forall i :: 0 <= i < |replicas| ==>
                && replicas[i].spec == SpecOfConfig(i, configs[i]) && OfConfig(replicas[i].spec, i, configs[i])
                && replicas[i].sem.available == replicas[i].spec.capacity
    {
      var built: seq<Replica> := [];
      for i := 0 to |configs|
        invariant |built| == i
        invariant forall k :: 0 <= k < i ==> fresh(built[k].sem)
        invariant forall k, l :: 0 <= k < l < i ==> built[k].sem != built[l].sem
        invariant forall k :: 0 <= k < i ==>
                    built[k].spec == SpecOfConfig(k, configs[k]) && built[k].sem.available == built[k].spec.capacity
      {
        var r := new Replica(SpecOfConfig(i, configs[i]));
        built := built + [r];
      }
      replicas := built;
    }

    /** One poll: a failed or empty answer keeps the table; any other answer
        replaces it with new objects whose semaphores are full. No existing
        semaphore is touched, so requests in flight keep their slots. */
    method Refresh(fetched: Option<seq<ServingRunner>>)
      modifies this
      ensures fetched.None? || fetched.value == [] ==> replicas == old(replicas)
      ensures fetched.Some? && fetched.value != [] ==>
                && |replicas| == |fetched.value| && fresh(Sems()) && Separate()
                && forall i :: 0 <= i < |replicas| ==>
                     && replicas[i].spec == SpecOfRunner(fetched.value[i]) &&
                        OfRunner(replicas[i].spec, fetched.value[i])
                     && replicas[i].sem.available == replicas[i].spec.capacity
    {
      if fetched.None? || fetched.value == [] {
        return;
      }
      var servers := fetched.value;
      var built: seq<Replica> := [];
      for i := 0 to |servers|
        invariant |built| == i
        invariant forall k :: 0 <= k < i ==> fresh(built[k].sem)
        invariant forall k, l :: 0 <= k < l < i ==> built[k].sem != built[l].sem
        invariant forall k :: 0 <= k < i ==>
                    built[k].spec == SpecOfRunner(servers[k]) && built[k].sem.available == built[k].spec.capacity
      {
        var r := new Replica(SpecOfRunner(servers[i]));
        built := built + [r];
      }
      replicas := built;
    }

    /** `select` followed by `try_admit` with nothing in between: a rejection
        means every placeable replica is full; an admission takes one permit
        from a placeable replica and from no other. */
    method SelectAndAdmit(model: string, zone: Option<string>) returns (route: Route, admitted: bool)
      modifies Sems()
      ensures IsSelection(old(Views()), model, zone, route)
      ensures !route.To? ==> !admitted
      ensures !admitted ==> forall i :: 0 <= i < |replicas| ==>
              replicas[i].sem.available == old(replicas[i].sem.available)
      ensures route.To? && !admitted ==>
                forall i :: 0 <= i < |replicas| && Placeable(replicas[i].spec, model, zone) ==>
                       old(replicas[i].sem.available) == 0
      ensures admitted ==>
                && route.i < |replicas| && Placeable(replicas[route.i].spec, model, zone)
                && replicas[route.i].sem.available == old(replicas[route.i].sem.available) - 1
      ensures forall sem :: sem in Sems() && !(admitted && sem == replicas[route.i].sem) ==>
              sem.available == old(sem.available)
    {
      var views := Views();
      route := Select(views, model, zone);
      admitted := false;
      if route.To? {
        admitted := replicas[route.i].sem.TryAdmit();
      }
      forall i | 0 <= i < |replicas| && Placeable(replicas[i].spec, model, zone)
        ensures route.To? && !admitted ==> old(replicas[i].sem.available) == 0
      {
        assert views[i].free == old(replicas[i].sem.available);
      }
    }

    /** `snapshot`: in-flight is capacity minus free permits, never negative. */
    method Snapshot() returns (stats: seq<ReplicaStat>)
      ensures |stats| == |replicas|
      ensures forall i :: 0 <= i < |stats| ==>
                stats[i].spec == replicas[i].spec &&
                stats[i].inFlight == Max(replicas[i].spec.capacity - replicas[i].sem.available, 0)
    {
      stats := [];
      for i := 0 to |replicas|
        invariant |stats| == i
        invariant forall k :: 0 <= k < i ==>
                    stats[k].spec == replicas[k].spec &&
                    stats[k].inFlight == Max(replicas[k].spec.capacity - replicas[k].sem.available, 0)
      {
        var c, free := replicas[i].spec.capacity, replicas[i].sem.available;
        stats := stats + [ReplicaStat(replicas[i].spec, if free <= c then c - free else 0)];
      }
    }
  }
}
