/** Coloured nets, their firing rule, and runs under every schedule
    (`engine/README.md`, `engine/sdk/src/context.rs`). */
module PetriNet {

  type PlaceId = string

  /** Token data: unit, or structured JSON. */
  datatype Color = Unit | Number(n: nat) | Str(s: string) | Object(fields: map<string, Color>)

  /** The fragment of the transition script language that the nets use. */
  datatype Expr = Port(name: string) | Field(port: string, field: string) | Const(value: Color) | Tagged(i: nat,
      payload: string)

  datatype Equality = Equality(left: Expr, right: Expr)

  datatype Arc = Arc(port: string, place: PlaceId)

  /** A guard is the conjunction of its equalities; `script` gives each output port's value. */
  datatype Transition = Transition(id: string, name: string, inputs: seq<Arc>, guard: seq<Equality>,
                                   outputs: seq<Arc>, script: map<string, Expr>)

  datatype Place = Place(id: PlaceId, name: string)

  datatype Seed = Seed(place: PlaceId, color: Color)

  datatype Scenario = Scenario(name: string, places: seq<Place>, transitions: seq<Transition>, seeds: seq<Seed>)

  type Marking = map<PlaceId, multiset<Color>>

  function At(m: Marking, p: PlaceId): multiset<Color> {
    if p in m then m[p] else multiset{}
  }

  // ---------------------------------------------------------------------
  // The firing rule
  // ---------------------------------------------------------------------

  /** The token bound to `port`; unit when there is no such port. */
  function Lookup(inputs: seq<Arc>, b: seq<Color>, port: string): Color
    requires |inputs| == |b|
  {
    if inputs == [] then Unit
    else if inputs[0].port == port then b[0]
    else Lookup(inputs[1..], b[1..], port)
  }

  function FieldOf(c: Color, field: string): Color {
    if c.Object? && field in c.fields then c.fields[field] else Unit
  }

  function Eval(inputs: seq<Arc>, b: seq<Color>, e: Expr): Color
    requires |inputs| == |b|
  {
    match e
    case Port(name) => Lookup(inputs, b, name)
    case Field(port, field) => FieldOf(Lookup(inputs, b, port), field)
    case Const(value) => value
    case Tagged(i, payload) => Object(map["i" := Number(i), "payload" := Lookup(inputs, b, payload)])
  }

  predicate GuardHolds(t: Transition, b: seq<Color>)
    requires |t.inputs| == |b|
  {
    forall k :: 0 <= k < |t.guard| ==> Eval(t.inputs, b, t.guard[k].left) == Eval(t.inputs, b, t.guard[k].right)
  }

  /** The tokens a binding takes from place `p`: one per input arc. */
  function Taken(inputs: seq<Arc>, b: seq<Color>, p: PlaceId): multiset<Color>
    requires |inputs| == |b|
  {
    if inputs == [] then multiset{}
    else (if inputs[0].place == p then multiset{b[0]} else multiset{}) + Taken(inputs[1..], b[1..], p)
  }

  /** The tokens a firing adds to place `p`: one per output arc. */
  function Put(t: Transition, outputs: seq<Arc>, b: seq<Color>, p: PlaceId): multiset<Color>
    requires |t.inputs| == |b|
  {
    if outputs == [] then multiset{}
    else
      var value := if outputs[0].port in t.script then Eval(t.inputs, b, t.script[outputs[0].port]) else Unit;
      (if outputs[0].place == p then multiset{value} else multiset{}) + Put(t, outputs[1..], b, p)
  }

  /** A binding chooses one present token per input arc and passes the guard. */
  ghost predicate Binds(m: Marking, t: Transition, b: seq<Color>) {
    && |b| == |t.inputs|
    && (forall p :: Taken(t.inputs, b, p) <= At(m, p))
    && GuardHolds(t, b)
  }

  function After(m: Marking, t: Transition, b: seq<Color>): Marking
    requires |b| == |t.inputs|
  {
    map p | p in m :: m[p] - Taken(t.inputs, b, p) + Put(t, t.outputs, b, p)
  }

  ghost predicate Fires(net: Scenario, m: Marking, m': Marking) {
    exists t, b :: t in net.transitions && Binds(m, t, b) && m' == After(m, t, b)
  }

  ghost predicate Quiescent(net: Scenario, m: Marking) {
    forall t, b :: t in net.transitions ==> !Binds(m, t, b)
  }

  // ---------------------------------------------------------------------
  // Runs
  // ---------------------------------------------------------------------

  function SeededAt(seeds: seq<Seed>, p: PlaceId): multiset<Color> {
    if seeds == [] then multiset{}
    else SeededAt(seeds[..|seeds| - 1], p) +
         (if seeds[|seeds| - 1].place == p then multiset{seeds[|seeds| - 1].color} else multiset{})
  }

  function Initial(net: Scenario): Marking {
    map k | 0 <= k < |net.places| :: net.places[k].id := SeededAt(net.seeds, net.places[k].id)
  }

  /** A run is the markings it passes through, whatever is fired at each step. */
  ghost predicate IsRun(net: Scenario, run: seq<Marking>) {
    && |run| >= 1 && run[0] == Initial(net)
    && forall k :: 0 < k < |run| ==> Fires(net, run[k - 1], run[k])
  }

  function Firings(run: seq<Marking>): int {
    |run| - 1
  }

  function Final(run: seq<Marking>): Marking
    requires run != []
  {
    run[|run| - 1]
  }

  /** `evaluate_with_limit`: fire until the limit is reached or nothing is enabled. */
  ghost predicate Evaluates(net: Scenario, limit: nat, run: seq<Marking>, quiescent: bool) {
    && IsRun(net, run)
    && (if quiescent then Firings(run) < limit && Quiescent(net, Final(run)) else Firings(run) == limit)
  }

  // ---------------------------------------------------------------------
  // Transitions that move one token
  // ---------------------------------------------------------------------

  predicate IsMove(t: Transition, from: PlaceId, to: PlaceId) {
    t.inputs == [Arc("inp", from)] && t.outputs == [Arc("out", to)] && t.guard == [] && "out" in t.script
  }

  function Moved(t: Transition, c: Color): Color
    requires |t.inputs| == 1 && "out" in t.script
  {
    Eval(t.inputs, [c], t.script["out"])
  }

  lemma MoveTaken(t: Transition, from: PlaceId, to: PlaceId, c: Color, p: PlaceId)
    requires IsMove(t, from, to)
    ensures Taken(t.inputs, [c], p) == if p == from then multiset{c} else multiset{}
    ensures Put(t, t.outputs, [c], p) == if p == to then multiset{Moved(t, c)} else multiset{}
  {
    assert Taken(t.inputs[1..], [c][1..], p) == multiset{};
    assert Put(t, t.outputs[1..], [c], p) == multiset{};
  }

  /** A move is enabled exactly by a token at its source. */
  lemma MoveBinds(m: Marking, t: Transition, from: PlaceId, to: PlaceId, b: seq<Color>)
    requires IsMove(t, from, to)
    ensures Binds(m, t, b) <==> |b| == 1 && b[0] in At(m, from)
  {
    if |b| == 1 {
      assert b == [b[0]];
      forall p ensures Taken(t.inputs, b, p) <= At(m, p) <==> (p == from ==> b[0] in At(m, p)) {
        MoveTaken(t, from, to, b[0], p);
      }
      if b[0] in At(m, from) {
        forall p ensures Taken(t.inputs, b, p) <= At(m, p) {
          MoveTaken(t, from, to, b[0], p);
        }
      } else {
        assert !(Taken(t.inputs, b, from) <= At(m, from));
      }
    }
  }

  /** Moving `c` from `from` to `to`, where it becomes `d`. */
  function Shift(m: Marking, from: PlaceId, to: PlaceId, c: Color, d: Color): Marking
    requires from in m
  {
    var taken := m[from := m[from] - multiset{c}];
    if to in m then taken[to := taken[to] + multiset{d}] else taken
  }

  predicate MovedTo(m: Marking, m': Marking, from: PlaceId, to: PlaceId, c: Color, d: Color) {
    from in m && c in m[from] && m' == Shift(m, from, to, c, d)
  }

  predicate Moves(t: Transition) {
    |t.inputs| == 1 && |t.outputs| == 1 && IsMove(t, t.inputs[0].place, t.outputs[0].place)
  }

  /** A net of moves can only take a step by moving a token that is there. */
  lemma MoveFires(net: Scenario, m: Marking, m': Marking) returns (t: Transition, c: Color)
    requires Fires(net, m, m')
    requires forall t :: t in net.transitions ==> Moves(t)
    ensures t in net.transitions && Moves(t)
    ensures MovedTo(m, m', t.inputs[0].place, t.outputs[0].place, c, Moved(t, c))
  {
    var b: seq<Color>;
    t, b :| t in net.transitions && Binds(m, t, b) && m' == After(m, t, b);
    c := TheToken(m, t, b);
    MoveAfterEverywhere(m, t, c);
  }

  lemma MoveAfterEverywhere(m: Marking, t: Transition, c: Color)
    requires Moves(t) && c in At(m, t.inputs[0].place)
    ensures MovedTo(m, After(m, t, [c]), t.inputs[0].place, t.outputs[0].place, c, Moved(t, c))
  {
    var from, to, d := t.inputs[0].place, t.outputs[0].place, Moved(t, c);
    var a, b := After(m, t, [c]), Shift(m, from, to, c, d);
    ShiftKeys(m, from, to, c, d);
    forall p | p in m ensures a[p] == b[p] {
      AfterIsShiftAt(m, t, c, p);
    }
    SameMarking(a, b);
  }

  lemma AfterIsShiftAt(m: Marking, t: Transition, c: Color, p: PlaceId)
    requires Moves(t) && t.inputs[0].place in m && p in m
    ensures p in Shift(m, t.inputs[0].place, t.outputs[0].place, c, Moved(t, c))
    ensures After(m, t, [c])[p] == Shift(m, t.inputs[0].place, t.outputs[0].place, c, Moved(t, c))[p]
  {
    ShiftAt(m, t.inputs[0].place, t.outputs[0].place, c, Moved(t, c), p);
    AfterAt(m, t, c, p);
  }

  lemma ShiftKeys(m: Marking, from: PlaceId, to: PlaceId, c: Color, d: Color)
    requires from in m
    ensures Shift(m, from, to, c, d).Keys == m.Keys
  {
  }

  function Single(present: bool, c: Color): multiset<Color> {
    if present then multiset{c} else multiset{}
  }

  lemma SameMarking(a: Marking, b: Marking)
    requires a.Keys == b.Keys && forall p :: p in a ==> a[p] == b[p]
    ensures a == b
  {
  }

  lemma AfterAt(m: Marking, t: Transition, c: Color, p: PlaceId)
    requires Moves(t) && p in m
    ensures After(m, t, [c])[p] ==
            m[p] - Single(p == t.inputs[0].place, c) + Single(p == t.outputs[0].place, Moved(t, c))
  {
    MoveTaken(t, t.inputs[0].place, t.outputs[0].place, c, p);
    assert Taken(t.inputs, [c], p) == Single(p == t.inputs[0].place, c);
    assert Put(t, t.outputs, [c], p) == Single(p == t.outputs[0].place, Moved(t, c));
  }

  lemma ShiftAt(m: Marking, from: PlaceId, to: PlaceId, c: Color, d: Color, p: PlaceId)
    requires from in m && p in m
    ensures Shift(m, from, to, c, d)[p] == m[p] - Single(p == from, c) + Single(p == to, d)
  {
    var taken := m[from := m[from] - multiset{c}];
    TakenAt(m, from, c, p);
    GivenAt(taken, to, d, p);
  }

  lemma GivenAt(m: Marking, to: PlaceId, d: Color, p: PlaceId)
    requires p in m
    ensures (if to in m then m[to := m[to] + multiset{d}] else m)[p] == m[p] + Single(p == to, d)
  {
    Unchanged(m[p]);
  }

  lemma TakenAt(m: Marking, from: PlaceId, c: Color, p: PlaceId)
    requires from in m && p in m
    ensures m[from := m[from] - multiset{c}][p] == m[p] - Single(p == from, c)
  {
    Unchanged(m[p]);
  }

  lemma Unchanged(s: multiset<Color>)
    ensures s - multiset{} == s && s + multiset{} == s
  {
  }

  lemma TheToken(m: Marking, t: Transition, b: seq<Color>) returns (c: Color)
    requires Moves(t) && Binds(m, t, b)
    ensures b == [c] && c in At(m, t.inputs[0].place)
  {
    MoveBinds(m, t, t.inputs[0].place, t.outputs[0].place, b);
    c := b[0];
  }

  lemma FirstStep(net: Scenario, run: seq<Marking>)
    requires IsRun(net, run) && Quiescent(net, Initial(net))
    ensures run == [Initial(net)]
  {
    assert |run| > 1 ==> Fires(net, run[0], run[1]);
  }

  lemma SeedAppend(seeds: seq<Seed>, s: Seed, p: PlaceId)
    ensures SeededAt(seeds + [s], p) == SeededAt(seeds, p) + (if s.place == p then multiset{s.color} else multiset{})
  {
    assert (seeds + [s])[..|seeds|] == seeds;
  }

  /** Whatever the limit, evaluation has an outcome. */
  lemma {:induction false} EvaluationExists(net: Scenario, limit: nat) returns (run: seq<Marking>, quiescent: bool)
    ensures Evaluates(net, limit, run, quiescent)
  {
    if limit == 0 {
      return [Initial(net)], false;
    }
    run, quiescent := EvaluationExists(net, limit - 1);
    if !quiescent {
      if Quiescent(net, Final(run)) {
        quiescent := true;
      } else {
        var t, b :| t in net.transitions && Binds(Final(run), t, b);
        assert Fires(net, Final(run), After(Final(run), t, b));
        run := run + [After(Final(run), t, b)];
      }
    }
  }

  // ---------------------------------------------------------------------
  // The builder
  // ---------------------------------------------------------------------

  /** `Context`: places, transitions and seed tokens accumulate until `Build`. */
  class Context {
    const name: string
    var places: seq<Place>
    var transitions: seq<Transition>
    var seeds: seq<Seed>

    constructor (name: string)
      ensures this.name == name && places == [] && transitions == [] && seeds == []
    {
      this.name, places, transitions, seeds := name, [], [], [];
    }

    method State(id: PlaceId, name: string) returns (handle: PlaceId)
      modifies this`places
      ensures handle == id && places == old(places) + [Place(id, name)]
    {
      places := places + [Place(id, name)];
      handle := id;
    }

    method Add(t: Transition)
      modifies this`transitions
      ensures transitions == old(transitions) + [t]
    {
      transitions := transitions + [t];
    }

    method SeedOne(place: PlaceId, color: Color)
      modifies this`seeds
      ensures seeds == old(seeds) + [Seed(place, color)]
    {
      seeds := seeds + [Seed(place, color)];
    }

    method Build() returns (net: Scenario)
      ensures net == Scenario(name, places, transitions, seeds)
    {
      net := Scenario(name, places, transitions, seeds);
    }
  }
}
