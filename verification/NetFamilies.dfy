/** The parametric benchmark nets (`engine/bench/src/generators.rs`): the
    builders, and what every firing schedule of each net does. */
module NetFamilies {
  import opened Wrappers
  import opened Text
  import opened PetriNet

  const PASSTHROUGH: map<string, Expr> := map["out" := Port("inp")]

  function Move(id: string, name: string, from: PlaceId, to: PlaceId, script: map<string, Expr>): Transition {
    Transition(id, name, [Arc("inp", from)], [], [Arc("out", to)], script)
  }

  // ---------------------------------------------------------------------
  // linear_chain
  // ---------------------------------------------------------------------

  function P(i: nat): PlaceId {
    "p" + Decimal(i)
  }

  lemma PInjective(i: nat, j: nat)
    ensures P(i) == P(j) ==> i == j
  {
    if P(i) == P(j) {
      assert P(i)[1..] == Decimal(i) && P(j)[1..] == Decimal(j);
      DecimalInjective(i, j);
    }
  }

  function ChainStage(i: nat): Place {
    Place(P(i), "P" + Decimal(i))
  }

  function ChainStep(i: nat): Transition {
    Move("t_" + Decimal(i), "T" + Decimal(i), P(i), P(i + 1), PASSTHROUGH)
  }

  function ChainNet(n: nat): Scenario {
    Scenario("linear_chain_" + Decimal(n), seq(n + 1, i requires 0 <= i => ChainStage(i)),
             seq(n, i requires 0 <= i => ChainStep(i)), [Seed(P(0), Unit)])
  }

  method LinearChain(n: nat) returns (net: Scenario)
    ensures net == ChainNet(n)
  {
    var ctx := new Context("linear_chain_" + Decimal(n));
    var places: seq<PlaceId> := [];
    for i := 0 to n + 1
      invariant |places| == i && forall k :: 0 <= k < i ==> places[k] == P(k)
      invariant ctx.places == seq(i, k requires 0 <= k => ChainStage(k))
      invariant ctx.transitions == [] && ctx.seeds == []
    {
      var place := ctx.State("p" + Decimal(i), "P" + Decimal(i));
      places := places + [place];
    }
    for i := 0 to n
      invariant ctx.places == seq(n + 1, k requires 0 <= k => ChainStage(k))
      invariant ctx.transitions == seq(i, k requires 0 <= k => ChainStep(k))
      invariant ctx.seeds == []
    {
      ctx.Add(Move("t_" + Decimal(i), "T" + Decimal(i), places[i], places[i + 1], PASSTHROUGH));
    }
    ctx.SeedOne(places[0], Unit);
    net := ctx.Build();
  }

  /** One unit token, at place `k`, and none elsewhere. */
  ghost predicate OneAt(m: Marking, n: nat, k: nat) {
    && (forall i: nat :: i <= n ==> P(i) in m)
    && (forall i: nat :: i <= n ==> At(m, P(i)) == if i == k then multiset{Unit} else multiset{})
  }

  lemma ChainInitial(n: nat)
    ensures OneAt(Initial(ChainNet(n)), n, 0)
  {
    var net := ChainNet(n);
    forall i: nat | i <= n
      ensures P(i) in Initial(net) && SeededAt(net.seeds, P(i)) == if i == 0 then multiset{Unit} else multiset{} {
      assert net.places[i].id == P(i);
      PInjective(i, 0);
      SeedAppend([], Seed(P(0), Unit), P(i));
    }
  }

  lemma ChainMoves(n: nat, t: Transition) returns (j: nat)
    requires t in ChainNet(n).transitions
    ensures j < n && Moves(t) && t.inputs[0].place == P(j) && t.outputs[0].place == P(j + 1)
    ensures forall c :: Moved(t, c) == c
  {
    j :| j < n && t == ChainStep(j);
  }

  /** From one token at `k` the only possible step moves it to `k + 1`. */
  lemma ChainFires(n: nat, m: Marking, m': Marking, k: nat)
    requires OneAt(m, n, k) && k <= n && Fires(ChainNet(n), m, m')
    ensures k < n && OneAt(m', n, k + 1)
  {
    forall t | t in ChainNet(n).transitions ensures Moves(t) {
      var j := ChainMoves(n, t);
    }
    var t, c := MoveFires(ChainNet(n), m, m');
    var j := ChainMoves(n, t);
    ChainMoveEffect(n, m, m', k, j, c);
  }

  lemma ChainMoveEffect(n: nat, m: Marking, m': Marking, k: nat, j: nat, c: Color)
    requires OneAt(m, n, k) && j < n && MovedTo(m, m', P(j), P(j + 1), c, c)
    ensures j == k && OneAt(m', n, k + 1)
  {
    assert At(m, P(j)) != multiset{};
    assert j == k && c == Unit;
    forall i: nat | i <= n ensures P(i) in m' && At(m', P(i)) == if i == k + 1 then multiset{Unit} else multiset{} {
      PInjective(i, k);
      PInjective(i, k + 1);
    }
  }

  lemma ChainQuiescentIff(n: nat, m: Marking, k: nat)
    requires OneAt(m, n, k) && k <= n
    ensures Quiescent(ChainNet(n), m) <==> k == n
  {
    var net := ChainNet(n);
    if k < n {
      var t := net.transitions[k];
      assert t == ChainStep(k) && t in net.transitions;
      MoveBinds(m, t, P(k), P(k + 1), [Unit]);
      assert Binds(m, t, [Unit]);
    } else {
      forall t, b | t in net.transitions ensures !Binds(m, t, b) {
        var j: nat :| j < n && t == ChainStep(j);
        MoveBinds(m, t, P(j), P(j + 1), b);
      }
    }
  }

  /** In every run the token is at place `j` after `j` firings. */
  lemma {:induction false} ChainRun(n: nat, run: seq<Marking>, j: nat)
    requires IsRun(ChainNet(n), run) && j < |run|
    ensures j <= n && OneAt(run[j], n, j)
  {
    if j == 0 {
      ChainInitial(n);
    } else {
      ChainRun(n, run, j - 1);
      ChainFires(n, run[j - 1], run[j], j - 1);
    }
  }

  /** `linear_chain(n)`: whatever is chosen, evaluation makes exactly `n` firings (or
      stops at the limit), and the token is at place `j` after `j` of them. */
  lemma LinearChainEvaluates(n: nat, limit: nat, run: seq<Marking>, quiescent: bool)
    requires Evaluates(ChainNet(n), limit, run, quiescent)
    ensures Firings(run) == Min(n, limit) && (quiescent <==> n < limit)
    ensures forall j :: 0 <= j < |run| ==> OneAt(run[j], n, j)
  {
    forall j: nat | j < |run| ensures j <= n && OneAt(run[j], n, j) {
      ChainRun(n, run, j);
    }
    ChainQuiescentIff(n, Final(run), |run| - 1);
  }

  // ---------------------------------------------------------------------
  // Funnels: every transition moves a token from one place to another
  // ---------------------------------------------------------------------

  ghost predicate IsFunnel(net: Scenario, src: PlaceId, dst: PlaceId) {
    && src != dst && src in Initial(net) && dst in Initial(net)
    && (forall t :: t in net.transitions ==> IsMove(t, src, dst))
    && (At(Initial(net), src) != multiset{} ==> net.transitions != [])
    && At(Initial(net), dst) == multiset{}
  }

  /** A funnel's step takes one token `c` out and puts its image in. */
  lemma FunnelFires(net: Scenario, src: PlaceId, dst: PlaceId, m: Marking, m': Marking)
    returns (t: Transition, c: Color)
    requires IsFunnel(net, src, dst) && Fires(net, m, m')
    ensures t in net.transitions && Moves(t) && MovedTo(m, m', src, dst, c, Moved(t, c))
  {
    t, c := MoveFires(net, m, m');
  }

  lemma FunnelCounts(m: Marking, m': Marking, src: PlaceId, dst: PlaceId, c: Color, d: Color)
    requires src != dst && src in m && dst in m && MovedTo(m, m', src, dst, c, d)
    ensures |At(m', src)| == |At(m, src)| - 1 && |At(m', dst)| == |At(m, dst)| + 1
    ensures At(m', src) == At(m, src) - multiset{c} && At(m', dst) == At(m, dst) + multiset{d}
  {
  }

  ghost predicate FunnelAt(m: Marking, src: PlaceId, dst: PlaceId, waiting: int, moved: int) {
    src in m && dst in m && |At(m, src)| == waiting && |At(m, dst)| == moved
  }

  lemma {:induction false} FunnelRun(net: Scenario, src: PlaceId, dst: PlaceId, run: seq<Marking>, j: nat)
    requires IsFunnel(net, src, dst) && IsRun(net, run) && j < |run|
    ensures FunnelAt(run[j], src, dst, |At(Initial(net), src)| - j, j)
  {
    if j > 0 {
      FunnelRun(net, src, dst, run, j - 1);
      FunnelStep(net, src, dst, run[j - 1], run[j], |At(Initial(net), src)| - j + 1, j - 1);
    }
  }

  lemma FunnelStep(net: Scenario, src: PlaceId, dst: PlaceId, m: Marking, m': Marking, waiting: int, moved: int)
    requires IsFunnel(net, src, dst) && Fires(net, m, m') && FunnelAt(m, src, dst, waiting, moved)
    ensures FunnelAt(m', src, dst, waiting - 1, moved + 1)
  {
    var t, c := FunnelFires(net, src, dst, m, m');
    FunnelCounts(m, m', src, dst, c, Moved(t, c));
  }

  lemma FunnelQuiescentIff(net: Scenario, src: PlaceId, dst: PlaceId, m: Marking)
    requires IsFunnel(net, src, dst) && (At(m, src) != multiset{} ==> net.transitions != [])
    ensures Quiescent(net, m) <==> At(m, src) == multiset{}
  {
    if At(m, src) != multiset{} {
      var c :| c in At(m, src);
      var t := net.transitions[0];
      MoveBinds(m, t, src, dst, [c]);
      assert Binds(m, t, [c]);
    } else {
      forall t, b | t in net.transitions ensures !Binds(m, t, b) {
        MoveBinds(m, t, src, dst, b);
      }
    }
  }

  /** Every evaluation of a funnel fires once per seeded token, or stops at the limit. */
  lemma FunnelEvaluates(net: Scenario, src: PlaceId, dst: PlaceId, limit: nat, run: seq<Marking>, quiescent: bool)
    requires IsFunnel(net, src, dst) && Evaluates(net, limit, run, quiescent)
    ensures var m := |At(Initial(net), src)|;
            && Firings(run) == Min(m, limit) && (quiescent <==> m < limit)
            && |At(Final(run), src)| == m - Firings(run) && |At(Final(run), dst)| == Firings(run)
  {
    FunnelRun(net, src, dst, run, |run| - 1);
    FunnelQuiescentIff(net, src, dst, Final(run));
  }

  // ---------------------------------------------------------------------
  // parallel_branches
  // ---------------------------------------------------------------------

  function Branch(idx: nat): Transition {
    Move("branch_" + Decimal(idx), "Branch " + Decimal(idx), "input", "output", map["out" := Tagged(idx, "inp")])
  }

  function Tag(idx: nat): Color {
    Object(map["i" := Number(idx)])
  }

  function BranchSeeds(k: nat): seq<Seed> {
    seq(k, idx requires 0 <= idx => Seed("input", Tag(idx)))
  }

  function ParallelNet(k: nat): Scenario {
    Scenario("parallel_branches_" + Decimal(k), [Place("input", "Input"), Place("output", "Output")],
             seq(k, idx requires 0 <= idx => Branch(idx)), BranchSeeds(k))
  }

  method ParallelBranches(k: nat) returns (net: Scenario)
    ensures net == ParallelNet(k)
  {
    var ctx := new Context("parallel_branches_" + Decimal(k));
    var input := ctx.State("input", "Input");
    var output := ctx.State("output", "Output");
    for idx := 0 to k
      invariant ctx.places == [Place("input", "Input"), Place("output", "Output")] && ctx.seeds == []
      invariant ctx.transitions == seq(idx, i requires 0 <= i => Branch(i))
    {
      ctx.Add(Move("branch_" + Decimal(idx), "Branch " + Decimal(idx), input, output,
                   map["out" := Tagged(idx, "inp")]));
    }
    for idx := 0 to k
      invariant ctx.places == [Place("input", "Input"), Place("output", "Output")]
      invariant ctx.transitions == seq(k, i requires 0 <= i => Branch(i))
      invariant ctx.seeds == BranchSeeds(idx)
    {
      ctx.SeedOne(input, Tag(idx));
    }
    net := ctx.Build();
  }

  /** The seeded tokens, one per branch index. */
  function Tags(k: nat): multiset<Color> {
    if k == 0 then multiset{} else Tags(k - 1) + multiset{Tag(k - 1)}
  }

  lemma BranchSeedsGrow(k: nat)
    requires k > 0
    ensures BranchSeeds(k) == BranchSeeds(k - 1) + [Seed("input", Tag(k - 1))]
  {
  }

  lemma TagsGrow(k: nat)
    requires k > 0
    ensures Tags(k) == Tags(k - 1) + multiset{Tag(k - 1)} && |Tags(k)| == |Tags(k - 1)| + 1
  {
  }

  lemma {:induction false} TagsSeeded(k: nat)
    ensures SeededAt(BranchSeeds(k), "input") == Tags(k) && |Tags(k)| == k
  {
    if k > 0 {
      TagsSeeded(k - 1);
      BranchSeedsGrow(k);
      SeedAppend(BranchSeeds(k - 1), Seed("input", Tag(k - 1)), "input");
      TagsGrow(k);
    }
  }

  lemma {:induction false} OutputUnseeded(k: nat)
    ensures SeededAt(BranchSeeds(k), "output") == multiset{}
  {
    if k > 0 {
      OutputUnseeded(k - 1);
      BranchSeedsGrow(k);
      SeedAppend(BranchSeeds(k - 1), Seed("input", Tag(k - 1)), "output");
      Unchanged(SeededAt(BranchSeeds(k - 1), "output"));
    }
  }

  lemma ParallelIsFunnel(k: nat)
    ensures IsFunnel(ParallelNet(k), "input", "output") && At(Initial(ParallelNet(k)), "input") == Tags(k)
  {
    TagsSeeded(k);
    OutputUnseeded(k);
    TwoPlaces(ParallelNet(k), "input", "output");
    BranchesMove(k);
    assert |ParallelNet(k).transitions| == k;
  }

  lemma BranchesMove(k: nat)
    ensures forall t :: t in ParallelNet(k).transitions ==> IsMove(t, "input", "output")
  {
    forall t | t in ParallelNet(k).transitions ensures IsMove(t, "input", "output") {
      var i: nat :| i < k && t == Branch(i);
    }
  }

  lemma TwoPlaces(net: Scenario, a: PlaceId, b: PlaceId)
    requires |net.places| == 2 && net.places[0].id == a && net.places[1].id == b && a != b
    ensures a in Initial(net) && b in Initial(net)
    ensures At(Initial(net), a) == SeededAt(net.seeds, a) && At(Initial(net), b) == SeededAt(net.seeds, b)
  {
  }

  function Payload(c: Color): Color {
    FieldOf(c, "payload")
  }

  /** The payloads of a multiset of tokens, with multiplicity. */
  ghost function Payloads(s: multiset<Color>): multiset<Color> {
    if s == multiset{} then multiset{} else
    var c :| c in s;
    multiset{Payload(c)} + Payloads(s - multiset{c})
  }

  /** The payloads do not depend on the order they are taken in. */
  lemma {:induction false} PayloadsRemove(s: multiset<Color>, c: Color)
    requires c in s
    ensures Payloads(s) == multiset{Payload(c)} + Payloads(s - multiset{c})
    decreases |s|
  {
    var d :| d in s && Payloads(s) == multiset{Payload(d)} + Payloads(s - multiset{d});
    if d != c {
      TakeTwo(s, c, d);
      PayloadsRemove(s - multiset{d}, c);
      PayloadsRemove(s - multiset{c}, d);
      AddTwo(Payload(c), Payload(d), Payloads(s - multiset{c} - multiset{d}));
    }
  }

  lemma TakeTwo(s: multiset<Color>, c: Color, d: Color)
    requires c in s && d in s && c != d
    ensures s - multiset{d} - multiset{c} == s - multiset{c} - multiset{d}
    ensures c in s - multiset{d} && d in s - multiset{c}
  {
  }

  lemma AddTwo(c: Color, d: Color, s: multiset<Color>)
    ensures multiset{c} + (multiset{d} + s) == multiset{d} + (multiset{c} + s)
  {
  }

  lemma PayloadsAdd(s: multiset<Color>, c: Color)
    ensures Payloads(s + multiset{c}) == Payloads(s) + multiset{Payload(c)}
  {
    PayloadsRemove(s + multiset{c}, c);
    assert s + multiset{c} - multiset{c} == s;
  }

  /** In every run, the payloads that arrived and the tokens that wait are the seeded ones. */
  lemma {:induction false} ParallelPayloads(k: nat, run: seq<Marking>, j: nat)
    requires IsRun(ParallelNet(k), run) && j < |run|
    ensures Accounted(k, run[j])
  {
    if j == 0 {
      ParallelIsFunnel(k);
      assert Payloads(multiset{}) == multiset{};
      assert multiset{} + Tags(k) == Tags(k);
    } else {
      ParallelPayloads(k, run, j - 1);
      ParallelStep(k, run[j - 1], run[j]);
    }
  }

  ghost predicate Accounted(k: nat, m: Marking) {
    "input" in m && "output" in m && Payloads(At(m, "output")) + At(m, "input") == Tags(k)
  }

  lemma ParallelStep(k: nat, m: Marking, m': Marking)
    requires Fires(ParallelNet(k), m, m') && Accounted(k, m)
    ensures Accounted(k, m')
  {
    ParallelIsFunnel(k);
    var t, c := FunnelFires(ParallelNet(k), "input", "output", m, m');
    BranchMoves(k, t, c);
    FunnelCounts(m, m', "input", "output", c, Moved(t, c));
    PayloadsAdd(At(m, "output"), Moved(t, c));
    Exchange(Payloads(At(m, "output")), At(m, "input"), c);
  }

  lemma Exchange(a: multiset<Color>, b: multiset<Color>, c: Color)
    requires c in b
    ensures a + multiset{c} + (b - multiset{c}) == a + b
  {
  }

  lemma BranchMoves(k: nat, t: Transition, c: Color)
    requires t in ParallelNet(k).transitions
    ensures |t.inputs| == 1 && "out" in t.script && Payload(Moved(t, c)) == c
    ensures exists i: nat :: i < k && FieldOf(Moved(t, c), "i") == Number(i)
  {
    var i: nat :| i < k && t == Branch(i);
    assert Moved(t, c) == Object(map["i" := Number(i), "payload" := c]);
  }

  /** `parallel_branches(k)`: every evaluation with room for `k` firings stops after exactly
      `k`, with every token moved and the payloads a permutation of the seeds. */
  lemma ParallelEvaluates(k: nat, limit: nat, run: seq<Marking>, quiescent: bool)
    requires Evaluates(ParallelNet(k), limit, run, quiescent)
    ensures Firings(run) == Min(k, limit) && (quiescent <==> k < limit)
    ensures Payloads(At(Final(run), "output")) + At(Final(run), "input") == Tags(k)
    ensures k <= limit ==> At(Final(run), "input") == multiset{} && Payloads(At(Final(run), "output")) == Tags(k)
  {
    ParallelIsFunnel(k);
    TagsSeeded(k);
    FunnelEvaluates(ParallelNet(k), "input", "output", limit, run, quiescent);
    ParallelPayloads(k, run, |run| - 1);
  }

  // ---------------------------------------------------------------------
  // token_fanin
  // ---------------------------------------------------------------------

  function UnitSeeds(m: nat): seq<Seed> {
    seq(m, i => Seed("src", Unit))
  }

  function FaninNet(m: nat): Scenario {
    Scenario("token_fanin_" + Decimal(m), [Place("src", "Src"), Place("sink", "Sink")],
             [Move("drain", "Drain", "src", "sink", PASSTHROUGH)], UnitSeeds(m))
  }

  method TokenFanin(m: nat) returns (net: Scenario)
    ensures net == FaninNet(m)
  {
    var ctx := new Context("token_fanin_" + Decimal(m));
    var src := ctx.State("src", "Src");
    var sink := ctx.State("sink", "Sink");
    ctx.Add(Move("drain", "Drain", src, sink, PASSTHROUGH));
    for i := 0 to m
      invariant ctx.places == [Place("src", "Src"), Place("sink", "Sink")]
      invariant ctx.transitions == [Move("drain", "Drain", "src", "sink", PASSTHROUGH)]
      invariant ctx.seeds == UnitSeeds(i)
    {
      ctx.SeedOne(src, Unit);
    }
    net := ctx.Build();
  }

  function Units(m: nat): multiset<Color> {
    multiset{}[Unit := m]
  }

  lemma {:induction false} UnitsSeeded(m: nat)
    ensures SeededAt(UnitSeeds(m), "src") == Units(m) && SeededAt(UnitSeeds(m), "sink") == multiset{}
  {
    if m > 0 {
      UnitsSeeded(m - 1);
      assert UnitSeeds(m) == UnitSeeds(m - 1) + [Seed("src", Unit)];
      SeedAppend(UnitSeeds(m - 1), Seed("src", Unit), "src");
      SeedAppend(UnitSeeds(m - 1), Seed("src", Unit), "sink");
      UnitsAdd(m - 1);
    }
  }

  lemma FaninIsFunnel(m: nat)
    ensures IsFunnel(FaninNet(m), "src", "sink") && At(Initial(FaninNet(m)), "src") == Units(m)
  {
    UnitsSeeded(m);
    TwoPlaces(FaninNet(m), "src", "sink");
  }

  ghost predicate Drained(m: nat, a: Marking, j: nat) {
    "src" in a && "sink" in a && j <= m && At(a, "src") == Units(m - j) && At(a, "sink") == Units(j)
  }

  lemma {:induction false} FaninRun(m: nat, run: seq<Marking>, j: nat)
    requires IsRun(FaninNet(m), run) && j < |run|
    ensures Drained(m, run[j], j)
  {
    if j == 0 {
      FaninIsFunnel(m);
    } else {
      FaninRun(m, run, j - 1);
      FaninStep(m, run[j - 1], run[j], j - 1);
    }
  }

  lemma FaninStep(m: nat, a: Marking, b: Marking, j: nat)
    requires Fires(FaninNet(m), a, b) && Drained(m, a, j)
    ensures Drained(m, b, j + 1)
  {
    var c := FaninMoves(m, a, b);
    FunnelCounts(a, b, "src", "sink", c, c);
    UnitsStep(m - j, c);
    UnitsAdd(j);
  }

  lemma FaninMoves(m: nat, a: Marking, b: Marking) returns (c: Color)
    requires Fires(FaninNet(m), a, b)
    ensures MovedTo(a, b, "src", "sink", c, c)
  {
    var t;
    FaninIsFunnel(m);
    t, c := FunnelFires(FaninNet(m), "src", "sink", a, b);
    assert t == Move("drain", "Drain", "src", "sink", PASSTHROUGH);
    assert Moved(t, c) == c;
  }

  lemma UnitsAdd(n: nat)
    ensures Units(n) + multiset{Unit} == Units(n + 1)
  {
  }

  lemma UnitsStep(n: nat, c: Color)
    requires c in Units(n)
    ensures c == Unit && n > 0 && Units(n) - multiset{c} == Units(n - 1)
  {
  }

  /** `token_fanin(m)`: exactly `m` firings under every schedule, all tokens moved. */
  lemma FaninEvaluates(m: nat, limit: nat, run: seq<Marking>, quiescent: bool)
    requires Evaluates(FaninNet(m), limit, run, quiescent)
    ensures Firings(run) == Min(m, limit) && (quiescent <==> m < limit)
    ensures At(Final(run), "src") == Units(m - Firings(run)) && At(Final(run), "sink") == Units(Firings(run))
  {
    FaninIsFunnel(m);
    FunnelEvaluates(FaninNet(m), "src", "sink", limit, run, quiescent);
    FaninRun(m, run, |run| - 1);
    assert |Units(m)| == m;
  }

  // ---------------------------------------------------------------------
  // self_loop
  // ---------------------------------------------------------------------

  function LoopNet(): Scenario {
    Scenario("self_loop", [Place("loop", "Loop")], [Move("spin", "Spin", "loop", "loop", PASSTHROUGH)],
             [Seed("loop", Unit)])
  }

  method SelfLoop() returns (net: Scenario)
    ensures net == LoopNet()
  {
    var ctx := new Context("self_loop");
    var place := ctx.State("loop", "Loop");
    ctx.Add(Move("spin", "Spin", place, place, PASSTHROUGH));
    ctx.SeedOne(place, Unit);
    net := ctx.Build();
  }

  lemma {:induction false} LoopRun(run: seq<Marking>, j: nat)
    requires IsRun(LoopNet(), run) && j < |run|
    ensures "loop" in run[j] && At(run[j], "loop") == multiset{Unit}
  {
    if j == 0 {
      SeedAppend([], Seed("loop", Unit), "loop");
      assert LoopNet().places[0].id == "loop";
    } else {
      LoopRun(run, j - 1);
      LoopStep(run[j - 1], run[j]);
    }
  }

  lemma LoopStep(m: Marking, m': Marking)
    requires Fires(LoopNet(), m, m') && "loop" in m && At(m, "loop") == multiset{Unit}
    ensures "loop" in m' && At(m', "loop") == multiset{Unit}
  {
    var t, c := MoveFires(LoopNet(), m, m');
    assert t == Move("spin", "Spin", "loop", "loop", PASSTHROUGH);
    assert Moved(t, c) == c;
  }

  /** `self_loop` never stops by itself: under limit `n` it fires exactly `n` times. */
  lemma LoopEvaluates(limit: nat, run: seq<Marking>, quiescent: bool)
    requires Evaluates(LoopNet(), limit, run, quiescent)
    ensures Firings(run) == limit && !quiescent && At(Final(run), "loop") == multiset{Unit}
  {
    LoopRun(run, |run| - 1);
    var t := LoopNet().transitions[0];
    MoveBinds(Final(run), t, "loop", "loop", [Unit]);
    assert Binds(Final(run), t, [Unit]);
  }

  // ---------------------------------------------------------------------
  // binding
  // ---------------------------------------------------------------------

  function In(p: nat): PlaceId {
    "in" + Decimal(p)
  }

  function Key(p: nat, j: nat): string {
    Decimal(p) + "-" + Decimal(j)
  }

  /** Keys are namespaced: they determine the place and the token. */
  lemma KeyInjective(p: nat, j: nat, p': nat, j': nat)
    requires Key(p, j) == Key(p', j')
    ensures p == p' && j == j'
  {
    SplitConcat(Decimal(p), Decimal(j), '-');
    SplitConcat(Decimal(p'), Decimal(j'), '-');
    DecimalAtom(p);
    DecimalAtom(j);
    DecimalAtom(p');
    DecimalAtom(j');
    var parts := Split(Key(p, j), '-');
    assert parts == [Decimal(p)] + [Decimal(j)] && parts == [Decimal(p')] + [Decimal(j')];
    assert parts[0] == Decimal(p) == Decimal(p') && parts[1] == Decimal(j) == Decimal(j');
    DecimalInjective(p, p');
    DecimalInjective(j, j');
  }

  lemma DecimalAtom(n: nat)
    ensures Split(Decimal(n), '-') == [Decimal(n)]
  {
    SplitAtom(Decimal(n), '-');
  }

  lemma KeyIsNotNever(p: nat, j: nat)
    ensures Key(p, j) != "__never__"
  {
    assert '0' <= Key(p, j)[0] <= '9';
  }

  function Keyed(p: nat, j: nat): Color {
    Object(map["key" := Str(Key(p, j))])
  }

  function KeyOf(p: nat): Expr {
    Field(P(p), "key")
  }

  function Correlate(p: nat): Equality {
    Equality(KeyOf(p), KeyOf(p + 1))
  }

  function BindingGuard(arity: nat): seq<Equality>
    requires arity >= 1
  {
    if arity == 1 then [Equality(KeyOf(0), Const(Str("__never__")))]
    else seq(arity - 1, p requires 0 <= p => Correlate(p))
  }

  function Ports(arity: nat): seq<Arc> {
    seq(arity, p requires 0 <= p => Arc(P(p), In(p)))
  }

  function Match(arity: nat): Transition
    requires arity >= 1
  {
    Transition("match", "Match", Ports(arity), BindingGuard(arity), [Arc("out", "out")], map["out" := Port("p0")])
  }

  function KeySeeds(p: nat, m: nat): seq<Seed> {
    seq(m, j requires 0 <= j => Seed(In(p), Keyed(p, j)))
  }

  function AllKeySeeds(arity: nat, m: nat): seq<Seed> {
    if arity == 0 then [] else AllKeySeeds(arity - 1, m) + KeySeeds(arity - 1, m)
  }

  function BindingPlaces(arity: nat): seq<Place> {
    seq(arity, p requires 0 <= p => Place(In(p), "In" + Decimal(p))) + [Place("out", "Out")]
  }

  function BindingNet(arity: nat, m: nat): Scenario
    requires arity >= 1
  {
    Scenario("binding_a" + Decimal(arity) + "_m" + Decimal(m), BindingPlaces(arity), [Match(arity)],
             AllKeySeeds(arity, m))
  }

  method BindingBuilder(arity: nat, m: nat) returns (net: Scenario)
    requires arity >= 1
    ensures net == BindingNet(arity, m)
  {
    var ctx := new Context("binding_a" + Decimal(arity) + "_m" + Decimal(m));
    var inputs: seq<PlaceId> := [];
    for p := 0 to arity
      invariant |inputs| == p && forall k :: 0 <= k < p ==> inputs[k] == In(k)
      invariant ctx.places == seq(p, k requires 0 <= k => Place(In(k), "In" + Decimal(k)))
      invariant ctx.transitions == [] && ctx.seeds == []
    {
      var place := ctx.State("in" + Decimal(p), "In" + Decimal(p));
      inputs := inputs + [place];
    }
    var out := ctx.State("out", "Out");
    var arcs: seq<Arc> := [];
    for p := 0 to arity
      invariant arcs == Ports(p)
    {
      arcs := arcs + [Arc("p" + Decimal(p), inputs[p])];
    }
    ctx.Add(Transition("match", "Match", arcs, BindingGuard(arity), [Arc("out", out)], map["out" := Port("p0")]));
    for p := 0 to arity
      invariant ctx.places == BindingPlaces(arity) && ctx.transitions == [Match(arity)]
      invariant ctx.seeds == AllKeySeeds(p, m)
    {
      for j := 0 to m
        invariant ctx.places == BindingPlaces(arity) && ctx.transitions == [Match(arity)]
        invariant ctx.seeds == AllKeySeeds(p, m) + KeySeeds(p, j)
      {
        ctx.SeedOne(inputs[p], Keyed(p, j));
      }
    }
    net := ctx.Build();
  }

  lemma InInjective(p: nat, q: nat)
    ensures In(p) == In(q) ==> p == q
  {
    if In(p) == In(q) {
      assert In(p)[2..] == Decimal(p) && In(q)[2..] == Decimal(q);
      DecimalInjective(p, q);
    }
  }

  ghost predicate IsKeyOf(c: Color, p: nat, m: nat) {
    exists j: nat :: j < m && c == Keyed(p, j)
  }

  /** A token seeded at input place `p` carries a key of that place. */
  lemma {:induction false} SeededKeys(arity: nat, m: nat, p: nat, c: Color)
    requires c in SeededAt(AllKeySeeds(arity, m), In(p))
    ensures IsKeyOf(c, p, m)
  {
    if arity > 0 {
      SeededKeysHere(arity - 1, m, m, p, c);
      if c in SeededAt(AllKeySeeds(arity - 1, m), In(p)) {
        SeededKeys(arity - 1, m, p, c);
      }
    }
  }

  lemma KeySeedsStep(before: seq<Seed>, q: nat, j: nat, p: nat)
    ensures SeededAt(before + KeySeeds(q, j + 1), In(p)) ==
            SeededAt(before + KeySeeds(q, j), In(p)) + (if In(q) == In(p) then multiset{Keyed(q, j)} else multiset{})
  {
    assert before + KeySeeds(q, j + 1) == before + KeySeeds(q, j) + [Seed(In(q), Keyed(q, j))];
    SeedAppend(before + KeySeeds(q, j), Seed(In(q), Keyed(q, j)), In(p));
  }

  lemma {:induction false} SeededKeysHere(q: nat, m: nat, j: nat, p: nat, c: Color)
    requires c in SeededAt(AllKeySeeds(q, m) + KeySeeds(q, j), In(p))
    ensures c in SeededAt(AllKeySeeds(q, m), In(p)) || IsKeyOf(c, p, j)
  {
    if j == 0 {
      assert AllKeySeeds(q, m) + KeySeeds(q, 0) == AllKeySeeds(q, m);
    } else {
      var before := AllKeySeeds(q, m) + KeySeeds(q, j - 1);
      KeySeedsStep(AllKeySeeds(q, m), q, j - 1, p);
      if c in SeededAt(before, In(p)) {
        SeededKeysHere(q, m, j - 1, p, c);
      } else {
        InInjective(p, q);
        assert c == Keyed(p, j - 1);
      }
    }
  }

  /** Port `p{i}` reads the token bound on the i-th arc. */
  lemma {:induction false} PortLookup(arity: nat, b: seq<Color>, from: nat, i: nat)
    requires |b| == arity && from <= i < arity
    ensures Lookup(Ports(arity)[from..], b[from..], P(i)) == b[i]
    decreases arity - from
  {
    var ports := Ports(arity);
    assert ports[from] == Arc(P(from), In(from));
    PInjective(from, i);
    if from < i {
      PortLookup(arity, b, from + 1, i);
      assert ports[from..][1..] == ports[from + 1..] && b[from..][1..] == b[from + 1..];
    }
  }

  lemma PortReads(arity: nat, b: seq<Color>, i: nat)
    requires |b| == arity && i < arity
    ensures Eval(Ports(arity), b, KeyOf(i)) == FieldOf(b[i], "key")
  {
    PortLookup(arity, b, 0, i);
    assert Ports(arity)[0..] == Ports(arity) && b[0..] == b;
  }

  /** No tuple of the cross product passes the guard. */
  lemma GuardNeverHolds(arity: nat, m: nat, b: seq<Color>)
    requires arity >= 1 && |b| == arity
    requires forall p: nat :: p < arity ==> IsKeyOf(b[p], p, m)
    ensures !GuardHolds(Match(arity), b)
  {
    assert IsKeyOf(b[0], 0, m);
    var j0: nat :| j0 < m && b[0] == Keyed(0, j0);
    PortReads(arity, b, 0);
    var g := Match(arity).guard[0];
    if arity == 1 {
      KeyIsNotNever(0, j0);
      assert Eval(Ports(arity), b, g.left) != Eval(Ports(arity), b, g.right);
    } else {
      assert IsKeyOf(b[1], 1, m);
      var j1: nat :| j1 < m && b[1] == Keyed(1, j1);
      PortReads(arity, b, 1);
      assert g == Correlate(0);
      if Key(0, j0) == Key(1, j1) {
        KeyInjective(0, j0, 1, j1);
      }
      assert Eval(Ports(arity), b, g.left) != Eval(Ports(arity), b, g.right);
    }
  }

  /** A bound token is taken from its arc's place. */
  lemma {:induction false} TakenAt(inputs: seq<Arc>, b: seq<Color>, i: nat)
    requires |inputs| == |b| && i < |b|
    ensures b[i] in Taken(inputs, b, inputs[i].place)
  {
    if i > 0 {
      TakenAt(inputs[1..], b[1..], i - 1);
    }
  }

  lemma BindingInitial(arity: nat, m: nat, p: nat)
    requires arity >= 1
    ensures At(Initial(BindingNet(arity, m)), In(p)) <= SeededAt(AllKeySeeds(arity, m), In(p))
  {
  }

  /** `binding(a, m)` is quiescent from the start, for every arity and every number of tokens. */
  lemma BindingNeverEnabled(arity: nat, m: nat)
    requires arity >= 1
    ensures Quiescent(BindingNet(arity, m), Initial(BindingNet(arity, m)))
  {
    var net := BindingNet(arity, m);
    var start := Initial(net);
    forall t, b | t in net.transitions && |b| == |t.inputs| && forall p :: Taken(t.inputs, b, p) <= At(start, p)
      ensures !GuardHolds(t, b)
    {
      forall p: nat | p < arity ensures IsKeyOf(b[p], p, m) {
        TakenAt(t.inputs, b, p);
        assert t.inputs[p].place == In(p);
        BindingInitial(arity, m, p);
        SeededKeys(arity, m, p, b[p]);
      }
      GuardNeverHolds(arity, m, b);
    }
  }

  /** So every evaluation makes no firing at all. */
  lemma BindingEvaluates(arity: nat, m: nat, limit: nat, run: seq<Marking>, quiescent: bool)
    requires arity >= 1 && Evaluates(BindingNet(arity, m), limit, run, quiescent)
    ensures run == [Initial(BindingNet(arity, m))] && (quiescent <==> limit > 0)
  {
    BindingNeverEnabled(arity, m);
    FirstStep(BindingNet(arity, m), run);
  }
}
