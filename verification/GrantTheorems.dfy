/** What a runner's grants cover, and what they keep out of reach. */
module GrantTheorems {
  import opened Wrappers
  import opened Text
  import opened RunnerGrants

  ghost predicate AllDotFree(gs: seq<Pattern>) {
    forall i :: 0 <= i < |gs| ==> DotFree(gs[i])
  }

  /** Some grant of the list matches the tokens. */
  ghost predicate Grants(gs: seq<Pattern>, s: seq<string>) {
    exists i :: 0 <= i < |gs| && MatchTokens(gs[i], s)
  }

  lemma AllowedIffGrants(gs: seq<Pattern>, subject: string)
    requires AllDotFree(gs)
    ensures Allowed(Render(gs), subject) <==> Grants(gs, Split(subject, '.'))
  {
    forall i | 0 <= i < |gs| ensures Matches(Render(gs)[i], subject) <==> MatchTokens(gs[i], Split(subject, '.')) {
      MatchesIsTokens(gs[i], subject);
    }
    if Grants(gs, Split(subject, '.')) {
      var i :| 0 <= i < |gs| && MatchTokens(gs[i], Split(subject, '.'));
      assert Matches(Render(gs)[i], subject);
    }
  }

  // ---------------------------------------------------------------------
  // The tokens hold no separators
  // ---------------------------------------------------------------------

  lemma NameHasNoDot(t: string)
    requires IsName(t)
    ensures '.' !in t && Plain(t) && t != "$JS"
  {
    assert NameChar(t[0]);
  }

  lemma LaneNames(prio: string, runner: string)
    requires prio in PRIORITIES && IsName(runner)
    ensures IsName(Stream(NAMESPACE, prio)) && IsName(Durable(NAMESPACE, prio, runner))
  {
    var stream, durable := Stream(NAMESPACE, prio), Durable(NAMESPACE, prio, runner);
    forall i | 0 <= i < |stream| ensures NameChar(stream[i]) {
      assert stream == "runner-jobs_high" || stream == "runner-jobs_medium" || stream == "runner-jobs_low";
    }
    forall i | 0 <= i < |durable| ensures NameChar(durable[i]) {
      var n := |stream| + 1;
      assert durable[i] == if i < |stream| then stream[i] else if i < n then '_' else if i < n + |runner|
             then runner[i - n] else "_consumer"[i - n - |runner|];
    }
  }

  // ---------------------------------------------------------------------
  // What kinds of grants there are
  // ---------------------------------------------------------------------

  datatype Kind = Outside | Admin(verb: string, stream: string) | Job(op: Op, prio: string) | CancelConsumer(next: bool)

  /** Streams whose configuration a runner may create or update. */
  predicate IsSharedStream(stream: string) {
    stream in SHARED_STREAMS || stream == CANCEL_STREAM
  }

  ghost predicate IsKind(g: Pattern, runner: string, k: Kind) {
    DotFree(g) &&
    match k
    case Outside => Plain(g[0]) && g[0] != "$JS"
    case Admin(verb, stream) =>
      && g == StreamOp(verb, stream) && Plain(stream)
      && (verb == "INFO" || ((verb == "CREATE" || verb == "UPDATE") && IsSharedStream(stream)))
    case Job(op, prio) => prio in PRIORITIES && g == JobGrant(op, prio, runner)
    case CancelConsumer(next) =>
      if next then g == ["$JS", "API", "CONSUMER", "MSG", "NEXT", CANCEL_STREAM, ">"]
      else
        || g == ["$JS", "API", "CONSUMER", "CREATE", CANCEL_STREAM]
        || g == ["$JS", "API", "CONSUMER", "CREATE", CANCEL_STREAM, ">"]
        || g == ["$JS", "API", "CONSUMER", "INFO", CANCEL_STREAM, ">"]
  }

  /** A grant of a runner's own pull consumer on one lane. */
  function JobGrant(op: Op, prio: string, runner: string): Pattern {
    ConsumerGrant(op, Stream(NAMESPACE, prio), Durable(NAMESPACE, prio, runner))
  }

  lemma HeadTokens(op: Op)
    ensures DotFree(Head(op)) && forall i :: 0 <= i < |Head(op)| ==> Plain(Head(op)[i])
  {
  }

  lemma JobGrantDotFree(op: Op, prio: string, runner: string)
    requires prio in PRIORITIES && IsName(runner)
    ensures DotFree(JobGrant(op, prio, runner))
  {
    HeadTokens(op);
    LaneNames(prio, runner);
    NameHasNoDot(Stream(NAMESPACE, prio));
    NameHasNoDot(Durable(NAMESPACE, prio, runner));
  }

  lemma AdminDotFree(verb: string, stream: string)
    requires '.' !in verb && '.' !in stream
    ensures DotFree(StreamOp(verb, stream))
  {
  }

  lemma LaneKind(g: Pattern, prio: string, runner: string) returns (k: Kind)
    requires prio in PRIORITIES && IsName(runner) && g in LaneGrants(NAMESPACE, prio, runner)
    ensures IsKind(g, runner, k)
  {
    var stream, durable := Stream(NAMESPACE, prio), Durable(NAMESPACE, prio, runner);
    LaneNames(prio, runner);
    NameHasNoDot(stream);
    if g == StreamOp("INFO", stream) {
      AdminDotFree("INFO", stream);
      return Admin("INFO", stream);
    }
    var op := if g == ConsumerGrant(Create, stream, durable) then Create
              else if g == ConsumerGrant(CreateFiltered, stream, durable) then CreateFiltered
              else if g == ConsumerGrant(DurableCreate, stream, durable) then DurableCreate
              else if g == ConsumerGrant(Info, stream, durable) then Info
              else if g == ConsumerGrant(Next, stream, durable) then Next
              else Ack;
    JobGrantDotFree(op, prio, runner);
    k := Job(op, prio);
  }

  lemma LanesAre(runner: string)
    ensures LanesUpTo(NAMESPACE, runner, 3) ==
            LaneGrants(NAMESPACE, "high", runner) + LaneGrants(NAMESPACE, "medium", runner) +
                LaneGrants(NAMESPACE, "low", runner)
  {
    assert LanesUpTo(NAMESPACE, runner, 0) == [];
    assert LanesUpTo(NAMESPACE, runner, 1) == LaneGrants(NAMESPACE, PRIORITIES[0], runner);
    assert LanesUpTo(NAMESPACE, runner, 2) ==
           LanesUpTo(NAMESPACE, runner, 1) + LaneGrants(NAMESPACE, PRIORITIES[1], runner);
  }

  lemma PullKind(g: Pattern, runner: string) returns (k: Kind)
    requires IsName(runner) && g in PullGrants(NAMESPACE, runner)
    ensures IsKind(g, runner, k)
  {
    LanesAre(runner);
    if g in LaneGrants(NAMESPACE, "high", runner) {
      k := LaneKind(g, "high", runner);
    } else if g in LaneGrants(NAMESPACE, "medium", runner) {
      k := LaneKind(g, "medium", runner);
    } else if g in LaneGrants(NAMESPACE, "low", runner) {
      k := LaneKind(g, "low", runner);
    } else if g == [NAMESPACE, "dlq"] {
      k := Outside;
    } else {
      assert NAMESPACE + "_dlq" == "runner-jobs_dlq";
      AdminDotFree("INFO", "runner-jobs_dlq");
      k := Admin("INFO", "runner-jobs_dlq");
    }
  }

  lemma SharedAre(g: Pattern) returns (verb: string, stream: string)
    requires g in SharedUpTo(3)
    ensures g == StreamOp(verb, stream) && stream in SHARED_STREAMS &&
            (verb == "INFO" || verb == "CREATE" || verb == "UPDATE")
  {
    assert SharedUpTo(0) == [];
    assert SharedUpTo(1) ==
           SharedUpTo(0) + [StreamOp("INFO", "EXECUTOR_STATUS"), StreamOp("CREATE", "EXECUTOR_STATUS"),
                            StreamOp("UPDATE", "EXECUTOR_STATUS")];
    assert SharedUpTo(2) ==
           SharedUpTo(1) + [StreamOp("INFO", "EXECUTOR_EVENTS"), StreamOp("CREATE", "EXECUTOR_EVENTS"),
                            StreamOp("UPDATE", "EXECUTOR_EVENTS")];
    verb, stream := g[3], g[4];
  }

  lemma SharedKind(g: Pattern, runner: string) returns (k: Kind)
    requires g in SharedGrants()
    ensures IsKind(g, runner, k)
  {
    if g in SharedUpTo(3) {
      var verb, stream := SharedAre(g);
      AdminDotFree(verb, stream);
      k := Admin(verb, stream);
    } else {
      k := FoldKind(g, runner);
    }
  }

  lemma FoldKind(g: Pattern, runner: string) returns (k: Kind)
    requires || g == ["executor", "datastream", "*", ">"] || g == StreamOp("INFO", "INVENTORY_FOLD")
             || g == ["inventory", "fold", "batch", ">"]
    ensures IsKind(g, runner, k)
  {
    if g == StreamOp("INFO", "INVENTORY_FOLD") {
      AdminDotFree("INFO", "INVENTORY_FOLD");
      k := Admin("INFO", "INVENTORY_FOLD");
    } else {
      k := Outside;
    }
  }

  lemma CancelKind(g: Pattern, runner: string) returns (k: Kind)
    requires g in CancelGrants()
    ensures IsKind(g, runner, k)
  {
    if g[2] == "STREAM" {
      AdminDotFree(g[3], CANCEL_STREAM);
      k := Admin(g[3], CANCEL_STREAM);
    } else {
      k := CancelConsumer(g[3] == "MSG");
    }
  }

  lemma ReportKind(g: Pattern, runner: string)
    requires IsName(runner) && g in ReportGrants(runner)
    ensures IsKind(g, runner, Outside)
  {
    NameHasNoDot(runner);
  }

  lemma PoolKind(g: Pattern, runner: string, pool: Option<string>)
    requires SafePool(pool) && g in PoolGrants(pool)
    ensures IsKind(g, runner, Outside)
  {
    assert IsName(pool.value);
    NameHasNoDot(pool.value);
  }

  /** Every publish grant is of one of these kinds. */
  lemma PublishKind(g: Pattern, runner: string, pool: Option<string>) returns (k: Kind)
    requires IsName(runner) && SafePool(pool) && g in RunnerPublish(runner, pool)
    ensures IsKind(g, runner, k)
  {
    k := Outside;
    if g in ReportGrants(runner) {
      ReportKind(g, runner);
    } else if g in PoolGrants(pool) {
      PoolKind(g, runner, pool);
    } else if g in PullGrants(NAMESPACE, runner) {
      k := PullKind(g, runner);
    } else if g in SharedGrants() {
      k := SharedKind(g, runner);
    } else if g in CancelGrants() {
      k := CancelKind(g, runner);
    } else {
      assert g == ["_INBOX", ">"];
    }
  }

  lemma PublishDotFree(runner: string, pool: Option<string>)
    requires IsName(runner) && SafePool(pool)
    ensures AllDotFree(RunnerPublish(runner, pool))
  {
    var gs := RunnerPublish(runner, pool);
    forall i | 0 <= i < |gs| ensures DotFree(gs[i]) {
      var k := PublishKind(gs[i], runner, pool);
    }
  }

  // ---------------------------------------------------------------------
  // Coverage
  // ---------------------------------------------------------------------

  /** A subject of operation `op` on the runner's lane: the filtered create and the
      acknowledgement carry further tokens. */
  ghost predicate IsLaneSubject(op: Op, prio: string, runner: string, s: seq<string>) {
    exists tail: seq<string> :: (tail != [] <==> HasTail(op)) && s == LaneSubject(op, prio, runner, tail)
  }

  function LaneSubject(op: Op, prio: string, runner: string, tail: seq<string>): seq<string> {
    Head(op) + [Stream(NAMESPACE, prio), Durable(NAMESPACE, prio, runner)] + tail
  }

  /** A job grant matches exactly the subjects of its operation on its lane. */
  lemma JobGrantMatches(op: Op, prio: string, runner: string, s: seq<string>)
    requires prio in PRIORITIES && IsName(runner)
    ensures MatchTokens(JobGrant(op, prio, runner), s) <==> IsLaneSubject(op, prio, runner, s)
  {
    var h := Head(op) + [Stream(NAMESPACE, prio), Durable(NAMESPACE, prio, runner)];
    var r := if HasTail(op) then [">"] else [];
    PlainLane(op, prio, runner);
    MatchHead(h, r, s);
    if MatchTokens(h + r, s) {
      assert s == h + s[|h|..];
      assert s == LaneSubject(op, prio, runner, s[|h|..]);
    }
    if IsLaneSubject(op, prio, runner, s) {
      var tail :| (tail != [] <==> HasTail(op)) && s == LaneSubject(op, prio, runner, tail);
      assert s[..|h|] == h && s[|h|..] == tail;
    }
  }

  lemma PlainLane(op: Op, prio: string, runner: string)
    requires prio in PRIORITIES && IsName(runner)
    ensures var h := Head(op) + [Stream(NAMESPACE, prio), Durable(NAMESPACE, prio, runner)];
            forall i :: 0 <= i < |h| ==> Plain(h[i])
  {
    HeadTokens(op);
    LaneNames(prio, runner);
    NameHasNoDot(Stream(NAMESPACE, prio));
    NameHasNoDot(Durable(NAMESPACE, prio, runner));
  }

  lemma LaneMember(op: Op, prio: string, runner: string, pool: Option<string>)
    requires prio in PRIORITIES
    ensures JobGrant(op, prio, runner) in RunnerPublish(runner, pool)
    ensures StreamOp("INFO", Stream(NAMESPACE, prio)) in RunnerPublish(runner, pool)
  {
    LanesAre(runner);
    var lane := LaneGrants(NAMESPACE, prio, runner);
    var stream := Stream(NAMESPACE, prio);
    assert JobGrant(op, prio, runner) in lane by {
      assert lane[1] == JobGrant(Create, prio, runner) && lane[2] == JobGrant(CreateFiltered, prio, runner);
      assert lane[3] == JobGrant(DurableCreate, prio, runner) && lane[4] == JobGrant(Info, prio, runner);
      assert lane[5] == JobGrant(Next, prio, runner) && lane[6] == JobGrant(Ack, prio, runner);
    }
    assert StreamOp("INFO", stream) in lane by {
      assert lane[0] == StreamOp("INFO", stream);
    }
    LaneInPublish(prio, runner, pool, JobGrant(op, prio, runner));
    LaneInPublish(prio, runner, pool, StreamOp("INFO", stream));
  }

  lemma LaneInPublish(prio: string, runner: string, pool: Option<string>, g: Pattern)
    requires prio in PRIORITIES && g in LaneGrants(NAMESPACE, prio, runner)
    ensures g in RunnerPublish(runner, pool)
  {
    LanesAre(runner);
    assert g in LanesUpTo(NAMESPACE, runner, 3);
    assert g in PullGrants(NAMESPACE, runner);
  }

  lemma GrantedIfMember(gs: seq<Pattern>, g: Pattern, s: seq<string>)
    requires AllDotFree(gs) && g in gs && MatchTokens(g, s) && DotFree(s)
    ensures Allowed(Render(gs), Dotted(s))
  {
    SplitJoin(s, '.');
    AllowedIffGrants(gs, Dotted(s));
  }

  /** A runner may publish every pull-consumer operation on each of its lanes. */
  lemma LanesCovered(op: Op, prio: string, runner: string, pool: Option<string>, s: seq<string>)
    requires IsName(runner) && SafePool(pool) && prio in PRIORITIES
    requires IsLaneSubject(op, prio, runner, s) && DotFree(s)
    ensures Allowed(Render(RunnerPublish(runner, pool)), Dotted(s))
  {
    PublishDotFree(runner, pool);
    LaneMember(op, prio, runner, pool);
    JobGrantMatches(op, prio, runner, s);
    GrantedIfMember(RunnerPublish(runner, pool), JobGrant(op, prio, runner), s);
  }

  /** And may look up each lane's stream. */
  lemma LaneStreamInfoCovered(prio: string, runner: string, pool: Option<string>)
    requires IsName(runner) && SafePool(pool) && prio in PRIORITIES
    ensures Allowed(Render(RunnerPublish(runner, pool)), Dotted(StreamOp("INFO", Stream(NAMESPACE, prio))))
  {
    var s := StreamOp("INFO", Stream(NAMESPACE, prio));
    PublishDotFree(runner, pool);
    LaneMember(Create, prio, runner, pool);
    LaneNames(prio, runner);
    NameHasNoDot(Stream(NAMESPACE, prio));
    MatchLiteral(s, s);
    AdminDotFree("INFO", Stream(NAMESPACE, prio));
    GrantedIfMember(RunnerPublish(runner, pool), s, s);
  }

  // ---------------------------------------------------------------------
  // Isolation
  // ---------------------------------------------------------------------

  lemma DurableInjective(p: string, a: string, q: string, b: string)
    requires p in PRIORITIES && q in PRIORITIES
    requires Stream(NAMESPACE, p) == Stream(NAMESPACE, q) && Durable(NAMESPACE, p, a) == Durable(NAMESPACE, q, b)
    ensures a == b
  {
    var n := |Stream(NAMESPACE, p)| + 1;
    var d, e := Durable(NAMESPACE, p, a), Durable(NAMESPACE, q, b);
    assert |a| == |b|;
    assert d[n..n + |a|] == a && e[n..n + |b|] == b;
  }

  lemma SameOpSameHead(op: Op, prio: string, runner: string, op': Op, prio': string, runner': string, s: seq<string>)
    requires IsLaneSubject(op, prio, runner, s) && IsLaneSubject(op', prio', runner', s)
    ensures Head(op) == Head(op')
  {
    assert s[0] == "$JS" && (op.Ack? <==> s[1] == "ACK") && (op'.Ack? <==> s[1] == "ACK");
    if !op.Ack? {
      assert s[3] == Head(op)[3] && s[3] == Head(op')[3];
    }
  }

  /** No subject is a lane operation of two runners. */
  lemma LaneSubjectsDisjoint(op: Op, prio: string, runner: string, op': Op, prio': string, runner': string,
                             s: seq<string>)
    requires prio in PRIORITIES && prio' in PRIORITIES
    requires IsLaneSubject(op, prio, runner, s) && IsLaneSubject(op', prio', runner', s)
    ensures runner == runner'
  {
    SameOpSameHead(op, prio, runner, op', prio', runner', s);
    var n := |Head(op)|;
    assert s[n] == Stream(NAMESPACE, prio) && s[n] == Stream(NAMESPACE, prio');
    assert s[n + 1] == Durable(NAMESPACE, prio, runner) && s[n + 1] == Durable(NAMESPACE, prio', runner');
    DurableInjective(prio, runner, prio', runner');
  }

  /** A literal token that differs, behind literal tokens only, rules a match out. */
  lemma {:induction false} Conflict(g: Pattern, s: seq<string>, i: nat)
    requires i < |g| && i < |s| && g[i] != s[i] && forall j :: 0 <= j <= i ==> Plain(g[j])
    ensures !MatchTokens(g, s)
  {
    assert g != [">"];
    if i > 0 {
      Conflict(g[1..], s[1..], i - 1);
    }
  }

  /** Nothing else in a runner's grants matches another runner's lane subjects. */
  lemma KindMissesLane(g: Pattern, runner: string, k: Kind, op: Op, prio: string, other: string, s: seq<string>)
    requires IsKind(g, runner, k) && IsName(runner) && IsName(other) && runner != other
    requires prio in PRIORITIES && IsLaneSubject(op, prio, other, s)
    ensures !MatchTokens(g, s)
  {
    assert s[0] == "$JS" && (s[1] == "ACK" || (s[1] == "API" && s[2] == "CONSUMER"));
    match k
    case Outside => Conflict(g, s, 0);
    case Admin(_, _) => Conflict(g, s, if s[1] == "ACK" then 1 else 2);
    case Job(op', prio') =>
      JobGrantMatches(op', prio', runner, s);
      if MatchTokens(g, s) {
        LaneSubjectsDisjoint(op, prio, other, op', prio', runner, s);
      }
    case CancelConsumer(next) => CancelMissesLane(g, runner, next, op, prio, other, s);
  }

  lemma CancelMissesLane(g: Pattern, runner: string, next: bool, op: Op, prio: string, other: string, s: seq<string>)
    requires IsKind(g, runner, CancelConsumer(next))
    requires prio in PRIORITIES && IsLaneSubject(op, prio, other, s)
    ensures !MatchTokens(g, s)
  {
    var n := |Head(op)|;
    var stream := Stream(NAMESPACE, prio);
    assert s[0] == "$JS" && s[n] == stream && stream[0] == 'r' && CANCEL_STREAM[0] == 'E';
    if op.Ack? {
      Conflict(g, s, 1);
    } else if s[3] != g[3] {
      Conflict(g, s, 3);
    } else {
      assert n == if next then 5 else 4;
      Conflict(g, s, n);
    }
  }

  /** No subject of another runner's pull consumers or acknowledgements, on any lane, is
      allowed to a runner by any of its grants. */
  lemma LanesIsolated(runner: string, pool: Option<string>, op: Op, prio: string, other: string, subject: string)
    requires IsName(runner) && IsName(other) && runner != other && SafePool(pool) && prio in PRIORITIES
    requires IsLaneSubject(op, prio, other, Split(subject, '.'))
    ensures !Allowed(Render(RunnerPublish(runner, pool)), subject)
  {
    var gs, s := RunnerPublish(runner, pool), Split(subject, '.');
    PublishDotFree(runner, pool);
    AllowedIffGrants(gs, subject);
    forall i | 0 <= i < |gs| ensures !MatchTokens(gs[i], s) {
      var k := PublishKind(gs[i], runner, pool);
      KindMissesLane(gs[i], runner, k, op, prio, other, s);
    }
  }

  // ---------------------------------------------------------------------
  // Stream administration
  // ---------------------------------------------------------------------

  lemma KindAdmin(g: Pattern, runner: string, k: Kind, verb: string, stream: string)
    requires IsKind(g, runner, k) && verb != "INFO"
    ensures MatchTokens(g, StreamOp(verb, stream)) ==> (verb == "CREATE" || verb == "UPDATE") && IsSharedStream(stream)
  {
    var s := StreamOp(verb, stream);
    match k
    case Outside => Conflict(g, s, 0);
    case Admin(v, t) =>
      MatchLiteral(g, s);
      assert s == g ==> v == g[3] == s[3] == verb && t == g[4] == s[4] == stream;
    case Job(op, prio) =>
      HeadTokens(op);
      Conflict(g, s, if op.Ack? then 1 else 2);
    case CancelConsumer(_) => Conflict(g, s, 2);
  }

  lemma AdminMember(verb: string, stream: string, runner: string, pool: Option<string>)
    requires (verb == "CREATE" || verb == "UPDATE") && IsSharedStream(stream)
    ensures StreamOp(verb, stream) in RunnerPublish(runner, pool)
  {
    var g := StreamOp(verb, stream);
    if stream == CANCEL_STREAM {
      assert g in CancelGrants() by {
        assert CancelGrants()[1] == StreamOp("CREATE", CANCEL_STREAM) &&
               CancelGrants()[2] == StreamOp("UPDATE", CANCEL_STREAM);
      }
    } else {
      var i :| 0 <= i < |SHARED_STREAMS| && SHARED_STREAMS[i] == stream;
      SharedMember(verb, i, 3);
      assert g in SharedGrants();
    }
  }

  lemma {:induction false} SharedMember(verb: string, i: nat, n: nat)
    requires (verb == "CREATE" || verb == "UPDATE") && i < n <= |SHARED_STREAMS|
    ensures StreamOp(verb, SHARED_STREAMS[i]) in SharedUpTo(n)
  {
    if i < n - 1 {
      SharedMember(verb, i, n - 1);
    }
  }

  /** Beyond looking streams up, the only stream administration a runner may do is
      creating and updating the four shared executor streams. */
  lemma StreamAdminIff(runner: string, pool: Option<string>, verb: string, stream: string)
    requires IsName(runner) && SafePool(pool) && verb != "INFO" && '.' !in verb && '.' !in stream
    ensures Allowed(Render(RunnerPublish(runner, pool)), Dotted(StreamOp(verb, stream)))
            <==> (verb == "CREATE" || verb == "UPDATE") && IsSharedStream(stream)
  {
    var gs, s := RunnerPublish(runner, pool), StreamOp(verb, stream);
    PublishDotFree(runner, pool);
    AdminDotFree(verb, stream);
    SplitJoin(s, '.');
    AllowedIffGrants(gs, Dotted(s));
    AdminGrantsIff(runner, pool, verb, stream);
  }

  lemma AdminGrantsIff(runner: string, pool: Option<string>, verb: string, stream: string)
    requires IsName(runner) && SafePool(pool) && verb != "INFO"
    ensures Grants(RunnerPublish(runner, pool), StreamOp(verb, stream))
            <==> (verb == "CREATE" || verb == "UPDATE") && IsSharedStream(stream)
  {
    var gs, s := RunnerPublish(runner, pool), StreamOp(verb, stream);
    forall i | 0 <= i < |gs| && MatchTokens(gs[i], s)
      ensures (verb == "CREATE" || verb == "UPDATE") && IsSharedStream(stream) {
      var k := PublishKind(gs[i], runner, pool);
      KindAdmin(gs[i], runner, k, verb, stream);
    }
    if (verb == "CREATE" || verb == "UPDATE") && IsSharedStream(stream) {
      AdminMember(verb, stream, runner, pool);
      SharedIsPlain(stream);
      MatchLiteral(s, s);
    }
  }

  lemma SharedIsPlain(stream: string)
    requires IsSharedStream(stream)
    ensures Plain(stream)
  {
  }

  /** In particular none of it on a runner-jobs stream. */
  lemma JobStreamsUntouchable(runner: string, pool: Option<string>, verb: string, suffix: string)
    requires IsName(runner) && SafePool(pool) && '.' !in suffix
    requires verb == "CREATE" || verb == "UPDATE" || verb == "DELETE" || verb == "PURGE"
    ensures !Allowed(Render(RunnerPublish(runner, pool)), Dotted(StreamOp(verb, Stream(NAMESPACE, suffix))))
  {
    var stream := Stream(NAMESPACE, suffix);
    assert stream[0] == 'r' && '.' !in stream;
    StreamAdminIff(runner, pool, verb, stream);
    assert !IsSharedStream(stream);
  }
}
