/** The NATS permissions minted for a runner (`service/src/runners_nats.rs`): subject
    patterns with `*` and `>`, what they cover and what they keep apart. */
module RunnerGrants {
  import opened Wrappers
  import opened Text

  type Pattern = seq<string>

  const NAMESPACE := "runner-jobs"
  const PRIORITIES: seq<string> := ["high", "medium", "low"]
  const SHARED_STREAMS: seq<string> := ["EXECUTOR_STATUS", "EXECUTOR_EVENTS", "EXECUTOR_DATASTREAM"]
  const CANCEL_STREAM := "EXECUTOR_CANCEL"

  // ---------------------------------------------------------------------
  // Subject matching
  // ---------------------------------------------------------------------

  /** NATS matching: `*` is one token, a final `>` is one or more. */
  predicate MatchTokens(p: Pattern, s: seq<string>) {
    if p == [] then s == []
    else if p == [">"] then s != []
    else s != [] && (p[0] == "*" || p[0] == s[0]) && MatchTokens(p[1..], s[1..])
  }

  predicate Matches(pattern: string, subject: string) {
    MatchTokens(Split(pattern, '.'), Split(subject, '.'))
  }

  predicate Allowed(grants: seq<string>, subject: string) {
    exists i :: 0 <= i < |grants| && Matches(grants[i], subject)
  }

  predicate Plain(t: string) {
    t != "*" && t != ">"
  }

  /** A token that matches only itself and stays one token in a subject. */
  predicate IsName(t: string) {
    t != "" && forall i :: 0 <= i < |t| ==> NameChar(t[i])
  }

  predicate NameChar(c: char) {
    'a' <= c <= 'z' || 'A' <= c <= 'Z' || '0' <= c <= '9' || c == '_' || c == '-'
  }

  predicate DotFree(p: Pattern) {
    p != [] && forall i :: 0 <= i < |p| ==> '.' !in p[i]
  }

  function Dotted(p: Pattern): string {
    if p == [] then "" else Join(p, '.')
  }

  /** Matching a rendered pattern is matching its tokens. */
  lemma MatchesIsTokens(p: Pattern, subject: string)
    requires DotFree(p)
    ensures Matches(Dotted(p), subject) <==> MatchTokens(p, Split(subject, '.'))
  {
    SplitJoin(p, '.');
  }

  /** Literal tokens at the front of a pattern are matched literally. */
  lemma {:induction false} MatchHead(h: Pattern, r: Pattern, s: seq<string>)
    requires forall i :: 0 <= i < |h| ==> Plain(h[i])
    ensures MatchTokens(h + r, s) <==> |h| <= |s| && s[..|h|] == h && MatchTokens(r, s[|h|..])
  {
    if h == [] {
      assert h + r == r && s[0..] == s && s[..0] == [];
    } else {
      var p := h + r;
      assert p[0] == h[0] && p[1..] == h[1..] + r && p != [">"];
      if s != [] {
        MatchHead(h[1..], r, s[1..]);
        assert h == [h[0]] + h[1..];
        if |h| <= |s| {
          assert s[..|h|] == [s[0]] + s[1..][..|h| - 1];
          assert s[1..][|h| - 1..] == s[|h|..];
        }
      }
    }
  }

  /** A pattern of literals matches exactly itself. */
  lemma MatchLiteral(h: Pattern, s: seq<string>)
    requires forall i :: 0 <= i < |h| ==> Plain(h[i])
    ensures MatchTokens(h, s) <==> s == h
  {
    MatchHead(h, [], s);
    assert h + [] == h;
    assert |h| <= |s| ==> s == s[..|h|] + s[|h|..];
  }

  // ---------------------------------------------------------------------
  // The grants, as token lists
  // ---------------------------------------------------------------------

  function Stream(ns: string, prio: string): string {
    ns + "_" + prio
  }

  function Durable(ns: string, prio: string, partition: string): string {
    Stream(ns, prio) + "_" + partition + "_consumer"
  }

  /** The operations of a pull consumer on one lane that name its durable. */
  datatype Op = Create | CreateFiltered | DurableCreate | Info | Next | Ack

  function Head(op: Op): Pattern {
    match op
    case Create => ["$JS", "API", "CONSUMER", "CREATE"]
    case CreateFiltered => ["$JS", "API", "CONSUMER", "CREATE"]
    case DurableCreate => ["$JS", "API", "CONSUMER", "DURABLE", "CREATE"]
    case Info => ["$JS", "API", "CONSUMER", "INFO"]
    case Next => ["$JS", "API", "CONSUMER", "MSG", "NEXT"]
    case Ack => ["$JS", "ACK"]
  }

  /** The server or the client appends tokens to these subjects. */
  predicate HasTail(op: Op) {
    op.CreateFiltered? || op.Ack?
  }

  function ConsumerGrant(op: Op, stream: string, durable: string): Pattern {
    Head(op) + [stream, durable] + (if HasTail(op) then [">"] else [])
  }

  function StreamOp(verb: string, stream: string): Pattern {
    ["$JS", "API", "STREAM", verb, stream]
  }

  function LaneGrants(ns: string, prio: string, partition: string): seq<Pattern> {
    var stream, durable := Stream(ns, prio), Durable(ns, prio, partition);
    [StreamOp("INFO", stream),
     ConsumerGrant(Create, stream, durable),
     ConsumerGrant(CreateFiltered, stream, durable),
     ConsumerGrant(DurableCreate, stream, durable),
     ConsumerGrant(Info, stream, durable),
     ConsumerGrant(Next, stream, durable),
     ConsumerGrant(Ack, stream, durable)]
  }

  function LanesUpTo(ns: string, partition: string, n: nat): seq<Pattern>
    requires n <= |PRIORITIES|
  {
    if n == 0 then [] else LanesUpTo(ns, partition, n - 1) + LaneGrants(ns, PRIORITIES[n - 1], partition)
  }

  function PullGrants(ns: string, partition: string): seq<Pattern> {
    LanesUpTo(ns, partition, |PRIORITIES|) + [StreamOp("INFO", ns + "_dlq"), [ns, "dlq"]]
  }

  function SharedUpTo(n: nat): seq<Pattern>
    requires n <= |SHARED_STREAMS|
  {
    if n == 0 then []
    else
      var stream := SHARED_STREAMS[n - 1];
      SharedUpTo(n - 1) + [StreamOp("INFO", stream), StreamOp("CREATE", stream), StreamOp("UPDATE", stream)]
  }

  function SharedGrants(): seq<Pattern> {
    SharedUpTo(|SHARED_STREAMS|)
    + [["executor", "datastream", "*", ">"], StreamOp("INFO", "INVENTORY_FOLD"), ["inventory", "fold", "batch", ">"]]
  }

  function CancelGrants(): seq<Pattern> {
    [StreamOp("INFO", CANCEL_STREAM), StreamOp("CREATE", CANCEL_STREAM), StreamOp("UPDATE", CANCEL_STREAM),
     ["$JS", "API", "CONSUMER", "CREATE", CANCEL_STREAM],
     ["$JS", "API", "CONSUMER", "CREATE", CANCEL_STREAM, ">"],
     ["$JS", "API", "CONSUMER", "INFO", CANCEL_STREAM, ">"],
     ["$JS", "API", "CONSUMER", "MSG", "NEXT", CANCEL_STREAM, ">"]]
  }

  function ReportGrants(runner: string): seq<Pattern> {
    [["executor", "status", "*", ">"], ["executor", "events", "*", ">"], ["executor", "metrics", ">"],
     ["runner", runner, "presence"]]
  }

  function PoolGrants(pool: Option<string>): seq<Pattern> {
    if pool.Some? && pool.value != "" then [[pool.value, "claim"]] else []
  }

  /** Everything a runner may publish to. */
  function RunnerPublish(runner: string, pool: Option<string>): seq<Pattern> {
    ReportGrants(runner) + PoolGrants(pool) + PullGrants(NAMESPACE, runner) + SharedGrants() + CancelGrants() +
        [["_INBOX", ">"]]
  }

  function RunnerSubscribe(runner: string): seq<Pattern> {
    [["runner", runner, ">"], ["_INBOX", ">"], ["executor", "cancel", "*"], ["fileserve", runner, "read"]]
  }

  // ---------------------------------------------------------------------
  // The builders
  // ---------------------------------------------------------------------

  function Render(ps: seq<Pattern>): seq<string> {
    seq(|ps|, i requires 0 <= i < |ps| => Dotted(ps[i]))
  }

  lemma RenderConcat(a: seq<Pattern>, b: seq<Pattern>)
    ensures Render(a + b) == Render(a) + Render(b)
  {
  }

  lemma GrantTokens(stream: string, durable: string)
    ensures ConsumerGrant(Create, stream, durable) == ["$JS", "API", "CONSUMER", "CREATE", stream, durable]
    ensures ConsumerGrant(CreateFiltered, stream, durable) == ["$JS", "API", "CONSUMER", "CREATE", stream, durable, ">"]
    ensures ConsumerGrant(DurableCreate, stream, durable) ==
            ["$JS", "API", "CONSUMER", "DURABLE", "CREATE", stream, durable]
    ensures ConsumerGrant(Info, stream, durable) == ["$JS", "API", "CONSUMER", "INFO", stream, durable]
    ensures ConsumerGrant(Next, stream, durable) == ["$JS", "API", "CONSUMER", "MSG", "NEXT", stream, durable]
    ensures ConsumerGrant(Ack, stream, durable) == ["$JS", "ACK", stream, durable, ">"]
  {
  }

  /** `jetstream_pull_pub_allow`. */
  method JetstreamPullPubAllow(ns: string, partition: string) returns (out: seq<string>)
    ensures out == Render(PullGrants(ns, partition))
  {
    out := [];
    for i := 0 to |PRIORITIES|
      invariant out == Render(LanesUpTo(ns, partition, i))
    {
      var stream := ns + "_" + PRIORITIES[i];
      var durable := stream + "_" + partition + "_consumer";
      RenderConcat(LanesUpTo(ns, partition, i), LaneGrants(ns, PRIORITIES[i], partition));
      GrantTokens(stream, durable);
      out := out + [
        Dotted(["$JS", "API", "STREAM", "INFO", stream]),
        Dotted(["$JS", "API", "CONSUMER", "CREATE", stream, durable]),
        Dotted(["$JS", "API", "CONSUMER", "CREATE", stream, durable, ">"]),
        Dotted(["$JS", "API", "CONSUMER", "DURABLE", "CREATE", stream, durable]),
        Dotted(["$JS", "API", "CONSUMER", "INFO", stream, durable]),
        Dotted(["$JS", "API", "CONSUMER", "MSG", "NEXT", stream, durable]),
        Dotted(["$JS", "ACK", stream, durable, ">"])];
    }
    RenderConcat(LanesUpTo(ns, partition, |PRIORITIES|), [StreamOp("INFO", ns + "_dlq"), [ns, "dlq"]]);
    out := out + [Dotted(["$JS", "API", "STREAM", "INFO", ns + "_dlq"]), Dotted([ns, "dlq"])];
  }

  /** `jetstream_shared_stream_pub_allow`. */
  method JetstreamSharedStreamPubAllow() returns (out: seq<string>)
    ensures out == Render(SharedGrants())
  {
    out := [];
    for i := 0 to |SHARED_STREAMS|
      invariant out == Render(SharedUpTo(i))
    {
      var stream := SHARED_STREAMS[i];
      RenderConcat(SharedUpTo(i), [StreamOp("INFO", stream), StreamOp("CREATE", stream), StreamOp("UPDATE", stream)]);
      out := out + [Dotted(StreamOp("INFO", stream)), Dotted(StreamOp("CREATE", stream)),
                    Dotted(StreamOp("UPDATE", stream))];
    }
    ghost var rest := [["executor", "datastream", "*", ">"], StreamOp("INFO", "INVENTORY_FOLD"),
                       ["inventory", "fold", "batch", ">"]];
    RenderConcat(SharedUpTo(|SHARED_STREAMS|), rest);
    out := out + [Dotted(["executor", "datastream", "*", ">"]), Dotted(StreamOp("INFO", "INVENTORY_FOLD")),
                  Dotted(["inventory", "fold", "batch", ">"])];
  }

  lemma RenderPublish(a: seq<Pattern>, b: seq<Pattern>, c: seq<Pattern>, d: seq<Pattern>, e: seq<Pattern>,
                      f: seq<Pattern>)
    ensures Render(a + b + c + d + e + f) == Render(a) + Render(b) + Render(c) + Render(d) + Render(e) + Render(f)
  {
    RenderConcat(a, b);
    RenderConcat(a + b, c);
    RenderConcat(a + b + c, d);
    RenderConcat(a + b + c + d, e);
    RenderConcat(a + b + c + d + e, f);
  }

  datatype MintError = InvalidUserKey | InvalidPool
  datatype Minted = Minted(publish: seq<string>, subscribe: seq<string>) | Refused(error: MintError)

  /** A pool lands in a subject, so it must be one safe token. */
  predicate SafePool(pool: Option<string>) {
    pool.Some? ==> forall i :: 0 <= i < |pool.value| ==> NameChar(pool.value[i])
  }

  /** `mint_runner_jwt`, up to signing. */
  method MintRunner(userKey: string, runner: string, pool: Option<string>) returns (r: Minted)
    ensures r == Refused(InvalidUserKey) <==> !(userKey != "" && userKey[0] == 'U')
    ensures r == Refused(InvalidPool) <==> userKey != "" && userKey[0] == 'U' && !SafePool(pool)
    ensures r.Minted? ==>
            r.publish == Render(RunnerPublish(runner, pool)) && r.subscribe == Render(RunnerSubscribe(runner))
  {
    if userKey == "" || userKey[0] != 'U' {
      return Refused(InvalidUserKey);
    }
    var allow := Render(ReportGrants(runner));
    if pool.Some? && pool.value != "" {
      if !SafePool(pool) {
        return Refused(InvalidPool);
      }
      allow := allow + [Dotted([pool.value, "claim"])];
    }
    assert allow == Render(ReportGrants(runner)) + Render(PoolGrants(pool));
    var pull := JetstreamPullPubAllow(NAMESPACE, runner);
    var shared := JetstreamSharedStreamPubAllow();
    allow := allow + pull + shared + Render(CancelGrants()) + Render([["_INBOX", ">"]]);
    RenderPublish(ReportGrants(runner), PoolGrants(pool), PullGrants(NAMESPACE, runner), SharedGrants(),
                  CancelGrants(), [["_INBOX", ">"]]);
    return Minted(allow, Render(RunnerSubscribe(runner)));
  }
}
