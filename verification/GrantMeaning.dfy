/** Exactly which subjects a runner may publish to and receive from. */
module GrantMeaning {
  import opened Wrappers
  import opened Text
  import opened RunnerGrants
  import opened GrantTheorems

  // ---------------------------------------------------------------------
  // Matching, by shape of pattern
  // ---------------------------------------------------------------------

  predicate AllPlain(h: Pattern) {
    forall i :: 0 <= i < |h| ==> Plain(h[i])
  }

  /** The tokens begin with `h` and go on for at least `more`. */
  predicate Under(h: seq<string>, more: nat, s: seq<string>) {
    |h| + more <= |s| && s[..|h|] == h
  }

  lemma Begins(h: seq<string>, more: nat, s: seq<string>)
    requires h != []
    ensures Under(h, more, s) ==> |s| >= |h| && s[0] == h[0] && (|h| > 1 ==> s[1] == h[1])
  {
    if Under(h, more, s) {
      assert s[..|h|][0] == s[0] && (|h| > 1 ==> s[..|h|][1] == s[1]);
    }
  }

  lemma MatchTail(h: Pattern, s: seq<string>)
    requires AllPlain(h)
    ensures MatchTokens(h + [">"], s) <==> Under(h, 1, s)
  {
    MatchHead(h, [">"], s);
  }

  lemma MatchStar(s: seq<string>)
    ensures MatchTokens(["*"], s) <==> |s| == 1
    ensures MatchTokens(["*", ">"], s) <==> |s| >= 2
  {
    assert ["*"][1..] == [] && ["*", ">"][1..] == [">"];
  }

  lemma MatchStarTail(h: Pattern, s: seq<string>)
    requires AllPlain(h)
    ensures MatchTokens(h + ["*"], s) <==> Under(h, 1, s) && |s| == |h| + 1
    ensures MatchTokens(h + ["*", ">"], s) <==> Under(h, 2, s)
  {
    MatchHead(h, ["*"], s);
    MatchHead(h, ["*", ">"], s);
    if |h| <= |s| {
      MatchStar(s[|h|..]);
    }
  }

  lemma GrantsConcat(a: seq<Pattern>, b: seq<Pattern>, s: seq<string>)
    ensures Grants(a + b, s) <==> Grants(a, s) || Grants(b, s)
  {
    if i :| 0 <= i < |a| && MatchTokens(a[i], s) {
      assert (a + b)[i] == a[i];
    }
    if i :| 0 <= i < |b| && MatchTokens(b[i], s) {
      assert (a + b)[|a| + i] == b[i];
    }
  }

  // ---------------------------------------------------------------------
  // Receiving
  // ---------------------------------------------------------------------

  /** Its own control subjects, the reply inbox, cancellations, and its own file reads. */
  predicate MayReceive(runner: string, s: seq<string>) {
    Under(["runner", runner], 1, s) || Under(["_INBOX"], 1, s)
    || (Under(["executor", "cancel"], 1, s) && |s| == 3) || s == ["fileserve", runner, "read"]
  }

  lemma SubscribeTokens(runner: string, s: seq<string>)
    requires IsName(runner)
    ensures AllDotFree(RunnerSubscribe(runner))
    ensures Grants(RunnerSubscribe(runner), s) <==> MayReceive(runner, s)
  {
    NameHasNoDot(runner);
    MatchTail(["runner", runner], s);
    MatchTail(["_INBOX"], s);
    MatchStarTail(["executor", "cancel"], s);
    MatchLiteral(["fileserve", runner, "read"], s);
    var gs := RunnerSubscribe(runner);
    assert gs[0] == ["runner", runner] + [">"] && gs[1] == ["_INBOX"] + [">"];
    assert gs[2] == ["executor", "cancel"] + ["*"] && gs[3] == ["fileserve", runner, "read"];
  }

  lemma SubscribeIff(runner: string, subject: string)
    requires IsName(runner)
    ensures Allowed(Render(RunnerSubscribe(runner)), subject) <==> MayReceive(runner, Split(subject, '.'))
  {
    SubscribeTokens(runner, Split(subject, '.'));
    AllowedIffGrants(RunnerSubscribe(runner), subject);
  }

  /** What is addressed to one runner alone: a command, or a file read. */
  predicate Addressed(runner: string, s: seq<string>) {
    Under(["runner", runner], 1, s) || s == ["fileserve", runner, "read"]
  }

  /** A runner receives what is addressed to it, and nothing that is addressed to another. */
  lemma ControlIsolated(runner: string, to: string, subject: string)
    requires IsName(runner) && Addressed(to, Split(subject, '.'))
    ensures Allowed(Render(RunnerSubscribe(runner)), subject) <==> runner == to
  {
    SubscribeIff(runner, subject);
    var s := Split(subject, '.');
    Begins(["runner", to], 1, s);
    Begins(["runner", runner], 1, s);
    Begins(["_INBOX"], 1, s);
    Begins(["executor", "cancel"], 1, s);
    assert s == ["fileserve", to, "read"] ==> s[0] == "fileserve" && s[1] == to;
    assert s == ["fileserve", runner, "read"] ==> s[0] == "fileserve" && s[1] == runner;
  }

  // ---------------------------------------------------------------------
  // Publishing
  // ---------------------------------------------------------------------

  /** Reports on executions, and the runner's own presence. */
  predicate IsReport(runner: string, s: seq<string>) {
    || Under(["executor", "status"], 2, s) || Under(["executor", "events"], 2, s) ||
        Under(["executor", "metrics"], 1, s)
    || s == ["runner", runner, "presence"]
  }

  predicate IsClaim(pool: Option<string>, s: seq<string>) {
    pool.Some? && pool.value != "" && s == [pool.value, "claim"]
  }

  ghost predicate IsLane(prio: string, runner: string, s: seq<string>) {
    s == StreamOp("INFO", Stream(NAMESPACE, prio)) || exists op :: IsLaneSubject(op, prio, runner, s)
  }

  /** The runner's three lanes and the dead letters. */
  ghost predicate IsPull(runner: string, s: seq<string>) {
    || IsLane("high", runner, s) || IsLane("medium", runner, s) || IsLane("low", runner, s)
    || s == ["$JS", "API", "STREAM", "INFO", "runner-jobs_dlq"] || s == ["runner-jobs", "dlq"]
  }

  predicate IsAdminOf(stream: string, s: seq<string>) {
    || s == ["$JS", "API", "STREAM", "INFO", stream] || s == ["$JS", "API", "STREAM", "CREATE", stream]
    || s == ["$JS", "API", "STREAM", "UPDATE", stream]
  }

  /** The shared streams, chunked data and inventory batches. */
  predicate IsShared(s: seq<string>) {
    || IsAdminOf("EXECUTOR_STATUS", s) || IsAdminOf("EXECUTOR_EVENTS", s) || IsAdminOf("EXECUTOR_DATASTREAM", s)
    || Under(["executor", "datastream"], 2, s) || s == ["$JS", "API", "STREAM", "INFO", "INVENTORY_FOLD"]
    || Under(["inventory", "fold", "batch"], 1, s)
  }

  /** The cancel stream and the ephemeral consumers on it. */
  predicate IsCancel(s: seq<string>) {
    || IsAdminOf("EXECUTOR_CANCEL", s) || Under(["$JS", "API", "CONSUMER", "CREATE", "EXECUTOR_CANCEL"], 0, s)
    || Under(["$JS", "API", "CONSUMER", "INFO", "EXECUTOR_CANCEL"], 1, s)
    || Under(["$JS", "API", "CONSUMER", "MSG", "NEXT", "EXECUTOR_CANCEL"], 1, s)
  }

  lemma ReportTokens(runner: string, s: seq<string>)
    requires IsName(runner)
    ensures Grants(ReportGrants(runner), s) <==> IsReport(runner, s)
  {
    NameHasNoDot(runner);
    MatchStarTail(["executor", "status"], s);
    MatchStarTail(["executor", "events"], s);
    MatchTail(["executor", "metrics"], s);
    MatchLiteral(["runner", runner, "presence"], s);
    var gs := ReportGrants(runner);
    assert gs[0] == ["executor", "status"] + ["*", ">"] && gs[1] == ["executor", "events"] + ["*", ">"];
    assert gs[2] == ["executor", "metrics"] + [">"] && gs[3] == ["runner", runner, "presence"];
  }

  lemma PoolTokens(pool: Option<string>, s: seq<string>)
    requires SafePool(pool)
    ensures Grants(PoolGrants(pool), s) <==> IsClaim(pool, s)
  {
    if pool.Some? && pool.value != "" {
      NameHasNoDot(pool.value);
      MatchLiteral([pool.value, "claim"], s);
      assert PoolGrants(pool)[0] == [pool.value, "claim"];
    }
  }

  lemma LaneTokens(prio: string, runner: string, s: seq<string>)
    requires prio in PRIORITIES && IsName(runner)
    ensures Grants(LaneGrants(NAMESPACE, prio, runner), s) <==> IsLane(prio, runner, s)
  {
    var lane, info := LaneGrants(NAMESPACE, prio, runner), StreamOp("INFO", Stream(NAMESPACE, prio));
    LaneNames(prio, runner);
    NameHasNoDot(Stream(NAMESPACE, prio));
    MatchLiteral(info, s);
    forall op ensures MatchTokens(JobGrant(op, prio, runner), s) <==> IsLaneSubject(op, prio, runner, s) {
      JobGrantMatches(op, prio, runner, s);
    }
    assert lane[0] == info && lane[1] == JobGrant(Create, prio, runner);
    assert lane[2] == JobGrant(CreateFiltered, prio, runner) && lane[3] == JobGrant(DurableCreate, prio, runner);
    assert lane[4] == JobGrant(Info, prio, runner) && lane[5] == JobGrant(Next, prio, runner);
    assert lane[6] == JobGrant(Ack, prio, runner);
  }

  lemma PullTokens(runner: string, s: seq<string>)
    requires IsName(runner)
    ensures Grants(PullGrants(NAMESPACE, runner), s) <==> IsPull(runner, s)
  {
    var high, medium := LaneGrants(NAMESPACE, "high", runner), LaneGrants(NAMESPACE, "medium", runner);
    var low, rest := LaneGrants(NAMESPACE, "low", runner), [StreamOp("INFO", NAMESPACE + "_dlq"), [NAMESPACE, "dlq"]];
    LanesAre(runner);
    assert PullGrants(NAMESPACE, runner) == high + medium + low + rest;
    GrantsConcat(high, medium, s);
    GrantsConcat(high + medium, low, s);
    GrantsConcat(high + medium + low, rest, s);
    LaneTokens("high", runner, s);
    LaneTokens("medium", runner, s);
    LaneTokens("low", runner, s);
    DeadLetterTokens(s);
  }

  lemma DeadLetterTokens(s: seq<string>)
    ensures Grants([StreamOp("INFO", NAMESPACE + "_dlq"), [NAMESPACE, "dlq"]], s) <==>
            s == ["$JS", "API", "STREAM", "INFO", "runner-jobs_dlq"] || s == ["runner-jobs", "dlq"]
  {
    var gs := [StreamOp("INFO", NAMESPACE + "_dlq"), [NAMESPACE, "dlq"]];
    assert NAMESPACE + "_dlq" == "runner-jobs_dlq";
    MatchLiteral(["$JS", "API", "STREAM", "INFO", "runner-jobs_dlq"], s);
    MatchLiteral(["runner-jobs", "dlq"], s);
    assert gs[0] == ["$JS", "API", "STREAM", "INFO", "runner-jobs_dlq"] && gs[1] == ["runner-jobs", "dlq"];
  }

  lemma AdminTokens(stream: string, s: seq<string>)
    requires Plain(stream)
    ensures Grants([StreamOp("INFO", stream), StreamOp("CREATE", stream), StreamOp("UPDATE", stream)], s) <==>
            IsAdminOf(stream, s)
  {
    var gs := [StreamOp("INFO", stream), StreamOp("CREATE", stream), StreamOp("UPDATE", stream)];
    MatchLiteral(gs[0], s);
    MatchLiteral(gs[1], s);
    MatchLiteral(gs[2], s);
  }

  lemma FoldTokens(s: seq<string>)
    ensures Grants([["executor", "datastream", "*", ">"], StreamOp("INFO", "INVENTORY_FOLD"),
                    ["inventory", "fold", "batch", ">"]], s) <==>
            || Under(["executor", "datastream"], 2, s) || s == ["$JS", "API", "STREAM", "INFO", "INVENTORY_FOLD"]
            || Under(["inventory", "fold", "batch"], 1, s)
  {
    var gs := [["executor", "datastream", "*", ">"], StreamOp("INFO", "INVENTORY_FOLD"),
               ["inventory", "fold", "batch", ">"]];
    MatchStarTail(["executor", "datastream"], s);
    MatchLiteral(gs[1], s);
    MatchTail(["inventory", "fold", "batch"], s);
    assert gs[0] == ["executor", "datastream"] + ["*", ">"] && gs[2] == ["inventory", "fold", "batch"] + [">"];
  }

  function AdminGrants(stream: string): seq<Pattern> {
    [StreamOp("INFO", stream), StreamOp("CREATE", stream), StreamOp("UPDATE", stream)]
  }

  lemma SharedAreThree()
    ensures SharedUpTo(3) ==
            AdminGrants("EXECUTOR_STATUS") + AdminGrants("EXECUTOR_EVENTS") + AdminGrants("EXECUTOR_DATASTREAM")
  {
    assert SharedUpTo(0) == [];
    assert SharedUpTo(1) == AdminGrants("EXECUTOR_STATUS");
    assert SharedUpTo(2) == AdminGrants("EXECUTOR_STATUS") + AdminGrants("EXECUTOR_EVENTS");
  }

  lemma SharedTokens(s: seq<string>)
    ensures Grants(SharedGrants(), s) <==> IsShared(s)
  {
    var a, b, c := AdminGrants("EXECUTOR_STATUS"), AdminGrants("EXECUTOR_EVENTS"), AdminGrants("EXECUTOR_DATASTREAM");
    var rest := [["executor", "datastream", "*", ">"], StreamOp("INFO", "INVENTORY_FOLD"),
                 ["inventory", "fold", "batch", ">"]];
    SharedAreThree();
    assert SharedGrants() == a + b + c + rest;
    GrantsConcat(a, b, s);
    GrantsConcat(a + b, c, s);
    GrantsConcat(a + b + c, rest, s);
    AdminTokens("EXECUTOR_STATUS", s);
    AdminTokens("EXECUTOR_EVENTS", s);
    AdminTokens("EXECUTOR_DATASTREAM", s);
    FoldTokens(s);
  }

  function CancelConsumers(): seq<Pattern> {
    [["$JS", "API", "CONSUMER", "CREATE", "EXECUTOR_CANCEL"],
     ["$JS", "API", "CONSUMER", "CREATE", "EXECUTOR_CANCEL", ">"],
     ["$JS", "API", "CONSUMER", "INFO", "EXECUTOR_CANCEL", ">"],
     ["$JS", "API", "CONSUMER", "MSG", "NEXT", "EXECUTOR_CANCEL", ">"]]
  }

  lemma CancelTokens(s: seq<string>)
    ensures Grants(CancelGrants(), s) <==> IsCancel(s)
  {
    assert CancelGrants() == AdminGrants("EXECUTOR_CANCEL") + CancelConsumers();
    GrantsConcat(AdminGrants("EXECUTOR_CANCEL"), CancelConsumers(), s);
    AdminTokens("EXECUTOR_CANCEL", s);
    ConsumerTokens(s);
  }

  lemma ConsumerTokens(s: seq<string>)
    ensures Grants(CancelConsumers(), s) <==>
            || Under(["$JS", "API", "CONSUMER", "CREATE", "EXECUTOR_CANCEL"], 0, s)
            || Under(["$JS", "API", "CONSUMER", "INFO", "EXECUTOR_CANCEL"], 1, s)
            || Under(["$JS", "API", "CONSUMER", "MSG", "NEXT", "EXECUTOR_CANCEL"], 1, s)
  {
    var create, gs := ["$JS", "API", "CONSUMER", "CREATE", "EXECUTOR_CANCEL"], CancelConsumers();
    var info, next := ["$JS", "API", "CONSUMER", "INFO", "EXECUTOR_CANCEL"],
        ["$JS", "API", "CONSUMER", "MSG", "NEXT", "EXECUTOR_CANCEL"];
    MatchLiteral(create, s);
    MatchTail(create, s);
    MatchTail(info, s);
    MatchTail(next, s);
    assert Under(create, 0, s) <==> s == create || Under(create, 1, s) by {
      assert |s| == 5 ==> s == s[..5];
    }
    assert gs[0] == create && gs[1] == create + [">"] && gs[2] == info + [">"] && gs[3] == next + [">"];
  }

  /** Everything a runner may publish. */
  ghost predicate MayPublish(runner: string, pool: Option<string>, s: seq<string>) {
    IsReport(runner, s) || IsClaim(pool, s) || IsPull(runner, s) || IsShared(s) || IsCancel(s) ||
        Under(["_INBOX"], 1, s)
  }

  lemma PublishTokens(runner: string, pool: Option<string>, s: seq<string>)
    requires IsName(runner) && SafePool(pool)
    ensures Grants(RunnerPublish(runner, pool), s) <==> MayPublish(runner, pool, s)
  {
    var a, b, c := ReportGrants(runner), PoolGrants(pool), PullGrants(NAMESPACE, runner);
    var d, e, f := SharedGrants(), CancelGrants(), [["_INBOX", ">"]];
    GrantsConcat(a, b, s);
    GrantsConcat(a + b, c, s);
    GrantsConcat(a + b + c, d, s);
    GrantsConcat(a + b + c + d, e, s);
    GrantsConcat(a + b + c + d + e, f, s);
    ReportTokens(runner, s);
    PoolTokens(pool, s);
    PullTokens(runner, s);
    SharedTokens(s);
    CancelTokens(s);
    InboxTokens(s);
  }

  lemma InboxTokens(s: seq<string>)
    ensures Grants([["_INBOX", ">"]], s) <==> Under(["_INBOX"], 1, s)
  {
    MatchTail(["_INBOX"], s);
    assert [["_INBOX", ">"]][0] == ["_INBOX"] + [">"];
  }

  /** The publish list allows exactly these subjects. */
  lemma PublishIff(runner: string, pool: Option<string>, subject: string)
    requires IsName(runner) && SafePool(pool)
    ensures Allowed(Render(RunnerPublish(runner, pool)), subject) <==> MayPublish(runner, pool, Split(subject, '.'))
  {
    PublishDotFree(runner, pool);
    AllowedIffGrants(RunnerPublish(runner, pool), subject);
    PublishTokens(runner, pool, Split(subject, '.'));
  }

  /** A runner announces its own presence and nobody else's. */
  lemma PresenceIsolated(runner: string, pool: Option<string>, who: string, subject: string)
    requires IsName(runner) && SafePool(pool) && Split(subject, '.') == ["runner", who, "presence"]
    ensures Allowed(Render(RunnerPublish(runner, pool)), subject) <==> runner == who
  {
    var s := Split(subject, '.');
    PublishIff(runner, pool, subject);
    assert s[0] == "runner" && s[1] == who && |s| == 3;
    NotPresence(runner, s);
    Begins(["executor", "status"], 2, s);
    Begins(["executor", "events"], 2, s);
    Begins(["executor", "metrics"], 1, s);
    assert s == ["runner", runner, "presence"] ==> s[1] == runner;
  }

  lemma NotPresence(runner: string, s: seq<string>)
    requires |s| == 3 && s[0] == "runner"
    ensures !IsPull(runner, s) && !IsShared(s) && !IsCancel(s) && !Under(["_INBOX"], 1, s)
  {
    Begins(["executor", "datastream"], 2, s);
    Begins(["inventory", "fold", "batch"], 1, s);
    Begins(["_INBOX"], 1, s);
    assert forall op, prio :: !IsLaneSubject(op, prio, runner, s);
  }
}
