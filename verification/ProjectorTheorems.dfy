/** The projector's promises, over every run. */
module ProjectorTheorems {
  import opened Wrappers
  import opened Folds
  import opened Rollups
  import opened Projector
  import opened ProjectorProofs

  function RunCount(t: Rollup, k: RollupKey): nat {
    if k in t then t[k].runCount else 0
  }

  function NetsWithKey(ledger: seq<Flip>, k: RollupKey): set<NetId> {
    set i | 0 <= i < |ledger| && Belongs(ledger[i], k) :: ledger[i].net
  }

  /** Step `j` takes net `n` out of `running`, as the rows show it. */
  predicate LeavesRunning(states: seq<State>, j: nat, n: NetId)
    requires j + 1 < |states|
  {
    RunningRow(states[j], n) && n in states[j + 1].rows && !states[j + 1].rows[n].status.Running?
  }

  lemma NetsWithKeyAppend(ledger: seq<Flip>, f: Flip, k: RollupKey)
    ensures NetsWithKey(ledger + [f], k) ==
            NetsWithKey(ledger, k) + if Belongs(f, k) then {f.net} else {}
  {
    var l' := ledger + [f];
    forall x | x in NetsWithKey(ledger, k) ensures x in NetsWithKey(l', k) {
      var i :| 0 <= i < |ledger| && Belongs(ledger[i], k) && ledger[i].net == x;
      assert l'[i] == ledger[i];
    }
    assert l'[|ledger|] == f;
  }

  lemma {:induction false} OncePerNetCounts(ledger: seq<Flip>, k: RollupKey)
    requires OncePerNet(ledger)
    ensures |NetsWithKey(ledger, k)| == CountIf(ledger, HasKey(k))
    ensures NetsWithKey(ledger, k) <= Nets(ledger) && |Nets(ledger)| == |ledger|
  {
    if ledger == [] {
      assert NetsWithKey(ledger, k) == {} && Nets(ledger) == {};
    } else {
      var n := |ledger| - 1;
      var before, f := ledger[..n], ledger[n];
      OncePerNetCounts(before, k);
      assert ledger == before + [f];
      NetsAppend(before, f);
      NetsWithKeyAppend(before, f, k);
      assert f.net !in Nets(before);
    }
  }

  /** Exactly-once accounting. In every run, whatever was redelivered, lost,
      crashed or ambiguously committed: no net is folded twice; each cell's
      `run_count` is the number of nets committed under its key; and the rows
      that are no longer running are exactly the committed ones plus the ones
      the cancel endpoint took. */
  lemma {:induction false} ExactlyOnceAccounting(states: seq<State>, steps: seq<Step>, k: RollupKey)
    requires IsRun(states, steps)
    ensures
      var s, ledger, cancels := states[|steps|], Ledger(states, steps), Cancels(states, steps);
      && OncePerNet(ledger)
      && RunCount(s.rollup, k) == |NetsWithKey(ledger, k)|
      && SumMap(s.rollup, AllRuns()) == |Nets(ledger)|
      && Nets(ledger) !! cancels
      && (set n | n in s.rows && !s.rows[n].status.Running?) == Nets(ledger) + cancels
  {
    RunInv(states, steps);
    var ledger := Ledger(states, steps);
    OncePerNetCounts(ledger, k);
    CellMeaning(ledger, k);
    GrandTotal(ledger);
  }

  /** In every run the two rollups agree per template, and every cell and user
      window is the one its committed runs determine. */
  lemma RollupsAgree(states: seq<State>, steps: seq<Step>, t: Uuid, k: RollupKey, u: UserKey)
    requires IsRun(states, steps)
    ensures
      var s, ledger := states[|steps|], Ledger(states, steps);
      && SumMap(s.rollup, CellRuns(t)) == SumMap(s.users, UserRunCount(t)) == CountIf(ledger, HasTemplate(t))
      && (k in s.rollup ==> s.rollup[k].durationSum == DurationSum(ledger, k) >= 0
                            && s.rollup[k].durationCount == CountIf(ledger, HasKeyAndDuration(k)))
      && (u in s.users ==> s.users[u].runCount == CountIf(ledger, HasUser(u)) &&
                           IsWindow(ledger, u, s.users[u].firstRun, s.users[u].lastRun))
  {
    RunInv(states, steps);
    TemplateTotals(Ledger(states, steps), t);
    CellMeaning(Ledger(states, steps), k);
    UserMeaning(Ledger(states, steps), u);
  }

  lemma {:induction false} CancelsMeaning(states: seq<State>, steps: seq<Step>)
    requires |states| == |steps| + 1
    ensures Cancels(states, steps) == {} <==>
            forall j :: 0 <= j < |steps| && steps[j].CancelUpdate? ==> !RunningRow(states[j], steps[j].net)
    decreases |steps|
  {
    var n := |steps|;
    if n > 0 {
      CancelsMeaning(states[..n], steps[..n - 1]);
      assert forall j :: 0 <= j < n - 1 ==> steps[..n - 1][j] == steps[j] && states[..n][j] == states[j];
    }
  }

  /** The rollup counts every finished instance exactly when no cancel request
      updated a row that was still running. */
  lemma CountsEveryFlipIff(states: seq<State>, steps: seq<Step>)
    requires IsRun(states, steps)
    ensures
      var s := states[|steps|];
      SumMap(s.rollup, AllRuns()) == |set n | n in s.rows && !s.rows[n].status.Running?| <==>
      forall j :: 0 <= j < |steps| && steps[j].CancelUpdate? ==> !RunningRow(states[j], steps[j].net)
  {
    var s, ledger, cancels := states[|steps|], Ledger(states, steps), Cancels(states, steps);
    ExactlyOnceAccounting(states, steps, RollupKey("", 0, 0, "", Success));
    CancelsMeaning(states, steps);
    assert |Nets(ledger) + cancels| == |Nets(ledger)| + |cancels|;
  }

  /** The condition is needed: a cancel request on a running row finishes the
      instance and folds nothing. */
  lemma CancelEndpointSkipsTheRollup(row: Instance, now: Time) returns (states: seq<State>, steps: seq<Step>)
    requires row.status.Running?
    ensures IsRun(states, steps) && |steps| == 3
    ensures states[3].rows == map["n" := row.(status := Cancelled, completedAt := Some(now))]
    ensures states[3].rollup == map[] && states[3].users == map[]
  {
    var s0 := State(map[], map[], map[], map[], map[], {}, {}, []);
    var s1 := s0.(rows := map["n" := row]);
    var s2 := s1.(cancelling := {"n"});
    var s3 := s0.(rows := map["n" := row.(status := Cancelled, completedAt := Some(now))]);
    states := [s0, s1, s2, s3];
    steps := [CreateInstance("n", row), CancelRead("n"), CancelUpdate("n", now)];
    assert Next(s0, steps[0], s1);
    assert Next(s1, steps[1], s2);
    assert Next(s2, steps[2], s3);
  }

  /** What a step does to the running rows is what its transaction or its
      cancel says, and nothing else. */
  lemma StepFlips(s: State, step: Step, t: State, ledger: seq<Flip>, cancels: set<NetId>, n: NetId)
    requires Next(s, step, t) && Inv(s, ledger, cancels)
    ensures (RunningRow(s, n) && n in t.rows && !t.rows[n].status.Running?) <==>
            n in Nets(FlipsOf(s, step)) || n in CancelsOf(s, step)
  {
    if Quiet(step) {
      QuietTables(s, step, t);
    } else if step.Commit? {
      CommitFlips(s, step, t, n);
    } else {
      RowStepFlips(s, step, t, ledger, cancels, n);
    }
  }

  lemma CommitFlips(s: State, step: Step, t: State, n: NetId)
    requires step.Commit? && Next(s, step, t) && TxInv(s)
    ensures (RunningRow(s, n) && n in t.rows && !t.rows[n].status.Running?) <==> n in Nets(FlipsOf(s, step))
    ensures FlipsOf(s, step) != [] && CancelsOf(s, step) == {}
  {
    assert TxOk(s, s.workers[step.w]);
    assert FlipsOf(s, step)[0].net == s.workers[step.w].tx.net;
    assert Nets(FlipsOf(s, step)) == {s.workers[step.w].tx.net};
  }

  lemma RowStepFlips(s: State, step: Step, t: State, ledger: seq<Flip>, cancels: set<NetId>, n: NetId)
    requires RowStep(step) && Next(s, step, t) && RowsInv(s, ledger, cancels)
    ensures (RunningRow(s, n) && n in t.rows && !t.rows[n].status.Running?) <==> n in CancelsOf(s, step)
    ensures FlipsOf(s, step) == []
  {
  }

  lemma NetsConcat(a: seq<Flip>, b: seq<Flip>)
    ensures Nets(a + b) == Nets(a) + Nets(b)
  {
    forall n | n in Nets(a) + Nets(b) ensures n in Nets(a + b) {
      if i :| 0 <= i < |a| && a[i].net == n {
        assert (a + b)[i].net == n;
      } else {
        var j :| 0 <= j < |b| && b[j].net == n;
        assert (a + b)[|a| + j].net == n;
      }
    }
  }

  /** The ledger is what an observer of the rows sees: a net is in it exactly
      when some commit of the run took its row out of `running`. */
  lemma {:induction false} LedgerObserved(states: seq<State>, steps: seq<Step>, n: NetId)
    requires IsRun(states, steps)
    ensures n in Nets(Ledger(states, steps)) <==>
            exists j :: 0 <= j < |steps| && steps[j].Commit? && LeavesRunning(states, j, n)
    decreases |steps|
  {
    var m := |steps|;
    if m > 0 {
      var before := Ledger(states[..m], steps[..m - 1]);
      LedgerObserved(states[..m], steps[..m - 1], n);
      LastFlips(states, steps, n);
      NetsConcat(before, FlipsOf(states[m - 1], steps[m - 1]));
      EarlierCommits(states, steps, n);
    }
  }

  lemma LastFlips(states: seq<State>, steps: seq<Step>, n: NetId)
    requires IsRun(states, steps) && |steps| > 0
    ensures var m := |steps|;
            n in Nets(FlipsOf(states[m - 1], steps[m - 1])) <==> steps[m - 1].Commit? && LeavesRunning(states, m - 1, n)
  {
    var m := |steps|;
    RunInv(states[..m], steps[..m - 1]);
    if steps[m - 1].Commit? {
      CommitFlips(states[m - 1], steps[m - 1], states[m], n);
    }
  }

  lemma EarlierCommits(states: seq<State>, steps: seq<Step>, n: NetId)
    requires |states| == |steps| + 1 && |steps| > 0
    ensures var m := |steps|;
            (exists j :: 0 <= j < m && steps[j].Commit? && LeavesRunning(states, j, n)) <==>
            || (exists j :: 0 <= j < m - 1 && steps[..m - 1][j].Commit? && LeavesRunning(states[..m], j, n))
            || (steps[m - 1].Commit? && LeavesRunning(states, m - 1, n))
  {
    var m := |steps|;
    forall j | 0 <= j < m - 1
      ensures steps[..m - 1][j] == steps[j] && (LeavesRunning(states[..m], j, n) <==> LeavesRunning(states, j, n)) {
    }
  }

  // ---------------------------------------------------------------------
  // Side effects
  // ---------------------------------------------------------------------

  /** Waiters, subscriptions and triggers run at most once per instance, only
      for a commit that landed, and with the status that won. */
  lemma EffectsAtMostOnce(states: seq<State>, steps: seq<Step>)
    requires IsRun(states, steps)
    ensures
      var s := states[|steps|];
      && (forall i, j :: 0 <= i < j < |s.effects| ==>
            s.effects[i].net != s.effects[j].net || s.effects[i].kind != s.effects[j].kind)
      && (forall i :: 0 <= i < |s.effects| ==>
            FlippedTo(Ledger(states, steps), s.effects[i].net, s.effects[i].status))
  {
    RunInv(states, steps);
  }

  // ---------------------------------------------------------------------
  // Acknowledgement
  // ---------------------------------------------------------------------

  predicate PhaseMessageOk(s: State, p: Phase, ledger: seq<Flip>) {
    && (!p.Idle? ==> p.m in s.messages)
    && (p.InTx? || p.Orphan? || p.Committed? ==> Read(s.messages[p.m].raw) == TerminalEvent(p.ev))
    && ((p.Holding? || p.Orphan?) && p.delivered.Some? ==> p.delivered.value <= s.messages[p.m].delivered)
    && (p.Acking? && Read(s.messages[p.m].raw).TerminalEvent? ==>
          var ev := Read(s.messages[p.m].raw).ev; FlippedTo(ledger, ev.net, ev.status))
  }

  ghost predicate MessagesInv(s: State, ledger: seq<Flip>) {
    forall v :: v in s.workers ==> PhaseMessageOk(s, s.workers[v], ledger)
  }

  /** The steps that change what the broker holds. */
  predicate TouchesMessages(step: Step) {
    step.Publish? || step.Deliver? || step.Ack? || step.ResolveOrphan?
  }

  lemma DatabaseSparesMessages(s: State, step: Step, t: State)
    requires DatabaseStep(step) && Next(s, step, t)
    ensures t.messages == s.messages
  {
  }

  lemma OthersSpareMessages(s: State, step: Step, t: State)
    requires !DatabaseStep(step) && !TouchesMessages(step) && Next(s, step, t)
    ensures t.messages == s.messages
  {
  }

  lemma BrokerMessagesGrow(s: State, step: Step, t: State, m: MsgId)
    requires TouchesMessages(step) && Next(s, step, t) && m in s.messages
    ensures m in t.messages && t.messages[m].raw == s.messages[m].raw
    ensures t.messages[m].delivered >= s.messages[m].delivered
  {
  }

  /** Messages stay, keep their bytes, and only gain deliveries. */
  lemma MessagesGrow(s: State, step: Step, t: State, m: MsgId)
    requires Next(s, step, t) && m in s.messages
    ensures m in t.messages && t.messages[m].raw == s.messages[m].raw
    ensures t.messages[m].delivered >= s.messages[m].delivered
  {
    if TouchesMessages(step) {
      BrokerMessagesGrow(s, step, t, m);
    } else {
      MessagesUntouched(s, step, t);
    }
  }

  lemma FlippedGrows(s: State, step: Step, ledger: seq<Flip>, n: NetId, st: Status)
    requires FlippedTo(ledger, n, st)
    ensures FlippedTo(ledger + FlipsOf(s, step), n, st)
  {
    if FlipsOf(s, step) == [] {
      assert ledger + FlipsOf(s, step) == ledger;
    } else {
      FlippedAppend(ledger, FlipsOf(s, step)[0], n, st);
    }
  }

  lemma OtherPhaseKept(s: State, step: Step, t: State, ledger: seq<Flip>, p: Phase)
    requires Next(s, step, t) && PhaseMessageOk(s, p, ledger)
    ensures PhaseMessageOk(t, p, ledger + FlipsOf(s, step))
  {
    if !p.Idle? {
      MessagesGrow(s, step, t, p.m);
      if p.Acking? && Read(s.messages[p.m].raw).TerminalEvent? {
        var ev := Read(s.messages[p.m].raw).ev;
        FlippedGrows(s, step, ledger, ev.net, ev.status);
      }
    }
  }

  /** A handler's new phase is consistent with its message. */
  lemma ActorPhaseOk(s: State, step: Step, t: State, ledger: seq<Flip>)
    requires Next(s, step, t) && MessagesInv(s, ledger) && EffectsInv(s, ledger)
    requires Actor(step) in s.workers && t.workers[Actor(step)] != s.workers[Actor(step)]
    ensures PhaseMessageOk(t, t.workers[Actor(step)], ledger + FlipsOf(s, step))
  {
    var w := Actor(step);
    assert PhaseMessageOk(s, s.workers[w], ledger);
    if !s.workers[w].Idle? {
      MessagesGrow(s, step, t, s.workers[w].m);
    }
    if step.RunEffect? {
      assert ledger + FlipsOf(s, step) == ledger;
    }
  }

  lemma OnlyActorMoves(s: State, step: Step, t: State, v: Worker)
    requires Next(s, step, t) && v in t.workers
    ensures v in s.workers
    ensures t.workers[v] == s.workers[v] || v == Actor(step)
  {
    if Quiet(step) {
      QuietFrame(s, step, t);
    } else if !step.Commit? {
      RowStepFrame(s, step, t);
    }
  }

  lemma {:induction false} RunMessagesInv(states: seq<State>, steps: seq<Step>)
    requires IsRun(states, steps)
    ensures MessagesInv(states[|steps|], Ledger(states, steps))
    decreases |steps|
  {
    var n := |steps|;
    if n > 0 {
      var before := Ledger(states[..n], steps[..n - 1]);
      var s, step, t := states[n - 1], steps[n - 1], states[n];
      RunMessagesInv(states[..n], steps[..n - 1]);
      RunInv(states[..n], steps[..n - 1]);
      assert Next(s, step, t);
      forall v | v in t.workers ensures PhaseMessageOk(t, t.workers[v], before + FlipsOf(s, step)) {
        OnlyActorMoves(s, step, t, v);
        if t.workers[v] == s.workers[v] {
          OtherPhaseKept(s, step, t, before, s.workers[v]);
        } else {
          ActorPhaseOk(s, step, t, before);
        }
      }
    }
  }

  /** Step `i` is this worker's update for `ev`, and it found no running row. */
  predicate FoundNone(states: seq<State>, steps: seq<Step>, i: nat, w: Worker, ev: Event)
    requires i < |steps| < |states|
  {
    steps[i] == UpdateMatchesNone(w) && HoldsEvent(states[i], w) && HeldEvent(states[i], w) == ev &&
        !RunningRow(states[i], ev.net)
  }

  /** The orphan phase the worker is in at `j` was entered at step `i`, by an update that
      found no running row, and has not been left since. */
  predicate LookedInVain(states: seq<State>, steps: seq<Step>, i: nat, j: nat, w: Worker)
    requires i < j <= |steps| < |states|
  {
    && w in states[j].workers && states[j].workers[w].Orphan?
    && FoundNone(states, steps, i, w, states[j].workers[w].ev)
    && forall l :: i < l <= j ==> w in states[l].workers && states[l].workers[w] == states[j].workers[w]
  }

  lemma OrphanStep(s: State, step: Step, t: State, w: Worker)
    requires Next(s, step, t) && w in t.workers && t.workers[w].Orphan?
    ensures w in s.workers
    ensures s.workers[w] == t.workers[w] ||
            (step == UpdateMatchesNone(w) && HoldsEvent(s, w) && HeldEvent(s, w) == t.workers[w].ev &&
             !RunningRow(s, t.workers[w].ev.net))
  {
    OnlyActorMoves(s, step, t, w);
  }

  lemma {:induction false} OrphanFoundNone(states: seq<State>, steps: seq<Step>, j: nat, w: Worker)
    requires IsRun(states, steps) && j <= |steps|
    requires w in states[j].workers && states[j].workers[w].Orphan?
    ensures exists i :: 0 <= i < j && LookedInVain(states, steps, i, j, w)
    decreases j
  {
    if j > 0 {
      OrphanStep(states[j - 1], steps[j - 1], states[j], w);
      if states[j - 1].workers[w] == states[j].workers[w] {
        OrphanFoundNone(states, steps, j - 1, w);
        var i :| 0 <= i < j - 1 && LookedInVain(states, steps, i, j - 1, w);
        assert LookedInVain(states, steps, i, j, w);
      } else {
        assert LookedInVain(states, steps, j - 1, j, w);
      }
    }
  }

  lemma WhoAcks(s: State, step: Step, t: State, m: MsgId)
    requires Next(s, step, t) && m in s.messages && m in t.messages && !s.messages[m].acked && t.messages[m].acked
    ensures step.Ack? || step.ResolveOrphan?
    ensures step.Ack? ==> s.workers[step.w] == Acking(m)
    ensures step.ResolveOrphan? ==> s.workers[step.w].Orphan? && s.workers[step.w].m == m &&
                                    s.workers[step.w].delivered.GetOr(0) >= MAX_ORPHAN_EVENT_DELIVERIES
  {
    if !TouchesMessages(step) {
      MessagesUntouched(s, step, t);
    }
  }

  lemma MessagesUntouched(s: State, step: Step, t: State)
    requires !TouchesMessages(step) && Next(s, step, t)
    ensures t.messages == s.messages
  {
    if DatabaseStep(step) {
      DatabaseSparesMessages(s, step, t);
    } else {
      OthersSpareMessages(s, step, t);
    }
  }

  /** A terminal event is acknowledged only after its net was flipped to its
      status by a landed commit, or after its update found no running row at a
      delivery numbered ten or later; without delivery info it is never dropped. */
  lemma {:induction false} NeverDroppedEarly(states: seq<State>, steps: seq<Step>, j: nat, m: MsgId)
    requires IsRun(states, steps) && j < |steps|
    requires m in states[j].messages && m in states[j + 1].messages
    requires !states[j].messages[m].acked && states[j + 1].messages[m].acked
    requires Read(states[j].messages[m].raw).TerminalEvent?
    ensures
      var ev := Read(states[j].messages[m].raw).ev;
      || FlippedTo(Ledger(states[..j + 1], steps[..j]), ev.net, ev.status)
      || (&& steps[j].ResolveOrphan? && steps[j].w in states[j].workers
          && states[j].workers[steps[j].w].Orphan?
          && var d := states[j].workers[steps[j].w].delivered;
             && d.Some? && 10 <= d.value <= states[j].messages[m].delivered
             && exists i :: 0 <= i < j && LookedInVain(states, steps, i, j, steps[j].w) &&
                            FoundNone(states, steps, i, steps[j].w, ev))
  {
    var ss, ts := states[..j + 1], steps[..j];
    assert IsRun(ss, ts);
    RunMessagesInv(ss, ts);
    var s, step := states[j], steps[j];
    assert s == ss[|ts|];
    WhoAcks(s, step, states[j + 1], m);
    assert PhaseMessageOk(s, s.workers[step.w], Ledger(ss, ts));
    if step.ResolveOrphan? {
      OrphanFoundNone(states, steps, j, step.w);
      var i :| 0 <= i < j && LookedInVain(states, steps, i, j, step.w);
      assert FoundNone(states, steps, i, step.w, s.workers[step.w].ev);
    }
  }
}
