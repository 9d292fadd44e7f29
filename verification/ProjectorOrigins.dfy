/** Where a committed row comes from: the instance as it was created, and one message. */
module ProjectorOrigins {
  import opened Wrappers
  import opened Rollups
  import opened Projector
  import opened ProjectorProofs
  import opened ProjectorTheorems
  import opened ProjectorStatus

  /** What the event `ev`, applied at `now` to the running row `row`, makes of it. */
  predicate EndsAs(row: Instance, ev: Event, now: Time, f: Flip) {
    && f.net == ev.net
    && f.row.id == row.id && f.row.templateId == row.templateId && f.row.version == row.version
    && f.row.mode == row.mode && f.row.createdBy == row.createdBy
    && f.row.createdAt == row.createdAt && f.row.startedAt == row.startedAt
    && f.row.status == ev.status && f.row.completedAt == Some(now)
    && (ev.envelope.Some? ==> f.row.result == ev.envelope) && (ev.envelope.None? ==> f.row.result == row.result)
    && (f.outcome == Stopped <==> ev.status == Cancelled)
    && (f.outcome == Success <==> ev.status == Completed && !ExplicitOkFalse(ev.envelope))
  }

  // ---------------------------------------------------------------------
  // Running rows are as created
  // ---------------------------------------------------------------------

  lemma RunningBefore(s: State, step: Step, t: State, ledger: seq<Flip>, cancels: set<NetId>, n: NetId)
    requires Next(s, step, t) && Inv(s, ledger, cancels) && RunningRow(t, n)
    ensures step == CreateInstance(n, t.rows[n]) || (RunningRow(s, n) && t.rows[n] == s.rows[n])
  {
    if Quiet(step) {
      QuietTables(s, step, t);
    } else if step.Commit? {
      assert TxOk(s, s.workers[step.w]);
    }
  }

  lemma {:induction false} RunningAsCreated(states: seq<State>, steps: seq<Step>, j: nat, n: NetId) returns (c: nat)
    requires IsRun(states, steps) && j <= |steps| && RunningRow(states[j], n)
    ensures c < j && steps[c] == CreateInstance(n, states[j].rows[n])
    decreases j
  {
    if j == 0 {
      assert false;
    }
    PrefixIsRun(states, steps, j - 1);
    RunningBefore(states[j - 1], steps[j - 1], states[j], Ledger(states[..j], steps[..j - 1]),
                  Cancels(states[..j], steps[..j - 1]), n);
    if steps[j - 1] == CreateInstance(n, states[j].rows[n]) {
      c := j - 1;
    } else {
      c := RunningAsCreated(states, steps, j - 1, n);
    }
  }

  // ---------------------------------------------------------------------
  // Open transactions hold one message's ending
  // ---------------------------------------------------------------------

  /** The flip an open transaction is about to land. */
  function Pending(p: Phase): Flip
    requires p.InTx?
  {
    Flip(p.tx.net, p.tx.row, p.tx.outcome)
  }

  /** Step `u` is the worker's guarded update, for the event of the message it holds. */
  predicate UpdatedAt(states: seq<State>, steps: seq<Step>, u: nat, w: Worker, f: Flip)
    requires u < |steps| < |states|
  {
    && steps[u].UpdateMatchesRow? && steps[u].w == w && HoldsEvent(states[u], w) && RunningRow(states[u], f.net)
    && EndsAs(states[u].rows[f.net], HeldEvent(states[u], w), steps[u].now, f)
  }

  lemma UpdateOpens(s: State, step: Step, t: State)
    requires step.UpdateMatchesRow? && Next(s, step, t)
    ensures HoldsEvent(s, step.w) && t.workers[step.w].InTx?
    ensures RunningRow(s, Pending(t.workers[step.w]).net)
    ensures EndsAs(s.rows[Pending(t.workers[step.w]).net], HeldEvent(s, step.w), step.now, Pending(t.workers[step.w]))
  {
    OutcomeOfReading(s.messages[s.workers[step.w].m].raw);
  }

  /** A transaction was opened by this step, or is the one that was open, with the same flip. */
  lemma TxBefore(s: State, step: Step, t: State, w: Worker)
    requires Next(s, step, t) && w in t.workers && t.workers[w].InTx?
    ensures w in s.workers
    ensures || (step.UpdateMatchesRow? && step.w == w)
            || (s.workers[w].InTx? && Pending(s.workers[w]) == Pending(t.workers[w]))
  {
    OnlyActorMoves(s, step, t, w);
    if t.workers[w] != s.workers[w] {
      ActorTxBefore(s, step, t);
    }
  }

  lemma ActorTxBefore(s: State, step: Step, t: State)
    requires Next(s, step, t) && Actor(step) in s.workers && Actor(step) in t.workers
    requires t.workers[Actor(step)].InTx? && t.workers[Actor(step)] != s.workers[Actor(step)]
    ensures step.UpdateMatchesRow? ||
            (s.workers[Actor(step)].InTx? && Pending(s.workers[Actor(step)]) == Pending(t.workers[Actor(step)]))
  {
    if Quiet(step) {
      QuietFrame(s, step, t);
    } else if !step.Commit? {
      RowStepFrame(s, step, t);
    }
  }

  lemma {:induction false} TxOpened(states: seq<State>, steps: seq<Step>, j: nat, w: Worker) returns (u: nat)
    requires IsRun(states, steps) && j <= |steps| && w in states[j].workers && states[j].workers[w].InTx?
    ensures u < j && UpdatedAt(states, steps, u, w, Pending(states[j].workers[w]))
    decreases j
  {
    if j == 0 {
      assert false;
    }
    TxBefore(states[j - 1], steps[j - 1], states[j], w);
    if steps[j - 1].UpdateMatchesRow? && steps[j - 1].w == w {
      u := j - 1;
      UpdateOpens(states[u], steps[u], states[j]);
    } else {
      u := TxOpened(states, steps, j - 1, w);
    }
  }

  // ---------------------------------------------------------------------
  // The origin of a flip
  // ---------------------------------------------------------------------

  /** Step `c` created the instance, step `u` updated it for a message the worker held, and
      step `j` committed that update. */
  predicate Origin(states: seq<State>, steps: seq<Step>, c: nat, u: nat, j: nat, f: Flip)
    requires |states| == |steps| + 1
  {
    && c < u < j < |steps|
    && steps[c].CreateInstance? && steps[c].net == f.net && steps[j].Commit? && HoldsEvent(states[u], steps[j].w)
    && UpdatedAt(states, steps, u, steps[j].w, f)
    && EndsAs(steps[c].row, HeldEvent(states[u], steps[j].w), steps[u].now, f)
    && LeavesRunning(states, j, f.net) && states[j + 1].rows[f.net] == f.row
  }

  /** The commit that put a flip in the ledger. */
  lemma {:induction false} LedgerEntry(states: seq<State>, steps: seq<Step>, i: nat) returns (j: nat)
    requires |states| == |steps| + 1 && i < |Ledger(states, steps)|
    ensures j < |steps| && FlipsOf(states[j], steps[j]) == [Ledger(states, steps)[i]]
    decreases |steps|
  {
    var n := |steps|;
    var before := Ledger(states[..n], steps[..n - 1]);
    if i < |before| {
      j := LedgerEntry(states[..n], steps[..n - 1], i);
    } else {
      j := n - 1;
    }
  }

  /** Every run the rollups count is an instance that was created, ended by one message: it
      keeps what it was created with, and its status, result, completion time and outcome
      are those of the message its handler held. */
  lemma {:induction false} FlipOrigin(states: seq<State>, steps: seq<Step>, i: nat) returns (c: nat, u: nat, j: nat)
    requires IsRun(states, steps) && i < |Ledger(states, steps)|
    ensures Origin(states, steps, c, u, j, Ledger(states, steps)[i])
  {
    var f := Ledger(states, steps)[i];
    j := LedgerEntry(states, steps, i);
    var w := steps[j].w;
    assert FlipsOf(states[j], steps[j])[0] == f;
    u := TxOpened(states, steps, j, w);
    c := RunningAsCreated(states, steps, u, f.net);
    CommitLands(states, steps, j, f);
  }

  lemma {:induction false} CommitLands(states: seq<State>, steps: seq<Step>, j: nat, f: Flip)
    requires IsRun(states, steps) && j < |steps| && FlipsOf(states[j], steps[j]) == [f]
    ensures LeavesRunning(states, j, f.net) && states[j + 1].rows[f.net] == f.row
  {
    PrefixIsRun(states, steps, j);
    CommitShows(states[j], steps[j], states[j + 1], f);
    assert TxOk(states[j], states[j].workers[steps[j].w]);
    assert FlipsOf(states[j], steps[j])[0] == f;
  }

  // ---------------------------------------------------------------------
  // The sweep
  // ---------------------------------------------------------------------

  /** The step is a sweep that finds the row finished before its cutoff. */
  predicate Sweeps(s: State, step: Step, n: NetId) {
    && step.SweepRead? && n in s.rows
    && (s.rows[n].status == Completed || s.rows[n].status == Failed || s.rows[n].status == Cancelled)
    && s.rows[n].completedAt.Some? && s.rows[n].completedAt.value < step.cutoff
  }

  lemma StaleBefore(s: State, step: Step, t: State, n: NetId)
    requires Next(s, step, t) && n in t.stale
    ensures n in s.stale || Sweeps(s, step, n)
  {
    if Quiet(step) {
      QuietTables(s, step, t);
    }
  }

  lemma {:induction false} StaleWasSwept(states: seq<State>, steps: seq<Step>, j: nat, n: NetId) returns (i: nat)
    requires IsRun(states, steps) && j <= |steps| && n in states[j].stale
    ensures i < j && Sweeps(states[i], steps[i], n)
    decreases j
  {
    if j == 0 {
      assert false;
    }
    StaleBefore(states[j - 1], steps[j - 1], states[j], n);
    if n in states[j - 1].stale {
      i := StaleWasSwept(states, steps, j - 1, n);
    } else {
      i := j - 1;
    }
  }

  lemma ArchivedBefore(s: State, step: Step, t: State, ledger: seq<Flip>, cancels: set<NetId>, n: NetId)
    requires Next(s, step, t) && Inv(s, ledger, cancels) && n in t.rows && t.rows[n].status.Archived?
    ensures || (n in s.rows && s.rows[n].status.Archived?)
            || (step == SweepArchive(n) && n in s.stale)
  {
    if Quiet(step) {
      QuietTables(s, step, t);
    } else if step.Commit? {
      assert TxOk(s, s.workers[step.w]);
    }
  }

  /** An archived instance was found finished, before the cutoff, by an earlier sweep. */
  lemma {:induction false} ArchivedWasFinished(states: seq<State>, steps: seq<Step>, j: nat, n: NetId)
    returns (i: nat)
    requires IsRun(states, steps) && j <= |steps| && n in states[j].rows && states[j].rows[n].status.Archived?
    ensures i < j && Sweeps(states[i], steps[i], n)
    decreases j
  {
    if j == 0 {
      assert false;
    }
    PrefixIsRun(states, steps, j - 1);
    ArchivedBefore(states[j - 1], steps[j - 1], states[j], Ledger(states[..j], steps[..j - 1]),
                   Cancels(states[..j], steps[..j - 1]), n);
    if n in states[j - 1].rows && states[j - 1].rows[n].status.Archived? {
      i := ArchivedWasFinished(states, steps, j - 1, n);
    } else {
      i := StaleWasSwept(states, steps, j - 1, n);
    }
  }

  // ---------------------------------------------------------------------
  // The cancel endpoint
  // ---------------------------------------------------------------------

  /** The step is a cancel request that finds the row neither completed nor cancelled. */
  predicate AsksToCancel(s: State, step: Step, n: NetId) {
    step == CancelRead(n) && n in s.rows && s.rows[n].status != Completed && s.rows[n].status != Cancelled
  }

  lemma CancellingBefore(s: State, step: Step, t: State, n: NetId)
    requires Next(s, step, t) && n in t.cancelling
    ensures n in s.cancelling || AsksToCancel(s, step, n)
  {
    if DatabaseStep(step) {
      DatabaseAsksNothing(s, step, t);
    }
  }

  lemma DatabaseAsksNothing(s: State, step: Step, t: State)
    requires DatabaseStep(step) && Next(s, step, t)
    ensures t.cancelling == s.cancelling
  {
  }

  /** A cancel update was asked for while the row was neither completed nor cancelled: what it
      rewinds to cancelled ended in between, or was failed or archived all along. */
  lemma {:induction false} CancelWasAsked(states: seq<State>, steps: seq<Step>, j: nat, n: NetId) returns (i: nat)
    requires IsRun(states, steps) && j <= |steps| && n in states[j].cancelling
    ensures i < j && AsksToCancel(states[i], steps[i], n)
    decreases j
  {
    if j == 0 {
      assert false;
    }
    CancellingBefore(states[j - 1], steps[j - 1], states[j], n);
    if n in states[j - 1].cancelling {
      i := CancelWasAsked(states, steps, j - 1, n);
    } else {
      i := j - 1;
    }
  }
}
