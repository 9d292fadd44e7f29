/** The order of an instance's statuses, and what can break it. */
module ProjectorStatus {
  import opened Wrappers
  import opened Text
  import opened Rollups
  import opened Projector
  import opened ProjectorProofs
  import opened ProjectorHandler

  /** Running, then one terminal status, then archived. */
  predicate Forward(a: Status, b: Status) {
    a == b || a.Running? || (a.Terminal() && b.Archived?)
  }

  /** A cancel request updates a row that has already ended as something else. */
  predicate Rewinds(s: State, step: Step, n: NetId) {
    step.CancelUpdate? && step.net == n && n in s.rows && !s.rows[n].status.Running? && !s.rows[n].status.Cancelled?
  }

  predicate CancelsNet(step: Step, n: NetId) {
    step.CancelUpdate? && step.net == n
  }

  /** What a step can do to a row that is no longer running. */
  lemma EndedRowStep(s: State, step: Step, t: State, ledger: seq<Flip>, cancels: set<NetId>, n: NetId)
    requires Next(s, step, t) && Inv(s, ledger, cancels) && n in s.rows && !s.rows[n].status.Running?
    ensures n in t.rows && t.rows[n].result == s.rows[n].result
    ensures CancelsNet(step, n) ==> t.rows[n].status.Cancelled?
    ensures !CancelsNet(step, n) ==> t.rows[n] == s.rows[n] || t.rows[n] == s.rows[n].(status := Archived)
  {
    if Quiet(step) {
      QuietTables(s, step, t);
    } else if step.Commit? {
      CommitSparesEnded(s, step, t, n);
    } else {
      OthersSpareEnded(s, step, t, n);
    }
  }

  lemma OthersSpareEnded(s: State, step: Step, t: State, n: NetId)
    requires step.CreateInstance? || step.SweepArchive? || step.CancelUpdate?
    requires Next(s, step, t) && n in s.rows && !s.rows[n].status.Running?
    ensures n in t.rows && t.rows[n].result == s.rows[n].result
    ensures CancelsNet(step, n) ==> t.rows[n].status.Cancelled?
    ensures !CancelsNet(step, n) ==> t.rows[n] == s.rows[n] || t.rows[n] == s.rows[n].(status := Archived)
  {
  }

  lemma CommitSparesEnded(s: State, step: Step, t: State, n: NetId)
    requires step.Commit? && Next(s, step, t) && TxInv(s) && n in s.rows
    ensures n in t.rows && (!s.rows[n].status.Running? ==> t.rows[n] == s.rows[n])
  {
    assert TxOk(s, s.workers[step.w]);
  }

  lemma RowsStay(s: State, step: Step, t: State, n: NetId)
    requires Next(s, step, t) && n in s.rows
    ensures n in t.rows
  {
    if Quiet(step) {
      QuietTables(s, step, t);
    }
  }

  /** A step moves a status forward exactly when it is not a cancel update of a row that
      ended otherwise. */
  lemma StepForwardIff(s: State, step: Step, t: State, ledger: seq<Flip>, cancels: set<NetId>, n: NetId)
    requires Next(s, step, t) && Inv(s, ledger, cancels) && n in s.rows
    ensures n in t.rows
    ensures Forward(s.rows[n].status, t.rows[n].status) <==> !Rewinds(s, step, n)
  {
    RowsStay(s, step, t, n);
    if !s.rows[n].status.Running? {
      EndedRowStep(s, step, t, ledger, cancels, n);
    }
  }

  lemma {:induction false} PrefixIsRun(states: seq<State>, steps: seq<Step>, j: nat)
    requires IsRun(states, steps) && j <= |steps|
    ensures IsRun(states[..j + 1], steps[..j])
    ensures Inv(states[j], Ledger(states[..j + 1], steps[..j]), Cancels(states[..j + 1], steps[..j]))
  {
    RunInv(states[..j + 1], steps[..j]);
  }

  lemma {:induction false} RowsStayInRun(states: seq<State>, steps: seq<Step>, i: nat, j: nat, n: NetId)
    requires IsRun(states, steps) && i <= j <= |steps| && n in states[i].rows
    ensures n in states[j].rows
    decreases j
  {
    if i < j {
      RowsStayInRun(states, steps, i, j - 1, n);
      RowsStay(states[j - 1], steps[j - 1], states[j], n);
    }
  }

  /** Step `l` keeps the net's row and moves its status forward. */
  predicate MovesForward(states: seq<State>, l: nat, n: NetId)
    requires l + 1 < |states|
  {
    n in states[l].rows && n in states[l + 1].rows && Forward(states[l].rows[n].status, states[l + 1].rows[n].status)
  }

  lemma MovesForwardIff(states: seq<State>, steps: seq<Step>, l: nat, n: NetId)
    requires IsRun(states, steps) && l < |steps| && n in states[l].rows
    ensures MovesForward(states, l, n) <==> !Rewinds(states[l], steps[l], n)
  {
    PrefixIsRun(states, steps, l);
    StepForwardIff(states[l], steps[l], states[l + 1],
                   Ledger(states[..l + 1], steps[..l]), Cancels(states[..l + 1], steps[..l]), n);
  }

  /** In a run the status of a net only moves forward, step by step, if and only if no
      cancel request updates its row after it ended otherwise. */
  lemma StatusOrderIff(states: seq<State>, steps: seq<Step>, i: nat, j: nat, n: NetId)
    requires IsRun(states, steps) && i <= j <= |steps| && n in states[i].rows
    ensures (forall l: nat :: i <= l < j ==> MovesForward(states, l, n)) <==>
            (forall l: nat :: i <= l < j ==> !Rewinds(states[l], steps[l], n))
  {
    forall l: nat | i <= l < j ensures MovesForward(states, l, n) <==> !Rewinds(states[l], steps[l], n) {
      RowsStayInRun(states, steps, i, l, n);
      MovesForwardIff(states, steps, l, n);
    }
  }

  lemma EndedAt(states: seq<State>, steps: seq<Step>, l: nat, n: NetId)
    requires IsRun(states, steps) && l < |steps| && n in states[l].rows && !states[l].rows[n].status.Running?
    ensures n in states[l + 1].rows && states[l + 1].rows[n].result == states[l].rows[n].result
    ensures !states[l + 1].rows[n].status.Running?
    ensures !CancelsNet(steps[l], n) ==> SameUpToArchive(states[l].rows[n], states[l + 1].rows[n])
    ensures !Rewinds(states[l], steps[l], n) ==> Forward(states[l].rows[n].status, states[l + 1].rows[n].status)
  {
    PrefixIsRun(states, steps, l);
    EndedRowStep(states[l], steps[l], states[l + 1],
                 Ledger(states[..l + 1], steps[..l]), Cancels(states[..l + 1], steps[..l]), n);
    MovesForwardIff(states, steps, l, n);
  }

  predicate SameUpToArchive(before: Instance, after: Instance) {
    after == before || after == before.(status := Archived)
  }

  /** The result of an ended instance is never rewritten, by anything; its status moves
      forward unless a cancel rewinds it; and without a cancel update of this very net the
      whole row stays as it is, up to being archived. */
  lemma {:induction false} FirstCommitWins(states: seq<State>, steps: seq<Step>, i: nat, j: nat, n: NetId)
    requires IsRun(states, steps) && i <= j <= |steps| && n in states[i].rows && !states[i].rows[n].status.Running?
    ensures n in states[j].rows && !states[j].rows[n].status.Running?
    ensures states[j].rows[n].result == states[i].rows[n].result
    ensures (forall l: nat :: i <= l < j ==> !Rewinds(states[l], steps[l], n)) ==>
              Forward(states[i].rows[n].status, states[j].rows[n].status)
    ensures (forall l: nat :: i <= l < j ==> !CancelsNet(steps[l], n)) ==>
              SameUpToArchive(states[i].rows[n], states[j].rows[n])
  {
    var row := RowIn(states, n, states[i].rows[n]);
    var rewinds, cancels := RewindsIn(states, steps, n), CancelsIn(steps, n);
    RowMoves(states, steps, i, j, n);
    RowsStayInRun(states, steps, i, j, n);
    EndedChain(row, rewinds, cancels, i, j);
  }

  lemma {:induction false} RowMoves(states: seq<State>, steps: seq<Step>, i: nat, j: nat, n: NetId)
    requires IsRun(states, steps) && i <= j <= |steps| && n in states[i].rows
    ensures var row := RowIn(states, n, states[i].rows[n]);
            forall l: nat :: i <= l < j ==>
                               Moves(row(l), row(l + 1), RewindsIn(states, steps, n)(l), CancelsIn(steps, n)(l))
  {
    forall l: nat | i <= l < j
      ensures var row := RowIn(states, n, states[i].rows[n]);
              Moves(row(l), row(l + 1), RewindsIn(states, steps, n)(l), CancelsIn(steps, n)(l))
    {
      RowsStayInRun(states, steps, i, l, n);
      MovesAt(states, steps, l, n);
    }
  }

  function RowIn(states: seq<State>, n: NetId, default: Instance): nat -> Instance {
    (l: nat) => if l < |states| && n in states[l].rows then states[l].rows[n] else default
  }

  function RewindsIn(states: seq<State>, steps: seq<Step>, n: NetId): nat -> bool {
    (l: nat) => l < |states| && l < |steps| && Rewinds(states[l], steps[l], n)
  }

  function CancelsIn(steps: seq<Step>, n: NetId): nat -> bool {
    (l: nat) => l < |steps| && CancelsNet(steps[l], n)
  }

  /** What a step may do to an ended row. */
  predicate Moves(a: Instance, b: Instance, rewinds: bool, cancels: bool) {
    !a.status.Running? ==>
      && !b.status.Running? && b.result == a.result
      && (!cancels ==> SameUpToArchive(a, b)) && (!rewinds ==> Forward(a.status, b.status))
  }

  lemma MovesAt(states: seq<State>, steps: seq<Step>, l: nat, n: NetId)
    requires IsRun(states, steps) && l < |steps| && n in states[l].rows
    ensures n in states[l + 1].rows
    ensures Moves(states[l].rows[n], states[l + 1].rows[n], Rewinds(states[l], steps[l], n), CancelsNet(steps[l], n))
  {
    RowsStayInRun(states, steps, l, l + 1, n);
    if !states[l].rows[n].status.Running? {
      EndedAt(states, steps, l, n);
    }
  }

  /** An ended row through such moves. */
  lemma {:induction false} EndedChain(row: nat -> Instance, rewinds: nat -> bool, cancels: nat -> bool, i: nat, j: nat)
    requires i <= j && !row(i).status.Running?
    requires forall l: nat :: i <= l < j ==> Moves(row(l), row(l + 1), rewinds(l), cancels(l))
    ensures !row(j).status.Running? && row(j).result == row(i).result
    ensures (forall l: nat :: i <= l < j ==> !rewinds(l)) ==> Forward(row(i).status, row(j).status)
    ensures (forall l: nat :: i <= l < j ==> !cancels(l)) ==> SameUpToArchive(row(i), row(j))
    decreases j
  {
    if i < j {
      var last: nat := j - 1;
      EndedChain(row, rewinds, cancels, i, last);
      assert Moves(row(last), row(last + 1), rewinds(last), cancels(last));
    }
  }

  /** A committed flip is what the row shows from then on: until a cancel update of that
      net the row is the flip's row, up to being archived. */
  lemma CommittedRowStays(states: seq<State>, steps: seq<Step>, c: nat, j: nat, f: Flip)
    requires IsRun(states, steps) && c < j <= |steps| && FlipsOf(states[c], steps[c]) == [f]
    requires forall l: nat :: c < l < j ==> !CancelsNet(steps[l], f.net)
    ensures f.net in states[j].rows && SameUpToArchive(f.row, states[j].rows[f.net])
  {
    PrefixIsRun(states, steps, c);
    CommitShows(states[c], steps[c], states[c + 1], f);
    FirstCommitWins(states, steps, c + 1, j, f.net);
  }

  lemma CommitShows(s: State, step: Step, t: State, f: Flip)
    requires Next(s, step, t) && TxInv(s) && FlipsOf(s, step) == [f]
    ensures f.net in t.rows && t.rows[f.net] == f.row && f.row.status.Terminal()
  {
    assert TxOk(s, s.workers[step.w]);
    assert FlipsOf(s, step)[0] == f;
  }

  // ---------------------------------------------------------------------
  // Every status the condition names is reached
  // ---------------------------------------------------------------------

  lemma Extend(states: seq<State>, steps: seq<Step>, step: Step, t: State)
    requires IsRun(states, steps) && Next(states[|steps|], step, t)
    ensures IsRun(states + [t], steps + [step])
  {
  }

  lemma {:induction false} ExtendPath(states: seq<State>, steps: seq<Step>, more: seq<State>, path: seq<Step>)
    requires IsRun(states, steps) && IsPath(more, path) && more[0] == states[|steps|]
    ensures IsRun(states + more[1..], steps + path)
  {
    var ss, ts := states + more[1..], steps + path;
    forall i | 0 <= i < |ts| ensures Next(ss[i], ts[i], ss[i + 1]) {
      if i >= |steps| {
        assert ss[i] == more[i - |steps|] && ss[i + 1] == more[i - |steps| + 1];
      }
    }
  }

  function Subject(kind: string): string {
    Join(["petri", "ws", "n", "events", kind], '.')
  }

  lemma SubjectReads(kind: string)
    requires '.' !in kind
    ensures Split(Subject(kind), '.') == ["petri", "ws", "n", "events", kind]
  {
    SplitJoin(["petri", "ws", "n", "events", kind], '.');
  }

  function Ending(st: Status): RawMessage {
    RawMessage(Subject(if st.Failed? then "failed" else "completed"), Empty)
  }

  lemma EndingReads(st: Status)
    ensures var r := Read(Ending(st));
            r.TerminalEvent? && r.ev.net == "n" && r.ev.status == if st.Failed? then Failed else Completed
  {
    SubjectReads(if st.Failed? then "failed" else "completed");
    assert "failed" != "completed";
  }

  const EMPTY: State := State(map[], map[], map[], map[], map[0 := Idle], {}, {}, [])

  /** A run that creates an instance, lets a cancel request read it if `early`, and delivers
      its terminal event. */
  lemma DeliveredRun(row: Instance, st: Status, early: bool) returns (states: seq<State>, steps: seq<Step>)
    requires row.status.Running?
    ensures IsRun(states, steps) && states[|steps|] == Delivered(row, st, early)
  {
    states, steps := CreatedRun(row, early);
    var s2 := states[|steps|];
    var s3 := s2.(messages := map[0 := Message(Ending(st), 0, false)]);
    Extend(states, steps, Publish(0, Ending(st)), s3);
    states, steps := states + [s3], steps + [Publish(0, Ending(st))];
    var s4 := Delivered(row, st, early);
    assert s4.messages == s3.messages[0 := s3.messages[0].(delivered := 1)];
    assert s4.workers == s3.workers[0 := Holding(0, Some(1))];
    Extend(states, steps, Deliver(0, 0, true), s4);
    states, steps := states + [s4], steps + [Deliver(0, 0, true)];
  }

  lemma CreatedRun(row: Instance, early: bool) returns (states: seq<State>, steps: seq<Step>)
    requires row.status.Running?
    ensures IsRun(states, steps)
    ensures states[|steps|] == EMPTY.(rows := map["n" := row], cancelling := if early then {"n"} else {})
  {
    var s1 := EMPTY.(rows := map["n" := row]);
    states, steps := [EMPTY, s1], [CreateInstance("n", row)];
    if early {
      Extend(states, steps, CancelRead("n"), s1.(cancelling := {"n"}));
      states, steps := states + [s1.(cancelling := {"n"})], steps + [CancelRead("n")];
    }
  }

  function Delivered(row: Instance, st: Status, early: bool): State {
    State(map["n" := row], map[], map[], map[0 := Message(Ending(st), 1, false)], map[0 := Holding(0, Some(1))],
          {}, if early then {"n"} else {}, [])
  }

  /** And then handles it. */
  lemma HandledRun(row: Instance, now: Time, st: Status, early: bool) returns (states: seq<State>, steps: seq<Step>)
    requires row.status.Running?
    ensures IsRun(states, steps)
    ensures var t := states[|steps|];
            && t.cancelling == (if early then {"n"} else {}) && t.stale == {}
            && t.rows.Keys == {"n"} && t.rows["n"].status == (if st.Failed? then Failed else Completed)
            && t.rows["n"].completedAt == Some(now)
            && forall v :: v in t.workers ==> !t.workers[v].InTx?
  {
    states, steps := DeliveredRun(row, st, early);
    EndingReads(st);
    var more, path := HandlerIsSteps(Delivered(row, st, early), 0, now, Faults(true, true, true, true, LandsOk));
    ExtendPath(states, steps, more, path);
    states, steps := states + more[1..], steps + path;
  }

  /** Each failing status really occurs: for every one of them there is a run whose last
      step is a cancel update that rewinds it. A completed row is lost to the gap between
      the endpoint's read and its update; a failed or archived row needs no race, since the
      endpoint refuses neither. */
  lemma RewindsOccur(row: Instance, now: Time, st: Status) returns (states: seq<State>, steps: seq<Step>)
    requires row.status.Running? && !st.Running? && !st.Cancelled?
    ensures IsRun(states, steps) && |steps| > 0 && steps[|steps| - 1] == CancelUpdate("n", now)
    ensures "n" in states[|steps| - 1].rows && states[|steps| - 1].rows["n"].status == st
    ensures "n" in states[|steps|].rows && states[|steps|].rows["n"].status.Cancelled?
  {
    states, steps := HandledRun(row, now, st, st.Completed?);
    if st.Archived? {
      states, steps := ArchivedAfter(states, steps, now);
    }
    if !st.Completed? {
      var s := states[|steps|];
      var read := s.(cancelling := s.cancelling + {"n"});
      Extend(states, steps, CancelRead("n"), read);
      states, steps := states + [read], steps + [CancelRead("n")];
    }
    var s := states[|steps|];
    var t := s.(rows := s.rows["n" := s.rows["n"].(status := Cancelled, completedAt := Some(now))],
                cancelling := s.cancelling - {"n"});
    Extend(states, steps, CancelUpdate("n", now), t);
    states, steps := states + [t], steps + [CancelUpdate("n", now)];
  }

  lemma ArchivedAfter(before: seq<State>, path: seq<Step>, now: Time) returns (states: seq<State>, steps: seq<Step>)
    requires IsRun(before, path)
    requires var s := before[|path|];
             && s.stale == {} && s.rows.Keys == {"n"} && s.rows["n"].status.Terminal() &&
                s.rows["n"].completedAt == Some(now)
             && forall v :: v in s.workers ==> !s.workers[v].InTx?
    ensures IsRun(states, steps)
    ensures var t := states[|steps|];
            && t.rows.Keys == {"n"} && t.rows["n"].status.Archived? && t.workers == before[|path|].workers
            && t.cancelling == before[|path|].cancelling
  {
    var s := before[|path|];
    assert "n" in s.rows.Keys;
    var read := s.(stale := {"n"});
    assert (set n | n in s.rows && Stale(s.rows[n], now + 1)) == {"n"};
    Extend(before, path, SweepRead(now + 1), read);
    states, steps := before + [read], path + [SweepRead(now + 1)];
    var t := read.(rows := s.rows["n" := s.rows["n"].(status := Archived)], stale := {});
    assert read.stale - {"n"} == {};
    Extend(states, steps, SweepArchive("n"), t);
    states, steps := states + [t], steps + [SweepArchive("n")];
  }
}
