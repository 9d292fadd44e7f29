/** What every run of the projector keeps. */
module ProjectorProofs {
  import opened Wrappers
  import opened Folds
  import opened Rollups
  import opened Projector

  function Nets(ledger: seq<Flip>): set<NetId> {
    set i | 0 <= i < |ledger| :: ledger[i].net
  }

  predicate OncePerNet(ledger: seq<Flip>) {
    forall i, j :: 0 <= i < j < |ledger| ==> ledger[i].net != ledger[j].net
  }

  predicate FlippedTo(ledger: seq<Flip>, n: NetId, st: Status) {
    exists i :: 0 <= i < |ledger| && ledger[i].net == n && ledger[i].row.status == st
  }

  /** A row has left `running` exactly when it was committed once or cancelled once. */
  ghost predicate RowsInv(s: State, ledger: seq<Flip>, cancels: set<NetId>) {
    && OncePerNet(ledger)
    && Nets(ledger) !! cancels
    && Nets(ledger) <= s.rows.Keys
    && cancels <= s.rows.Keys
    && (forall n :: n in s.rows ==> (s.rows[n].status.Running? <==> n !in Nets(ledger) && n !in cancels))
    && (forall n :: n in s.stale ==> n in s.rows && !s.rows[n].status.Running?)
  }

  ghost predicate TablesInv(s: State, ledger: seq<Flip>) {
    s.rollup == RollupOf(ledger) && s.users == UsersOf(ledger)
  }

  /** An open transaction holds what the committed tables say, bumped: its
      locks kept everyone else away since it read them. */
  ghost predicate TxOk(s: State, p: Phase)
    requires p.InTx?
  {
    && RunningRow(s, p.tx.net)
    && p.ev.net == p.tx.net && p.tx.row.status == p.ev.status && p.ev.status.Terminal()
    && (exists now :: p.tx.row == Terminated(s.rows[p.tx.net], p.ev, now))
    && p.tx.outcome == DeriveOutcome(p.ev.status, p.ev.envelope)
    && (p.tx.cell.Some? ==> p.tx.cell.value == BumpCell(Lookup(s.rollup, p.tx.Key()), p.tx.row))
    && (p.tx.user.Some? ==> p.tx.user.value == BumpUser(Lookup(s.users, p.tx.User()), p.tx.row))
  }

  /** Two open transactions hold locks on different rows. */
  predicate Apart(a: Tx, b: Tx) {
    && a.net != b.net
    && (a.cell.Some? && b.cell.Some? ==> a.Key() != b.Key())
    && (a.user.Some? && b.user.Some? ==> a.User() != b.User())
  }

  ghost predicate TxInv(s: State) {
    && (forall v :: v in s.workers && s.workers[v].InTx? ==> TxOk(s, s.workers[v]))
    && (forall v, w :: v in s.workers && w in s.workers && v != w && s.workers[v].InTx? && s.workers[w].InTx? ==>
          Apart(s.workers[v].tx, s.workers[w].tx))
  }

  /** A side effect belongs to a landed commit; a handler still owes only
      effects no one has run. */
  ghost predicate EffectsInv(s: State, ledger: seq<Flip>) {
    && (forall i :: 0 <= i < |s.effects| ==> FlippedTo(ledger, s.effects[i].net, s.effects[i].status))
    && (forall i, j :: 0 <= i < j < |s.effects| && s.effects[i].net == s.effects[j].net ==>
          s.effects[i].kind != s.effects[j].kind)
    && (forall v :: v in s.workers && s.workers[v].Committed? ==>
          FlippedTo(ledger, s.workers[v].ev.net, s.workers[v].ev.status))
    && (forall v, i :: v in s.workers && s.workers[v].Committed? && 0 <= i < |s.effects| &&
                       s.effects[i].net == s.workers[v].ev.net ==>
          Rank(s.effects[i].kind) < Rank(s.workers[v].next))
    && (forall v, w :: v in s.workers && w in s.workers && v != w && s.workers[v].Committed? &&
                       s.workers[w].Committed? ==>
          s.workers[v].ev.net != s.workers[w].ev.net)
  }

  ghost predicate Inv(s: State, ledger: seq<Flip>, cancels: set<NetId>) {
    && RowsInv(s, ledger, cancels)
    && TablesInv(s, ledger)
    && TxInv(s)
    && EffectsInv(s, ledger)
  }

  lemma FlippedIsNet(ledger: seq<Flip>, n: NetId, st: Status)
    requires FlippedTo(ledger, n, st)
    ensures n in Nets(ledger)
  {
  }

  lemma NetsAppend(ledger: seq<Flip>, f: Flip)
    ensures Nets(ledger + [f]) == Nets(ledger) + {f.net}
  {
    var l' := ledger + [f];
    forall n | n in Nets(ledger) + {f.net} ensures n in Nets(l') {
      if n == f.net {
        assert l'[|ledger|].net == n;
      } else {
        var i :| 0 <= i < |ledger| && ledger[i].net == n;
        assert l'[i].net == n;
      }
    }
  }

  lemma FlippedAppend(ledger: seq<Flip>, f: Flip, n: NetId, st: Status)
    requires FlippedTo(ledger, n, st)
    ensures FlippedTo(ledger + [f], n, st)
  {
    var i :| 0 <= i < |ledger| && ledger[i].net == n && ledger[i].row.status == st;
    assert (ledger + [f])[i] == ledger[i];
  }

  lemma CommitKeepsRows(s: State, step: Step, t: State, ledger: seq<Flip>, cancels: set<NetId>)
    requires step.Commit? && Next(s, step, t) && RowsInv(s, ledger, cancels) && TxInv(s)
    ensures RowsInv(t, ledger + FlipsOf(s, step), cancels)
  {
    var p := s.workers[step.w];
    assert TxOk(s, p);
    NetsAppend(ledger, Flip(p.tx.net, p.tx.row, p.tx.outcome));
  }

  lemma CommitKeepsTables(s: State, step: Step, t: State, ledger: seq<Flip>)
    requires step.Commit? && Next(s, step, t) && TablesInv(s, ledger) && TxInv(s)
    ensures TablesInv(t, ledger + FlipsOf(s, step))
  {
    var p := s.workers[step.w];
    assert TxOk(s, p);
    assert (ledger + FlipsOf(s, step))[..|ledger|] == ledger;
  }

  /** The committing transaction's keys are locked by no other. */
  lemma CommitKeepsTx(s: State, step: Step, t: State)
    requires step.Commit? && Next(s, step, t) && TxInv(s)
    ensures TxInv(t)
  {
    CommitLeavesTables(s, step, t);
    forall v | v in t.workers && t.workers[v].InTx? ensures TxOk(t, t.workers[v]) {
      OtherTxOk(s, t, s.workers[step.w].tx, s.workers[v]);
    }
  }

  /** What a commit leaves, and to whom. */
  lemma CommitLeavesTables(s: State, step: Step, t: State)
    requires step.Commit? && Next(s, step, t)
    ensures OpenTx(s, step.w) && s.workers[step.w].tx.cell.Some? && s.workers[step.w].tx.user.Some?
    ensures var tx := s.workers[step.w].tx;
            && t.rows == s.rows[tx.net := tx.row] && t.rollup == s.rollup[tx.Key() := tx.cell.value]
            && t.users == s.users[tx.User() := tx.user.value]
    ensures t.workers.Keys == s.workers.Keys && !t.workers[step.w].InTx?
    ensures forall v :: v in s.workers && v != step.w ==> t.workers[v] == s.workers[v]
  {
  }

  /** A transaction that shares no key with a committed one still holds what the tables say. */
  lemma OtherTxOk(s: State, t: State, tx: Tx, p: Phase)
    requires p.InTx? && TxOk(s, p) && p.tx.net != tx.net
    requires p.tx.cell.Some? ==> p.tx.Key() != tx.Key()
    requires p.tx.user.Some? ==> p.tx.User() != tx.User()
    requires tx.cell.Some? && tx.user.Some?
    requires t.rows == s.rows[tx.net := tx.row] && t.rollup == s.rollup[tx.Key() := tx.cell.value]
    requires t.users == s.users[tx.User() := tx.user.value]
    ensures TxOk(t, p)
  {
    var now :| p.tx.row == Terminated(s.rows[p.tx.net], p.ev, now);
    assert p.tx.row == Terminated(t.rows[p.tx.net], p.ev, now);
  }

  lemma CommitLeavesEffects(s: State, step: Step, t: State)
    requires step.Commit? && Next(s, step, t)
    ensures t.effects == s.effects
    ensures t.workers[step.w].Committed? ==>
              t.workers[step.w].ev == s.workers[step.w].ev && t.workers[step.w].next == ResolveWaiter
  {
  }

  lemma CommitKeepsEffects(s: State, step: Step, t: State, ledger: seq<Flip>, cancels: set<NetId>)
    requires step.Commit? && Next(s, step, t) && EffectsInv(s, ledger) && RowsInv(s, ledger, cancels) && TxInv(s)
    ensures EffectsInv(t, ledger + FlipsOf(s, step))
  {
    CommitLeavesTables(s, step, t);
    CommitLeavesEffects(s, step, t);
    var p := s.workers[step.w];
    assert TxOk(s, p);
    EffectsAfterFlip(s, t, step.w, ledger, Flip(p.tx.net, p.tx.row, p.tx.outcome));
  }

  /** A new flip brings in the effects its handler owes, and disturbs no other. */
  lemma EffectsAfterFlip(s: State, t: State, w: Worker, ledger: seq<Flip>, f: Flip)
    requires EffectsInv(s, ledger) && f.net !in Nets(ledger) && t.effects == s.effects
    requires t.workers.Keys == s.workers.Keys && w in s.workers
    requires forall v :: v in s.workers && v != w ==> t.workers[v] == s.workers[v]
    requires t.workers[w].Committed? ==>
               t.workers[w].ev.net == f.net && t.workers[w].ev.status == f.row.status &&
                   t.workers[w].next == ResolveWaiter
    ensures EffectsInv(t, ledger + [f])
  {
    var l' := ledger + [f];
    assert l'[|ledger|] == f;
    assert FlippedTo(l', f.net, f.row.status);
    forall i | 0 <= i < |s.effects|
      ensures FlippedTo(l', s.effects[i].net, s.effects[i].status) && s.effects[i].net != f.net
    {
      FlippedAppend(ledger, f, s.effects[i].net, s.effects[i].status);
      FlippedIsNet(ledger, s.effects[i].net, s.effects[i].status);
    }
    forall v | v in s.workers && s.workers[v].Committed?
      ensures FlippedTo(l', s.workers[v].ev.net, s.workers[v].ev.status) && s.workers[v].ev.net != f.net
    {
      FlippedAppend(ledger, f, s.workers[v].ev.net, s.workers[v].ev.status);
      FlippedIsNet(ledger, s.workers[v].ev.net, s.workers[v].ev.status);
    }
  }

  /** The steps that change neither rows nor tables. */
  predicate Quiet(step: Step) {
    !step.Commit? && !step.CreateInstance? && !step.SweepArchive? && !step.CancelUpdate?
  }

  /** A quiet step changes at most one handler, and leaves rows and tables alone. */
  ghost predicate OnlyWorker(s: State, t: State, w: Worker) {
    && t.rows == s.rows && t.rollup == s.rollup && t.users == s.users
    && t.workers.Keys == s.workers.Keys
    && forall v :: v in s.workers && v != w ==> t.workers[v] == s.workers[v]
  }

  function Actor(step: Step): Worker {
    match step
    case Deliver(w, _, _) => w
    case SkipMessage(w) => w
    case BeginOrUpdateFails(w) => w
    case UpdateMatchesNone(w) => w
    case UpdateMatchesRow(w, _) => w
    case FoldRollup(w) => w
    case FoldUser(w) => w
    case RollBack(w) => w
    case Commit(w, _) => w
    case RunEffect(w, _) => w
    case ResolveOrphan(w, _) => w
    case Ack(w, _) => w
    case Nak(w) => w
    case Crash(w) => w
    case _ => 0
  }

  predicate TxStep(step: Step) {
    step.UpdateMatchesRow? || step.FoldRollup? || step.FoldUser?
  }

  lemma QuietTables(s: State, step: Step, t: State)
    requires Quiet(step) && Next(s, step, t)
    ensures t.rows == s.rows && t.rollup == s.rollup && t.users == s.users
    ensures t.stale <= s.stale ||
            (step.SweepRead? && t.stale == s.stale + set n | n in s.rows && Stale(s.rows[n], step.cutoff))
  {
  }

  /** The handler's own database calls. */
  predicate DatabaseStep(step: Step) {
    || step.BeginOrUpdateFails? || step.UpdateMatchesNone? || step.UpdateMatchesRow? || step.FoldRollup?
    || step.FoldUser? || step.RollBack? || step.Commit?
  }

  /** The steps of one handler with its message that are no database call. */
  predicate HandlerStep(step: Step) {
    step.SkipMessage? || step.ResolveOrphan? || step.Ack?
  }

  /** Only this worker moves; it opens a transaction only by `TxStep` and owes effects only by
      `RunEffect`. */
  ghost predicate QuietFramed(s: State, step: Step, t: State) {
    && OnlyWorker(s, t, Actor(step))
    && (Actor(step) in t.workers && t.workers[Actor(step)].InTx? ==> TxStep(step) || t.workers == s.workers)
    && (Actor(step) in t.workers && t.workers[Actor(step)].Committed? ==> step.RunEffect? || t.workers == s.workers)
    && (!step.RunEffect? ==> t.effects == s.effects)
  }

  lemma DatabaseFrame(s: State, step: Step, t: State)
    requires DatabaseStep(step) && !step.Commit? && Next(s, step, t)
    ensures QuietFramed(s, step, t)
  {
  }

  lemma HandlerFrame(s: State, step: Step, t: State)
    requires HandlerStep(step) && Next(s, step, t)
    ensures QuietFramed(s, step, t)
  {
  }

  lemma OutsideFrame(s: State, step: Step, t: State)
    requires Quiet(step) && !DatabaseStep(step) && !HandlerStep(step) && Next(s, step, t)
    ensures QuietFramed(s, step, t)
  {
  }

  lemma QuietFrame(s: State, step: Step, t: State)
    requires Quiet(step) && Next(s, step, t)
    ensures QuietFramed(s, step, t)
  {
    if DatabaseStep(step) {
      DatabaseFrame(s, step, t);
    } else if HandlerStep(step) {
      HandlerFrame(s, step, t);
    } else {
      OutsideFrame(s, step, t);
    }
  }

  lemma QuietKeepsRows(s: State, step: Step, t: State, ledger: seq<Flip>, cancels: set<NetId>)
    requires Quiet(step) && Next(s, step, t) && RowsInv(s, ledger, cancels)
    ensures RowsInv(t, ledger, cancels)
  {
    QuietTables(s, step, t);
    StaleOnly(s, t, if step.SweepRead? then step.cutoff else 0, ledger, cancels);
  }

  lemma StaleOnly(s: State, t: State, cutoff: Time, ledger: seq<Flip>, cancels: set<NetId>)
    requires RowsInv(s, ledger, cancels) && t.rows == s.rows
    requires t.stale <= s.stale || t.stale == s.stale + set n | n in s.rows && Stale(s.rows[n], cutoff)
    ensures RowsInv(t, ledger, cancels)
  {
  }

  lemma TxOkFramed(s: State, t: State, p: Phase)
    requires p.InTx? && TxOk(s, p) && t.rows == s.rows && t.rollup == s.rollup && t.users == s.users
    ensures TxOk(t, p)
  {
  }

  lemma UpdateKeepsTx(s: State, step: Step, t: State)
    requires step.UpdateMatchesRow? && Next(s, step, t) && TxInv(s)
    ensures TxInv(t)
  {
    var ev := HeldEvent(s, step.w);
    assert t.workers[step.w].tx.row == Terminated(s.rows[ev.net], ev, step.now);
    assert TxOk(t, t.workers[step.w]);
    forall v | v in t.workers && t.workers[v].InTx? && v != step.w ensures TxOk(t, t.workers[v]) {
      TxOkFramed(s, t, s.workers[v]);
    }
  }

  lemma FoldRollupKeepsTx(s: State, step: Step, t: State)
    requires step.FoldRollup? && Next(s, step, t) && TxInv(s)
    ensures TxInv(t)
  {
    var p := s.workers[step.w];
    TxOkFramed(s, t, p);
    FoldKeepsTx(s, t, step.w);
  }

  lemma FoldUserKeepsTx(s: State, step: Step, t: State)
    requires step.FoldUser? && Next(s, step, t) && TxInv(s)
    ensures TxInv(t)
  {
    var p := s.workers[step.w];
    TxOkFramed(s, t, p);
    FoldKeepsTx(s, t, step.w);
  }

  /** A fold of one open transaction that meets no other one's cell or user. */
  lemma FoldKeepsTx(s: State, t: State, w: Worker)
    requires OnlyWorker(s, t, w) && TxInv(s) && w in s.workers && s.workers[w].InTx? && t.workers[w].InTx?
    requires TxOk(t, t.workers[w]) && t.workers[w].tx.net == s.workers[w].tx.net
    requires forall v :: v in s.workers && v != w && s.workers[v].InTx? ==> Apart(s.workers[v].tx, t.workers[w].tx)
    ensures TxInv(t)
  {
    forall v | v in t.workers && t.workers[v].InTx? && v != w ensures TxOk(t, t.workers[v]) {
      TxOkFramed(s, t, s.workers[v]);
    }
  }

  lemma QuietKeepsTx(s: State, step: Step, t: State)
    requires Quiet(step) && Next(s, step, t) && TxInv(s)
    ensures TxInv(t)
  {
    if step.UpdateMatchesRow? {
      UpdateKeepsTx(s, step, t);
    } else if step.FoldRollup? {
      FoldRollupKeepsTx(s, step, t);
    } else if step.FoldUser? {
      FoldUserKeepsTx(s, step, t);
    } else {
      QuietFrame(s, step, t);
      FrameKeepsTx(s, t, Actor(step));
    }
  }

  lemma FrameKeepsTx(s: State, t: State, w: Worker)
    requires OnlyWorker(s, t, w) && TxInv(s)
    requires w in t.workers && t.workers[w].InTx? ==> t.workers == s.workers
    ensures TxInv(t)
  {
    forall v | v in t.workers && t.workers[v].InTx? ensures TxOk(t, t.workers[v]) {
      TxOkFramed(s, t, s.workers[v]);
    }
  }

  lemma FrameKeepsEffects(s: State, t: State, w: Worker, ledger: seq<Flip>)
    requires OnlyWorker(s, t, w) && EffectsInv(s, ledger) && t.effects == s.effects
    requires w in t.workers && t.workers[w].Committed? ==> t.workers == s.workers
    ensures EffectsInv(t, ledger)
  {
  }

  /** The effect run now is new for its net: earlier ones rank lower. */
  lemma EffectKeepsEffects(s: State, step: Step, t: State, ledger: seq<Flip>)
    requires step.RunEffect? && Next(s, step, t) && EffectsInv(s, ledger)
    ensures EffectsInv(t, ledger)
  {
    var p := s.workers[step.w];
    assert FlippedTo(ledger, p.ev.net, p.ev.status);
    var n := |s.effects|;
    assert s.effects == t.effects[..n];
    forall i | 0 <= i < |t.effects| ensures FlippedTo(ledger, t.effects[i].net, t.effects[i].status) {
      assert i < n ==> t.effects[i] == s.effects[i];
    }
    forall i, j | 0 <= i < j < |t.effects| && t.effects[i].net == t.effects[j].net
      ensures t.effects[i].kind != t.effects[j].kind
    {
      assert t.effects[i] == s.effects[i];
      assert j < n ==> t.effects[j] == s.effects[j];
    }
    forall v, i | v in t.workers && t.workers[v].Committed? && 0 <= i < |t.effects| &&
           t.effects[i].net == t.workers[v].ev.net
      ensures Rank(t.effects[i].kind) < Rank(t.workers[v].next)
    {
      assert s.workers[v].Committed? && s.workers[v].ev == t.workers[v].ev;
      assert i < n ==> t.effects[i] == s.effects[i];
    }
  }

  lemma CommitKeepsInv(s: State, step: Step, t: State, ledger: seq<Flip>, cancels: set<NetId>)
    requires step.Commit? && Next(s, step, t) && Inv(s, ledger, cancels)
    ensures Inv(t, ledger + FlipsOf(s, step), cancels)
  {
    CommitKeepsRows(s, step, t, ledger, cancels);
    CommitKeepsTables(s, step, t, ledger);
    CommitKeepsTx(s, step, t);
    CommitKeepsEffects(s, step, t, ledger, cancels);
  }

  lemma QuietKeepsInv(s: State, step: Step, t: State, ledger: seq<Flip>, cancels: set<NetId>)
    requires Quiet(step) && Next(s, step, t) && Inv(s, ledger, cancels)
    ensures Inv(t, ledger, cancels)
  {
    QuietFrame(s, step, t);
    QuietKeepsRows(s, step, t, ledger, cancels);
    QuietKeepsTx(s, step, t);
    if step.RunEffect? {
      EffectKeepsEffects(s, step, t, ledger);
    } else {
      FrameKeepsEffects(s, t, Actor(step), ledger);
    }
  }

  /** Creating, archiving and cancelling change one row no transaction holds. */
  predicate RowStep(step: Step) {
    step.CreateInstance? || step.SweepArchive? || step.CancelUpdate?
  }

  ghost predicate OnlyFreeRows(s: State, t: State) {
    && t.workers == s.workers && t.rollup == s.rollup && t.users == s.users && t.effects == s.effects
    && forall v :: v in s.workers && s.workers[v].InTx? && s.workers[v].tx.net in s.rows ==>
         s.workers[v].tx.net in t.rows && t.rows[s.workers[v].tx.net] == s.rows[s.workers[v].tx.net]
  }

  lemma RowStepFrame(s: State, step: Step, t: State)
    requires RowStep(step) && Next(s, step, t)
    ensures OnlyFreeRows(s, t)
  {
  }

  lemma FreeRowsKeepTx(s: State, t: State)
    requires OnlyFreeRows(s, t) && TxInv(s)
    ensures TxInv(t)
  {
    forall v | v in t.workers && t.workers[v].InTx? ensures TxOk(t, t.workers[v]) {
      assert TxOk(s, s.workers[v]);
    }
  }

  lemma RowStepKeepsRows(s: State, step: Step, t: State, ledger: seq<Flip>, cancels: set<NetId>)
    requires RowStep(step) && Next(s, step, t) && RowsInv(s, ledger, cancels)
    ensures RowsInv(t, ledger, cancels + CancelsOf(s, step))
  {
  }

  lemma RowStepKeepsInv(s: State, step: Step, t: State, ledger: seq<Flip>, cancels: set<NetId>)
    requires RowStep(step) && Next(s, step, t) && Inv(s, ledger, cancels)
    ensures Inv(t, ledger, cancels + CancelsOf(s, step))
  {
    RowStepFrame(s, step, t);
    FreeRowsKeepTx(s, t);
    RowStepKeepsRows(s, step, t, ledger, cancels);
  }

  /** Every step keeps the invariant. */
  lemma NextKeepsInv(s: State, step: Step, t: State, ledger: seq<Flip>, cancels: set<NetId>)
    requires Next(s, step, t) && Inv(s, ledger, cancels)
    ensures Inv(t, ledger + FlipsOf(s, step), cancels + CancelsOf(s, step))
  {
    if step.Commit? {
      CommitKeepsInv(s, step, t, ledger, cancels);
      assert cancels + CancelsOf(s, step) == cancels;
    } else {
      assert ledger + FlipsOf(s, step) == ledger;
      if Quiet(step) {
        assert cancels + CancelsOf(s, step) == cancels;
        QuietKeepsInv(s, step, t, ledger, cancels);
      } else {
        RowStepKeepsInv(s, step, t, ledger, cancels);
      }
    }
  }

  lemma {:induction false} RunInv(states: seq<State>, steps: seq<Step>)
    requires IsRun(states, steps)
    ensures Inv(states[|steps|], Ledger(states, steps), Cancels(states, steps))
    decreases |steps|
  {
    var n := |steps|;
    if n > 0 {
      RunInv(states[..n], steps[..n - 1]);
      NextKeepsInv(states[n - 1], steps[n - 1], states[n], Ledger(states[..n], steps[..n - 1]),
                   Cancels(states[..n], steps[..n - 1]));
    }
  }
}
