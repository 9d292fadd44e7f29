/** Concurrent boots seeding one resource under a unique path
    (`service/src/internal_pool.rs`, `worker_groups.rs`, `model_serving_group.rs`),
    on top of the two-phase create of `service/src/handlers/resources.rs`.

    Every boot resolves, creates and, when the create fails, resolves again. The
    worker-group and model-serving resolvers join the version row; the internal-pool
    resolver does not. */
module SeederRace {
  import opened Wrappers
  import opened Folds

  type Id = string

  /** A `resources` row of the path. `matches` says whether its type and axes are the ones the
      resolver filters on, `live` whether it is not soft-deleted, `version` whether its version
      row exists. The legacy unique constraint on (workspace, path) counts every row, also one
      that does not match or is deleted. */
  datatype Row = Row(matches: bool, live: bool, version: bool)

  datatype Pc =
    | Start                 // about to resolve
    | Creating              // nothing found; about to insert the row
    | Inserted              // row inserted; about to insert the version
    | Versioned             // about to write the secret backend
    | Unsealed              // that write failed; about to delete the version
    | Undoing               // about to delete the row
    | Sealed                // everything written; about to write the audit entry
    | Failed                // create reported an error; about to resolve again
    | Returned(found: Id)
    | Errored
    | Crashed

  datatype Boot = Boot(id: Id, pc: Pc)

  /** `deleted`, `versionFaults` and `vaultFaults` record history for the statements. */
  datatype State = State(joined: bool, rows: map<Id, Row>, boots: seq<Boot>,
                         deleted: set<Id>, versionFaults: set<Id>, vaultFaults: set<Id>)

  /** The next action of boot `p` succeeds or fails, or the process dies. */
  datatype Step = Act(p: nat, ok: bool) | Crash(p: nat)

  /** Live, and of the type and axes the resolver looks for. */
  predicate Acceptable(row: Row) {
    row.matches && row.live
  }

  predicate Visible(s: State, id: Id) {
    id in s.rows && Acceptable(s.rows[id]) && (s.joined ==> s.rows[id].version)
  }

  ghost function Resolve(s: State): Option<Id> {
    if id :| Visible(s, id) then Some(id) else None
  }

  function At(s: State, p: nat, pc: Pc): State
    requires p < |s.boots|
  {
    s.(boots := s.boots[p := Boot(s.boots[p].id, pc)])
  }

  function WithRow(s: State, id: Id, row: Row): State {
    s.(rows := s.rows[id := row])
  }

  ghost function Do(s: State, p: nat, ok: bool): State
    requires p < |s.boots|
  {
    var id := s.boots[p].id;
    match s.boots[p].pc
    case Start =>
      if !ok then At(s, p, Errored)
      else if Resolve(s).Some? then At(s, p, Returned(Resolve(s).value))
      else At(s, p, Creating)
    case Creating =>
      if !ok || s.rows != map[] then At(s, p, Failed) else At(WithRow(s, id, Row(true, true, false)), p, Inserted)
    case Inserted =>
      if ok then At(WithRow(s, id, Row(true, true, true)), p, Versioned)
      else At(s, p, Undoing).(versionFaults := s.versionFaults + {id})
    case Versioned =>
      if ok then At(s, p, Sealed) else At(s, p, Unsealed).(vaultFaults := s.vaultFaults + {id})
    case Unsealed =>
      if ok then At(WithRow(s, id, Row(true, true, false)), p, Undoing) else At(s, p, Undoing)
    case Undoing =>
      if ok then At(s, p, Failed).(rows := s.rows - {id}, deleted := s.deleted + {id}) else At(s, p, Failed)
    case Sealed => if ok then At(s, p, Returned(id)) else At(s, p, Failed)
    case Failed =>
      if ok && Resolve(s).Some? then At(s, p, Returned(Resolve(s).value)) else At(s, p, Errored)
    case _ => s
  }

  predicate Done(pc: Pc) {
    pc.Returned? || pc.Errored? || pc.Crashed?
  }

  ghost function Next(s: State, step: Step): State {
    if step.p >= |s.boots| then s
    else match step
      case Act(p, ok) => Do(s, p, ok)
      case Crash(p) => if Done(s.boots[p].pc) then s else At(s, p, Crashed)
  }

  ghost function Run(s: State, steps: seq<Step>): State {
    if steps == [] then s else Next(Run(s, steps[..|steps| - 1]), steps[|steps| - 1])
  }

  /** Boots draw fresh ids; at most one row exists under the unique path. */
  ghost predicate IsInitial(s: State) {
    && |s.rows| <= 1 && s.deleted == {} && s.versionFaults == {} && s.vaultFaults == {}
    && (forall p :: 0 <= p < |s.boots| ==> s.boots[p].pc == Start && s.boots[p].id !in s.rows)
    && (forall p, q :: 0 <= p < q < |s.boots| ==> s.boots[p].id != s.boots[q].id)
  }

  // ---------------------------------------------------------------------
  // The invariant
  // ---------------------------------------------------------------------

  /** The boot is in the middle of its create and its row is in the table. */
  predicate Owns(pc: Pc) {
    pc.Inserted? || pc.Versioned? || pc.Unsealed? || pc.Undoing? || pc.Sealed?
  }

  ghost predicate BootInv(s: State, b: Boot) {
    && (b.pc.Start? || b.pc.Creating? ==> b.id !in s.rows && b.id !in s.deleted)
    && (Owns(b.pc) ==> b.id in s.rows && Acceptable(s.rows[b.id]) && b.id !in s.deleted)
    && (b.pc.Inserted? ==> !s.rows[b.id].version)
    && (b.pc.Versioned? || b.pc.Sealed? ==> s.rows[b.id].version)
    && (b.pc.Unsealed? ==> b.id in s.vaultFaults && s.rows[b.id].version)
    && (b.pc.Undoing? ==> b.id in s.vaultFaults || (b.id in s.versionFaults && !s.rows[b.id].version))
    && (b.pc.Returned? ==> FoundInv(s, b.pc.found))
  }

  /** What is known of an id some boot returned. */
  ghost predicate FoundInv(s: State, id: Id) {
    && (id in s.rows || id in s.deleted)
    && (s.joined && id in s.rows ==> s.rows[id].version || id in s.vaultFaults)
    && (s.joined && id in s.deleted ==> id in s.vaultFaults)
  }

  ghost predicate TableInv(s: State) {
    && (forall a, b :: a in s.rows && b in s.rows ==> a == b)
    && (forall id :: id in s.deleted ==> id !in s.rows && (id in s.versionFaults || id in s.vaultFaults))
    && (forall p, q :: 0 <= p < q < |s.boots| ==> s.boots[p].id != s.boots[q].id)
  }

  ghost predicate Inv(s: State) {
    TableInv(s) && forall p :: 0 <= p < |s.boots| ==> BootInv(s, s.boots[p])
  }

  lemma {:induction false} InitialInv(s: State)
    requires IsInitial(s)
    ensures Inv(s)
  {
    forall a, b | a in s.rows && b in s.rows ensures a == b {
      if a != b {
        assert {a, b} <= s.rows.Keys;
        SubsetSmaller({a, b}, s.rows.Keys);
      }
    }
  }

  /** Nothing a bystander knows changes when boot `p` acts. */
  lemma {:induction false} Bystanders(s: State, t: State, p: nat)
    requires Inv(s) && p < |s.boots| && |t.boots| == |s.boots| && t.joined == s.joined
    requires forall q :: 0 <= q < |s.boots| && q != p ==> t.boots[q] == s.boots[q]
    requires t.deleted == s.deleted && t.versionFaults >= s.versionFaults && t.vaultFaults >= s.vaultFaults
    requires t.rows == s.rows
    ensures forall q :: 0 <= q < |s.boots| && q != p ==> BootInv(t, t.boots[q])
  {
    forall q | 0 <= q < |s.boots| && q != p ensures BootInv(t, t.boots[q]) {
      assert BootInv(s, s.boots[q]);
    }
  }

  /** The same when it writes a row of its own, while it is the owner. */
  lemma {:induction false} BystandersOfWrite(s: State, t: State, p: nat, row: Row)
    requires Inv(s) && p < |s.boots| && |t.boots| == |s.boots| && t.joined == s.joined
    requires forall q :: 0 <= q < |s.boots| && q != p ==> t.boots[q] == s.boots[q]
    requires t.deleted == s.deleted && t.versionFaults == s.versionFaults && t.vaultFaults == s.vaultFaults
    requires t.rows == s.rows[s.boots[p].id := row]
    requires (s.boots[p].pc.Creating? && s.rows == map[]) || Owns(s.boots[p].pc)
    requires row.version || s.boots[p].pc.Creating? || s.boots[p].id in s.vaultFaults
    ensures forall q :: 0 <= q < |s.boots| && q != p ==> BootInv(t, t.boots[q])
  {
    forall q | 0 <= q < |s.boots| && q != p ensures BootInv(t, t.boots[q]) {
      assert BootInv(s, s.boots[q]) && BootInv(s, s.boots[p]);
      assert p < q ==> s.boots[p].id != s.boots[q].id;
      assert q < p ==> s.boots[q].id != s.boots[p].id;
    }
  }

  /** And when it deletes its row. */
  lemma {:induction false} BystandersOfDelete(s: State, t: State, p: nat)
    requires Inv(s) && p < |s.boots| && |t.boots| == |s.boots| && t.joined == s.joined
    requires forall q :: 0 <= q < |s.boots| && q != p ==> t.boots[q] == s.boots[q]
    requires t.versionFaults == s.versionFaults && t.vaultFaults == s.vaultFaults
    requires s.boots[p].pc.Undoing? && t.rows == s.rows - {s.boots[p].id} && t.deleted == s.deleted + {s.boots[p].id}
    ensures forall q :: 0 <= q < |s.boots| && q != p ==> BootInv(t, t.boots[q])
  {
    forall q | 0 <= q < |s.boots| && q != p ensures BootInv(t, t.boots[q]) {
      assert BootInv(s, s.boots[q]) && BootInv(s, s.boots[p]);
      assert p < q ==> s.boots[p].id != s.boots[q].id;
      assert q < p ==> s.boots[q].id != s.boots[p].id;
    }
  }

  lemma {:induction false} ResolveSound(s: State)
    requires Inv(s)
    ensures Resolve(s).Some? ==> Visible(s, Resolve(s).value) && FoundInv(s, Resolve(s).value)
  {
  }

  /** Boot `p`'s action writes or deletes its own row. */
  ghost predicate Writes(s: State, p: nat, ok: bool)
    requires p < |s.boots|
  {
    ok && ((s.boots[p].pc.Creating? && s.rows == map[]) || s.boots[p].pc.Inserted? || s.boots[p].pc.Unsealed?)
  }

  ghost predicate Deletes(s: State, p: nat, ok: bool)
    requires p < |s.boots|
  {
    ok && s.boots[p].pc.Undoing?
  }

  lemma {:induction false} QuietKeepsInv(s: State, p: nat, ok: bool)
    requires Inv(s) && p < |s.boots| && !Writes(s, p, ok) && !Deletes(s, p, ok)
    ensures Inv(Do(s, p, ok))
  {
    var t := Do(s, p, ok);
    assert BootInv(s, s.boots[p]);
    ResolveSound(s);
    Bystanders(s, t, p);
    assert BootInv(t, t.boots[p]);
  }

  lemma {:induction false} WriteKeepsInv(s: State, p: nat, ok: bool)
    requires Inv(s) && p < |s.boots| && Writes(s, p, ok)
    ensures Inv(Do(s, p, ok))
  {
    var t := Do(s, p, ok);
    assert BootInv(s, s.boots[p]);
    BystandersOfWrite(s, t, p, Row(true, true, s.boots[p].pc.Inserted?));
    assert BootInv(t, t.boots[p]);
  }

  lemma {:induction false} DeleteKeepsInv(s: State, p: nat, ok: bool)
    requires Inv(s) && p < |s.boots| && Deletes(s, p, ok)
    ensures Inv(Do(s, p, ok))
  {
    var t := Do(s, p, ok);
    assert BootInv(s, s.boots[p]);
    BystandersOfDelete(s, t, p);
  }

  lemma {:induction false} DoKeepsInv(s: State, p: nat, ok: bool)
    requires Inv(s) && p < |s.boots|
    ensures Inv(Do(s, p, ok))
  {
    if Writes(s, p, ok) {
      WriteKeepsInv(s, p, ok);
    } else if Deletes(s, p, ok) {
      DeleteKeepsInv(s, p, ok);
    } else {
      QuietKeepsInv(s, p, ok);
    }
  }

  lemma {:induction false} NextKeepsInv(s: State, step: Step)
    requires Inv(s)
    ensures Inv(Next(s, step))
  {
    if step.p < |s.boots| {
      if step.Act? {
        DoKeepsInv(s, step.p, step.ok);
      } else {
        Bystanders(s, Next(s, step), step.p);
      }
    }
  }

  lemma {:induction false} RunInv(s: State, steps: seq<Step>)
    requires IsInitial(s)
    ensures Inv(Run(s, steps))
  {
    if steps == [] {
      InitialInv(s);
    } else {
      RunInv(s, steps[..|steps| - 1]);
      NextKeepsInv(Run(s, steps[..|steps| - 1]), steps[|steps| - 1]);
    }
  }

  // ---------------------------------------------------------------------
  // Theorems
  // ---------------------------------------------------------------------

  /** At most one row ever exists under the path, however many boots race. */
  lemma {:induction false} AtMostOneRow(s: State, steps: seq<Step>)
    requires IsInitial(s)
    ensures |Run(s, steps).rows| <= 1
  {
    RunInv(s, steps);
    var rows := Run(s, steps).rows;
    if id :| id in rows {
      assert rows.Keys == {id};
      assert |rows| == |rows.Keys|;
    }
  }

  /** An id that was returned is the one row's, unless that row was rolled back; and a rollback
      of a returned id has a cause: for the joined resolvers a failed secret write, for the
      other one that or a failed version insert. */
  lemma {:induction false} ReturnedIdHistory(s: State, steps: seq<Step>, p: nat)
    requires IsInitial(s) && p < |Run(s, steps).boots| && Run(s, steps).boots[p].pc.Returned?
    ensures var t := Run(s, steps);
            var id := t.boots[p].pc.found;
            && (t.rows.Keys == {id} <==> id !in t.deleted)
            && (id in t.deleted ==> id in t.vaultFaults || (!t.joined && id in t.versionFaults))
  {
    RunInv(s, steps);
    var t := Run(s, steps);
    assert BootInv(t, t.boots[p]);
    var id := t.boots[p].pc.found;
    if id in t.rows {
      assert t.rows.Keys == {id};
    } else {
      assert id !in t.rows.Keys;
    }
  }

  /** So, when no create of this path failed half-way, all boots that return agree, and
      on a row that is there. */
  lemma {:induction false} BootsAgree(s: State, steps: seq<Step>, p: nat, q: nat)
    requires IsInitial(s)
    requires var t := Run(s, steps);
             && p < |t.boots| && q < |t.boots| && t.boots[p].pc.Returned? && t.boots[q].pc.Returned?
             && t.vaultFaults == {} && (t.joined || t.versionFaults == {})
    ensures Run(s, steps).boots[p].pc.found == Run(s, steps).boots[q].pc.found
    ensures Run(s, steps).rows.Keys == {Run(s, steps).boots[p].pc.found}
  {
    ReturnedIdHistory(s, steps, p);
    ReturnedIdHistory(s, steps, q);
    assert Run(s, steps).boots[q].pc.found in Run(s, steps).rows.Keys;
  }

  /** Without faults or crashes, a boot of the unjoined seeder never reports an error. */
  lemma {:induction false} UnjoinedNeverErrs(s: State, steps: seq<Step>)
    requires IsInitial(s) && !s.joined
    requires forall id :: id in s.rows ==> Acceptable(s.rows[id])
    requires forall k :: 0 <= k < |steps| ==> steps[k].Act? && steps[k].ok
    ensures var t := Run(s, steps); FaultFree(t)
  {
    if steps != [] {
      var front, last := steps[..|steps| - 1], steps[|steps| - 1];
      UnjoinedNeverErrs(s, front);
      RunInv(s, front);
      if last.p < |Run(s, front).boots| {
        FaultFreeStep(Run(s, front), last.p);
      }
    }
  }

  ghost predicate FaultFree(t: State) {
    && !t.joined
    && (forall id :: id in t.rows ==> Acceptable(t.rows[id]))
    && forall p :: 0 <= p < |t.boots| ==>
         var pc := t.boots[p].pc;
         !pc.Errored? && !pc.Crashed? && !pc.Undoing? && !pc.Unsealed? && (pc.Failed? ==> t.rows != map[])
  }

  lemma {:induction false} FaultFreeStep(s: State, p: nat)
    requires Inv(s) && FaultFree(s) && p < |s.boots|
    ensures FaultFree(Do(s, p, true))
  {
    assert BootInv(s, s.boots[p]);
    if s.rows != map[] {
      var id :| id in s.rows;
      assert Visible(s, id);
    }
  }

  /** With the joined resolvers a benign race can surface as an error: the loser
      conflicts on the row and re-resolves before the winner's version is written. */
  lemma {:induction false} JoinedRaceErrs(a: Id, b: Id)
    requires a != b
    ensures var s := State(true, map[], [Boot(a, Start), Boot(b, Start)], {}, {}, {});
            var steps := [Act(0, true), Act(1, true), Act(0, true), Act(1, true), Act(1, true)];
            IsInitial(s) && |Run(s, steps).boots| == 2 && Run(s, steps).boots[1].pc.Errored?
  {
    var s0 := State(true, map[], [Boot(a, Start), Boot(b, Start)], {}, {}, {});
    var s1 := Next(s0, Act(0, true));
    var s2 := Next(s1, Act(1, true));
    assert s2.boots == [Boot(a, Creating), Boot(b, Creating)];
    var s3 := Next(s2, Act(0, true));
    assert s3.rows == map[a := Row(true, true, false)] && s3.boots == [Boot(a, Inserted), Boot(b, Creating)];
    var s4 := Next(s3, Act(1, true));
    assert s4.boots[1].pc == Failed && s4.rows == s3.rows;
    var s5 := Next(s4, Act(1, true));
    assert s5.boots[1].pc == Errored;
    RunFive(s0, Act(0, true), Act(1, true), Act(0, true), Act(1, true), Act(1, true));
  }

  /** The joined seeders without faults: every row is complete, or its creator is
      between its two inserts. */
  ghost predicate CleanJoined(t: State) {
    && t.joined
    && (forall id :: id in t.rows ==> Acceptable(t.rows[id]) && (t.rows[id].version || InsertedBy(t, id)))
    && forall p :: 0 <= p < |t.boots| ==>
         var pc := t.boots[p].pc;
         !pc.Crashed? && !pc.Undoing? && !pc.Unsealed? && (pc.Failed? ==> t.rows != map[])
  }

  ghost predicate InsertedBy(t: State, id: Id) {
    exists q :: 0 <= q < |t.boots| && t.boots[q] == Boot(id, Inserted)
  }

  lemma {:induction false} CleanJoinedStep(s: State, p: nat)
    requires Inv(s) && CleanJoined(s) && p < |s.boots|
    ensures CleanJoined(Do(s, p, true))
  {
    var t := Do(s, p, true);
    assert BootInv(s, s.boots[p]);
    forall id | id in t.rows ensures t.rows[id].version || InsertedBy(t, id) {
      if id in s.rows && !s.rows[id].version && id != s.boots[p].id {
        var q :| 0 <= q < |s.boots| && s.boots[q] == Boot(id, Inserted);
        assert t.boots[q] == s.boots[q];
      } else if id == s.boots[p].id {
        assert t.boots[p].pc.Inserted? ==> t.boots[p] == Boot(id, Inserted);
      }
    }
  }

  lemma {:induction false} CleanJoinedRun(s: State, steps: seq<Step>)
    requires IsInitial(s) && s.joined && forall id :: id in s.rows ==> s.rows[id] == Row(true, true, true)
    requires forall k :: 0 <= k < |steps| ==> steps[k].Act? && steps[k].ok
    ensures CleanJoined(Run(s, steps))
  {
    if steps != [] {
      var front, last := steps[..|steps| - 1], steps[|steps| - 1];
      CleanJoinedRun(s, front);
      RunInv(s, front);
      if last.p < |Run(s, front).boots| {
        CleanJoinedStep(Run(s, front), last.p);
      }
    }
  }

  /** Exactly when it does: without faults, a losing boot of a joined seeder reports an
      error if and only if it re-resolves while the winner is between its two inserts. */
  lemma {:induction false} JoinedErrsIff(s: State, steps: seq<Step>, p: nat)
    requires IsInitial(s) && s.joined && forall id :: id in s.rows ==> s.rows[id] == Row(true, true, true)
    requires forall k :: 0 <= k < |steps| ==> steps[k].Act? && steps[k].ok
    requires p < |Run(s, steps).boots| && Run(s, steps).boots[p].pc.Failed?
    ensures var t := Run(s, steps);
            |Next(t, Act(p, true)).boots| == |t.boots|
            && (Next(t, Act(p, true)).boots[p].pc.Errored? <==>
                exists q :: 0 <= q < |t.boots| && t.boots[q].pc.Inserted?)
  {
    var t := Run(s, steps);
    CleanJoinedRun(s, steps);
    RunInv(s, steps);
    if q :| 0 <= q < |t.boots| && t.boots[q].pc.Inserted? {
      assert BootInv(t, t.boots[q]);
      assert forall id :: id in t.rows ==> id == t.boots[q].id;
    } else {
      var id :| id in t.rows;
      assert Visible(t, id);
    }
  }

  /** The unjoined resolver can return a row that is then rolled back: `Ok` with a
      dangling id, when the creator's version insert fails. */
  lemma {:induction false} UnjoinedOkCanDangle(a: Id, b: Id)
    requires a != b
    ensures var s := State(false, map[], [Boot(a, Start), Boot(b, Start)], {}, {}, {});
            var steps := [Act(0, true), Act(0, true), Act(1, true), Act(0, false), Act(0, true)];
            IsInitial(s) && |Run(s, steps).boots| == 2 && Run(s, steps).boots[1].pc == Returned(a) &&
                Run(s, steps).rows == map[]
  {
    var s0 := State(false, map[], [Boot(a, Start), Boot(b, Start)], {}, {}, {});
    var s1 := Next(s0, Act(0, true));
    var s2 := Next(s1, Act(0, true));
    assert s2.rows == map[a := Row(true, true, false)] && s2.boots == [Boot(a, Inserted), Boot(b, Start)];
    assert Visible(s2, a);
    var s3 := Next(s2, Act(1, true));
    assert s3.boots[1].pc == Returned(a);
    var s4 := Next(s3, Act(0, false));
    var s5 := Next(s4, Act(0, true));
    assert s5.rows == map[];
    RunFive(s0, Act(0, true), Act(0, true), Act(1, true), Act(0, false), Act(0, true));
  }

  lemma {:induction false} RunFive(s: State, a: Step, b: Step, c: Step, d: Step, e: Step)
    ensures Run(s, [a, b, c, d, e]) == Next(Next(Next(Next(Next(s, a), b), c), d), e)
  {
    RunSnoc(s, [], a, [a]);
    RunSnoc(s, [a], b, [a, b]);
    RunSnoc(s, [a, b], c, [a, b, c]);
    RunSnoc(s, [a, b, c], d, [a, b, c, d]);
    RunSnoc(s, [a, b, c, d], e, [a, b, c, d, e]);
  }

  lemma {:induction false} RunSnoc(s: State, steps: seq<Step>, last: Step, all: seq<Step>)
    requires all == steps + [last]
    ensures Run(s, all) == Next(Run(s, steps), last)
  {
    assert all[..|steps|] == steps;
  }

  // ---------------------------------------------------------------------
  // What may still happen
  // ---------------------------------------------------------------------

  lemma {:induction false} RunCons(s: State, step: Step, steps: seq<Step>)
    ensures Run(s, [step] + steps) == Run(Next(s, step), steps)
    decreases |steps|
  {
    var all, n := [step] + steps, |steps|;
    if n == 0 {
      assert all == [step] && all[..0] == [];
      assert Run(s, all) == Next(Run(s, all[..0]), step);
    } else {
      RunCons(s, step, steps[..n - 1]);
      assert all[..n] == [step] + steps[..n - 1];
    }
  }

  /** The row can be gone in some continuation. */
  ghost predicate CanVanish(s: State, id: Id) {
    exists steps :: id !in Run(s, steps).rows
  }

  lemma {:induction false} VanishBack(s: State, step: Step, id: Id)
    requires CanVanish(Next(s, step), id)
    ensures CanVanish(s, id)
  {
    var steps :| id !in Run(Next(s, step), steps).rows;
    RunCons(s, step, steps);
  }

  /** The creator has not finished: its row may still be taken back. */
  predicate Busy(b: Boot, id: Id) {
    b.id == id && (b.pc.Inserted? || b.pc.Versioned? || b.pc.Unsealed? || b.pc.Undoing?)
  }

  ghost predicate CreatorBusy(s: State, id: Id) {
    exists q: nat :: q < |s.boots| && Busy(s.boots[q], id)
  }

  lemma {:induction false} SettledStep(s: State, step: Step, id: Id)
    requires Inv(s) && id in s.rows && !CreatorBusy(s, id)
    ensures id in Next(s, step).rows && !CreatorBusy(Next(s, step), id)
  {
    var t := Next(s, step);
    if step.p < |s.boots| {
      assert BootInv(s, s.boots[step.p]) && !Busy(s.boots[step.p], id);
      forall q: nat | q < |t.boots| ensures !Busy(t.boots[q], id) {
        assert !Busy(s.boots[q], id);
      }
    }
  }

  lemma {:induction false} SettledForever(s: State, id: Id, steps: seq<Step>)
    requires Inv(s) && id in s.rows && !CreatorBusy(s, id)
    ensures Inv(Run(s, steps)) && id in Run(s, steps).rows && !CreatorBusy(Run(s, steps), id)
  {
    if steps != [] {
      var t, last := Run(s, steps[..|steps| - 1]), steps[|steps| - 1];
      SettledForever(s, id, steps[..|steps| - 1]);
      NextKeepsInv(t, last);
      SettledStep(t, last, id);
    }
  }

  lemma {:induction false} UndoingVanishes(s: State, q: nat)
    requires q < |s.boots| && s.boots[q].pc.Undoing?
    ensures CanVanish(s, s.boots[q].id)
  {
    var t := Next(s, Act(q, true));
    assert s.boots[q].id !in Run(t, []).rows;
    VanishBack(s, Act(q, true), s.boots[q].id);
  }

  lemma {:induction false} UnsealedVanishes(s: State, q: nat)
    requires q < |s.boots| && s.boots[q].pc.Unsealed?
    ensures CanVanish(s, s.boots[q].id)
  {
    UndoingVanishes(Next(s, Act(q, true)), q);
    VanishBack(s, Act(q, true), s.boots[q].id);
  }

  lemma {:induction false} BusyVanishes(s: State, q: nat)
    requires q < |s.boots| && Busy(s.boots[q], s.boots[q].id)
    ensures CanVanish(s, s.boots[q].id)
  {
    match s.boots[q].pc
    case Undoing => UndoingVanishes(s, q);
    case Unsealed => UnsealedVanishes(s, q);
    case Inserted =>
      UndoingVanishes(Next(s, Act(q, false)), q);
      VanishBack(s, Act(q, false), s.boots[q].id);
    case Versioned =>
      UnsealedVanishes(Next(s, Act(q, false)), q);
      VanishBack(s, Act(q, false), s.boots[q].id);
    case _ =>
  }

  /** A row can vanish in some continuation exactly while its creator is at work between
      its insert and its last write. */
  lemma {:induction false} VanishIff(s: State, id: Id)
    requires Inv(s) && id in s.rows
    ensures CanVanish(s, id) <==> CreatorBusy(s, id)
  {
    if CreatorBusy(s, id) {
      var q: nat :| q < |s.boots| && Busy(s.boots[q], id);
      BusyVanishes(s, q);
    } else {
      forall steps ensures id in Run(s, steps).rows {
        SettledForever(s, id, steps);
      }
    }
  }

  /** When a boot returns an id, that is the one row there is; and it can be rolled back
      later if and only if its creator is then still at work. The joined resolvers return it
      only once its version is written. */
  lemma {:induction false} ReturnedIdVanishesIff(s: State, steps: seq<Step>, p: nat, ok: bool)
    requires IsInitial(s) && p < |Run(s, steps).boots| && !Run(s, steps).boots[p].pc.Returned?
    requires Next(Run(s, steps), Act(p, ok)).boots[p].pc.Returned?
    ensures var t := Next(Run(s, steps), Act(p, ok));
            var id := t.boots[p].pc.found;
            && t.rows.Keys == {id} && (t.joined ==> t.rows[id].version)
            && (CanVanish(t, id) <==> CreatorBusy(t, id))
  {
    var before := Run(s, steps);
    RunInv(s, steps);
    NextKeepsInv(before, Act(p, ok));
    ResolveSound(before);
    assert BootInv(before, before.boots[p]);
    var t := Next(before, Act(p, ok));
    VanishIff(t, t.boots[p].pc.found);
  }

  // ---------------------------------------------------------------------
  // Stuck for good
  // ---------------------------------------------------------------------

  /** A row the resolver does not accept, with no creator at work on it. */
  ghost predicate Wedged(s: State, id: Id) {
    && s.rows.Keys == {id} && !Visible(s, id)
    && forall p :: 0 <= p < |s.boots| ==> !Owns(s.boots[p].pc)
  }

  /** From there no boot ever returns again: each one conflicts with the row and cannot
      resolve it. */
  lemma {:induction false} WedgedForever(s: State, id: Id, steps: seq<Step>)
    requires Wedged(s, id)
    ensures Wedged(Run(s, steps), id)
    ensures var t := Run(s, steps);
            |t.boots| == |s.boots| && forall p :: 0 <= p < |s.boots| && t.boots[p].pc.Returned? ==>
                t.boots[p] == s.boots[p]
  {
    if steps != [] {
      WedgedForever(s, id, steps[..|steps| - 1]);
      WedgedStep(Run(s, steps[..|steps| - 1]), id, steps[|steps| - 1]);
    }
  }

  lemma {:induction false} WedgedStep(s: State, id: Id, step: Step)
    requires Wedged(s, id)
    ensures Wedged(Next(s, step), id)
    ensures |Next(s, step).boots| == |s.boots|
    ensures forall p :: 0 <= p < |s.boots| && Next(s, step).boots[p].pc.Returned? ==>
            Next(s, step).boots[p] == s.boots[p]
  {
    forall x ensures !Visible(s, x) {
      assert x in s.rows ==> x in s.rows.Keys;
    }
    assert s.rows != map[] by {
      assert id in s.rows.Keys;
    }
  }

  /** The boot returns in some continuation. */
  ghost predicate CanReturn(s: State, p: nat) {
    exists steps :: p < |Run(s, steps).boots| && Run(s, steps).boots[p].pc.Returned?
  }

  lemma {:induction false} ReturnBack(s: State, step: Step, p: nat)
    requires CanReturn(Next(s, step), p)
    ensures CanReturn(s, p)
  {
    var steps :| p < |Run(Next(s, step), steps).boots| && Run(Next(s, step), steps).boots[p].pc.Returned?;
    RunCons(s, step, steps);
  }

  lemma {:induction false} ReturnNow(s: State, p: nat)
    requires p < |s.boots| && s.boots[p].pc.Returned?
    ensures CanReturn(s, p)
  {
    assert Run(s, []) == s;
  }

  lemma {:induction false} SealedReturns(s: State, p: nat)
    requires p < |s.boots| && s.boots[p].pc.Sealed?
    ensures CanReturn(s, p)
  {
    ReturnNow(Next(s, Act(p, true)), p);
    ReturnBack(s, Act(p, true), p);
  }

  lemma {:induction false} InsertedReturns(s: State, p: nat)
    requires p < |s.boots| && s.boots[p].pc.Inserted?
    ensures CanReturn(s, p)
  {
    var t := Next(s, Act(p, true));
    SealedReturns(Next(t, Act(p, true)), p);
    ReturnBack(t, Act(p, true), p);
    ReturnBack(s, Act(p, true), p);
  }

  /** About to look, or about to insert. */
  predicate Fresh(b: Boot) {
    b.pc.Start? || b.pc.Creating?
  }

  /** A boot that finds the table empty can complete its create. */
  lemma {:induction false} EmptyReturns(s: State, p: nat)
    requires p < |s.boots| && Fresh(s.boots[p]) && s.rows == map[]
    ensures CanReturn(s, p)
  {
    if s.boots[p].pc.Creating? {
      InsertedReturns(Next(s, Act(p, true)), p);
    } else {
      var t := Next(s, Act(p, true));
      assert t.boots[p].pc.Creating? && t.rows == map[];
      InsertedReturns(Next(t, Act(p, true)), p);
      ReturnBack(t, Act(p, true), p);
    }
    ReturnBack(s, Act(p, true), p);
  }

  /** A boot can return a row that is visible. */
  lemma {:induction false} VisibleReturns(s: State, p: nat, id: Id)
    requires p < |s.boots| && Fresh(s.boots[p]) && Visible(s, id)
    ensures CanReturn(s, p)
  {
    var t := Next(s, Act(p, true));
    if s.boots[p].pc.Start? {
      ReturnNow(t, p);
    } else {
      assert t.boots[p].pc.Failed? && Visible(t, id);
      ReturnNow(Next(t, Act(p, true)), p);
      ReturnBack(t, Act(p, true), p);
    }
    ReturnBack(s, Act(p, true), p);
  }

  /** While a creator is at work on a row nobody can see yet, it can finish it or take it back. */
  lemma {:induction false} OwnedReturns(s: State, p: nat, q: nat)
    requires Inv(s) && p < |s.boots| && Fresh(s.boots[p]) && q < |s.boots| && Owns(s.boots[q].pc)
    ensures CanReturn(s, p)
  {
    var id, t := s.boots[q].id, Next(s, Act(q, true));
    assert BootInv(s, s.boots[q]);
    if Visible(s, id) {
      VisibleReturns(s, p, id);
    } else {
      assert s.boots[q].pc.Inserted? || s.boots[q].pc.Undoing?;
      if s.boots[q].pc.Inserted? {
        assert Visible(t, id);
        VisibleReturns(t, p, id);
      } else {
        assert t.rows == map[] by {
          assert forall x :: x in s.rows ==> x == id;
        }
        EmptyReturns(t, p);
      }
      ReturnBack(s, Act(q, true), p);
    }
  }

  /** A boot that is about to look or to insert can still return, if things go well, if and
      only if the table is not wedged. */
  lemma {:induction false} FreshBootReturnsIff(s: State, p: nat)
    requires Inv(s) && p < |s.boots| && Fresh(s.boots[p])
    ensures CanReturn(s, p) <==> !exists id :: Wedged(s, id)
  {
    if id :| Wedged(s, id) {
      forall steps ensures !(p < |Run(s, steps).boots| && Run(s, steps).boots[p].pc.Returned?) {
        WedgedForever(s, id, steps);
      }
    } else if q: nat :| q < |s.boots| && Owns(s.boots[q].pc) {
      OwnedReturns(s, p, q);
    } else if s.rows == map[] {
      EmptyReturns(s, p);
    } else {
      var id :| id in s.rows;
      assert s.rows.Keys == {id};
      assert !Wedged(s, id);
      VisibleReturns(s, p, id);
    }
  }

  /** A row of another type, with other axes, or soft-deleted wedges the path for every
      resolver from the start: it is in the way of the insert and is never resolved. */
  lemma {:induction false} ForeignRowWedges(s: State, id: Id)
    requires IsInitial(s) && id in s.rows && (!s.rows[id].matches || !s.rows[id].live)
    ensures Wedged(s, id)
  {
    InitialInv(s);
    assert s.rows.Keys == {id};
  }

  ghost predicate AllAcceptable(s: State) {
    forall id :: id in s.rows ==> Acceptable(s.rows[id])
  }

  lemma {:induction false} AcceptableForever(s: State, steps: seq<Step>)
    requires AllAcceptable(s)
    ensures AllAcceptable(Run(s, steps)) && Run(s, steps).joined == s.joined
  {
    if steps != [] {
      AcceptableForever(s, steps[..|steps| - 1]);
      AcceptableStep(Run(s, steps[..|steps| - 1]), steps[|steps| - 1]);
    }
  }

  lemma {:induction false} AcceptableStep(s: State, step: Step)
    requires AllAcceptable(s)
    ensures AllAcceptable(Next(s, step)) && Next(s, step).joined == s.joined
  {
  }

  /** The seeders themselves wedge only the joined resolvers: from any other start the path is
      wedged if and only if the resolver is joined and there is a row whose version is missing
      and whose creator is gone. */
  lemma {:induction false} SelfWedgedIff(s: State, steps: seq<Step>, id: Id)
    requires IsInitial(s) && AllAcceptable(s)
    ensures var t := Run(s, steps);
            Wedged(t, id) <==> s.joined && id in t.rows && !t.rows[id].version
                               && forall p :: 0 <= p < |t.boots| ==> !Owns(t.boots[p].pc)
  {
    AcceptableForever(s, steps);
    RunInv(s, steps);
    var t := Run(s, steps);
    if id in t.rows {
      assert t.rows.Keys == {id};
    } else {
      assert id !in t.rows.Keys;
    }
  }

  /** Such a state is one crash away: the creator dies after its first insert. */
  lemma {:induction false} CrashWedges(a: Id)
    ensures var s := State(true, map[], [Boot(a, Start)], {}, {}, {});
            var t := Next(Next(Next(s, Act(0, true)), Act(0, true)), Crash(0));
            IsInitial(s) && Wedged(t, a)
  {
    var s := State(true, map[], [Boot(a, Start)], {}, {}, {});
    var s1 := Next(s, Act(0, true));
    assert s1.boots == [Boot(a, Creating)];
    var s2 := Next(s1, Act(0, true));
    assert s2.rows == map[a := Row(true, true, false)] && s2.boots == [Boot(a, Inserted)];
  }

  // ---------------------------------------------------------------------
  // One boot, undisturbed
  // ---------------------------------------------------------------------

  predicate VisibleIn(rows: map<Id, Row>, joined: bool, id: Id) {
    id in rows && Acceptable(rows[id]) && (joined ==> rows[id].version)
  }

  /** What ensuring the resource comes to, when nobody interferes: the returned row is visible,
      an existing table is not changed, and an empty one gains exactly the new row or nothing. */
  ghost predicate Ensured(before: map<Id, Row>, joined: bool, id: Id, versionOk: bool, vaultOk: bool, r: Option<Id>,
                          after: map<Id, Row>) {
    && (r.Some? ==> VisibleIn(after, joined, r.value))
    && (before != map[] ==> after == before && (r.Some? <==> exists x :: VisibleIn(before, joined, x)))
    && (before == map[] ==> (r.Some? <==> versionOk && vaultOk) && (r.Some? ==> r == Some(id))
                            && after == if r.Some? then map[id := Row(true, true, true)] else map[])
  }

  function Result(pc: Pc): Option<Id> {
    if pc.Returned? then Some(pc.found) else None
  }

  /** Boot `p` does these things, one after the other. */
  function Acts(p: nat, oks: seq<bool>): seq<Step> {
    seq(|oks|, i requires 0 <= i < |oks| => Act(p, oks[i]))
  }

  lemma {:induction false} ActsAppend(s: State, p: nat, oks: seq<bool>, ok: bool)
    ensures Run(s, Acts(p, oks + [ok])) == Next(Run(s, Acts(p, oks)), Act(p, ok))
  {
    var steps := Acts(p, oks + [ok]);
    assert steps[..|oks|] == Acts(p, oks) && steps[|oks|] == Act(p, ok);
  }

  /** The steps of one boot, with nobody else acting, do what the code does. */
  lemma {:induction false} SoloIsEnsure(s: State, p: nat, versionOk: bool, vaultOk: bool) returns (oks: seq<bool>)
    requires p < |s.boots| && s.boots[p].pc.Start? && s.boots[p].id !in s.rows
    ensures var t := Run(s, Acts(p, oks));
            && |t.boots| == |s.boots| && Done(t.boots[p].pc) && !t.boots[p].pc.Crashed?
            && Ensured(s.rows, s.joined, s.boots[p].id, versionOk, vaultOk, Result(t.boots[p].pc), t.rows)
  {
    assert Run(s, Acts(p, [])) == s;
    ActsAppend(s, p, [], true);
    assert [] + [true] == [true];
    assert forall id :: VisibleIn(s.rows, s.joined, id) <==> Visible(s, id);
    if Resolve(s).Some? {
      oks := [true];
    } else if s.rows != map[] {
      oks := SoloConflict(s, p);
    } else {
      oks := SoloCreate(s, p, versionOk, vaultOk);
    }
  }

  lemma {:induction false} SoloConflict(s: State, p: nat) returns (oks: seq<bool>)
    requires p < |s.boots| && s.boots[p].pc.Start? && Resolve(s).None? && s.rows != map[]
    ensures var t := Run(s, Acts(p, oks));
            |t.boots| == |s.boots| && t.boots[p].pc.Errored? && t.rows == s.rows
  {
    oks := [true, true, true];
    var a := Do(s, p, true);
    var b := Do(a, p, true);
    assert Resolve(b).None? by {
      assert forall id :: Visible(b, id) <==> Visible(s, id);
    }
    SoloThree(s, p, true, true, true);
  }

  lemma {:induction false} SoloThree(s: State, p: nat, x: bool, y: bool, z: bool)
    ensures Run(s, Acts(p, [x, y, z])) == Next(Next(Next(s, Act(p, x)), Act(p, y)), Act(p, z))
  {
    assert Run(s, Acts(p, [])) == s;
    ActsAppend(s, p, [], x);
    ActsAppend(s, p, [x], y);
    ActsAppend(s, p, [x, y], z);
    assert [] + [x] == [x] && [x] + [y] == [x, y] && [x, y] + [z] == [x, y, z];
  }

  lemma {:induction false} SoloMore(s: State, p: nat, front: seq<bool>, x: bool, y: bool)
    ensures Run(s, Acts(p, front + [x] + [y])) == Next(Next(Run(s, Acts(p, front)), Act(p, x)), Act(p, y))
  {
    ActsAppend(s, p, front, x);
    ActsAppend(s, p, front + [x], y);
  }

  /** Boot `p` is here, and these are the rows. */
  ghost predicate Stands(s: State, t: State, p: nat, pc: Pc, rows: map<Id, Row>) {
    && p < |s.boots| == |t.boots| && t.boots[p] == Boot(s.boots[p].id, pc) && t.rows == rows && t.joined == s.joined
  }

  lemma {:induction false} SoloVersion(s: State, p: nat, versionOk: bool)
    requires p < |s.boots| && s.boots[p].pc.Start? && s.rows == map[] && Resolve(s).None?
    ensures Stands(s, Run(s, Acts(p, [true, true, versionOk])), p, if versionOk then Versioned else Undoing,
                   map[s.boots[p].id := Row(true, true, versionOk)])
  {
    SoloThree(s, p, true, true, versionOk);
    var id := s.boots[p].id;
    var a := Next(s, Act(p, true));
    assert Stands(s, a, p, Creating, map[]);
    var b := Next(a, Act(p, true));
    assert Stands(s, b, p, Inserted, map[id := Row(true, true, false)]);
  }

  /** Taking the row back, and looking again in vain. */
  lemma {:induction false} SoloUndo(s: State, v: State, p: nat, row: Row)
    requires p < |s.boots| && Stands(s, v, p, Undoing, map[s.boots[p].id := row])
    ensures Stands(s, Next(Next(v, Act(p, true)), Act(p, true)), p, Errored, map[])
  {
    var u := Next(v, Act(p, true));
    assert u.rows == map[];
    assert Stands(s, u, p, Failed, map[]);
    assert Resolve(u).None?;
  }

  lemma {:induction false} SoloSeal(s: State, v: State, p: nat)
    requires p < |s.boots| && Stands(s, v, p, Versioned, map[s.boots[p].id := Row(true, true, true)])
    ensures Stands(s, Next(Next(v, Act(p, true)), Act(p, true)), p, Returned(s.boots[p].id), v.rows)
    ensures Stands(s, Next(Next(v, Act(p, false)), Act(p, true)), p, Undoing,
                   map[s.boots[p].id := Row(true, true, false)])
  {
    var a, b := Next(v, Act(p, true)), Next(v, Act(p, false));
    assert Stands(s, a, p, Sealed, v.rows) && Stands(s, b, p, Unsealed, v.rows);
  }

  lemma {:induction false} SoloCreate(s: State, p: nat, versionOk: bool, vaultOk: bool) returns (oks: seq<bool>)
    requires p < |s.boots| && s.boots[p].pc.Start? && s.rows == map[] && Resolve(s).None?
    ensures var created := versionOk && vaultOk;
            Stands(s, Run(s, Acts(p, oks)), p, if created then Returned(s.boots[p].id) else Errored,
                   if created then map[s.boots[p].id := Row(true, true, true)] else map[])
  {
    var front := [true, true, versionOk];
    var v := Run(s, Acts(p, front));
    SoloVersion(s, p, versionOk);
    if !versionOk {
      oks := front + [true] + [true];
      SoloMore(s, p, front, true, true);
      SoloUndo(s, v, p, Row(true, true, false));
    } else if vaultOk {
      oks := front + [true] + [true];
      SoloMore(s, p, front, true, true);
      SoloSeal(s, v, p);
    } else {
      var back := front + [false] + [true];
      oks := back + [true] + [true];
      SoloMore(s, p, front, false, true);
      SoloSeal(s, v, p);
      SoloMore(s, p, back, true, true);
      SoloUndo(s, Run(s, Acts(p, back)), p, Row(true, true, false));
    }
  }

  /** The rows under the path, as one undisturbed boot sees and changes them. */
  class ResourceTable {
    var rows: map<Id, Row>

    method ResolveRow(joined: bool) returns (found: Option<Id>)
      ensures found.Some? ==> VisibleIn(rows, joined, found.value)
      ensures found.None? ==> forall id :: !VisibleIn(rows, joined, id)
    {
      found := None;
      var todo := rows.Keys;
      while todo != {} && found.None?
        invariant todo <= rows.Keys
        invariant found.Some? ==> VisibleIn(rows, joined, found.value)
        invariant found.None? ==> forall id :: id in rows && id !in todo ==> !VisibleIn(rows, joined, id)
        decreases |todo|
      {
        var id :| id in todo;
        if VisibleIn(rows, joined, id) {
          found := Some(id);
        }
        todo := todo - {id};
      }
    }

    /** `create_resource_internal`: the row, then its version, then the secrets; a
        failure takes back what was written. */
    method Create(id: Id, versionOk: bool, vaultOk: bool) returns (ok: bool)
      requires id !in rows
      modifies this
      ensures ok <==> old(rows) == map[] && versionOk && vaultOk
      ensures rows == if ok then map[id := Row(true, true, true)] else old(rows)
    {
      if rows != map[] {
        return false;
      }
      rows := rows[id := Row(true, true, false)];
      if !versionOk {
        rows := rows - {id};
        return false;
      }
      rows := rows[id := Row(true, true, true)];
      if !vaultOk {
        rows := rows[id := Row(true, true, false)];
        rows := rows - {id};
        return false;
      }
      return true;
    }

    /** `ensure_…`: a second call changes nothing and returns the same row. */
    method Ensure(joined: bool, id: Id, versionOk: bool, vaultOk: bool) returns (r: Option<Id>)
      requires id !in rows
      modifies this
      ensures Ensured(old(rows), joined, id, versionOk, vaultOk, r, rows)
    {
      r := ResolveRow(joined);
      if r.None? {
        var ok := Create(id, versionOk, vaultOk);
        if ok {
          r := Some(id);
        } else {
          r := ResolveRow(joined);
        }
      }
    }
  }
}
