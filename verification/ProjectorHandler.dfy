/** The handler and the sweep as code over mutable tables, tied to the same
    flips the step system uses. */
module ProjectorHandler {
  import opened Wrappers
  import opened Rollups
  import opened Projector

  datatype CommitResult = LandsOk | LandsReportsError | DoesNotLand

  /** Which database calls of one handling succeed. */
  datatype Faults = Faults(beginOk: bool, updateOk: bool, rollupOk: bool, userOk: bool, commit: CommitResult)

  datatype AckAction = LeftToCaller | AckDropped | NakRetry

  /** The rollup tables as one transaction sees and writes them. */
  class Transaction {
    var rollup: Rollup
    var users: UserRuns

    constructor (rollup: Rollup, users: UserRuns)
      ensures this.rollup == rollup && this.users == users
    {
      this.rollup, this.users := rollup, users;
    }

    /** `record_terminal_rollups`: both upserts, or an error part-way. */
    method RecordTerminalRollups(net: NetId, meta: Instance, outcome: Outcome, faults: Faults) returns (ok: bool)
      modifies this
      ensures ok <==> faults.rollupOk && faults.userOk
      ensures ok ==> var f := Flip(net, meta, outcome);
                     rollup == RollupAfter(old(rollup), f) && users == UsersAfter(old(users), f)
    {
      var durSum, durCount := 0, 0;
      if meta.startedAt.Some? && meta.completedAt.Some? {
        var ms := meta.completedAt.value - meta.startedAt.value;
        durSum, durCount := if ms < 0 then 0 else ms, 1;
      }
      if !faults.rollupOk {
        return false;
      }
      var key := RollupKey(meta.templateId, meta.version, meta.createdAt - meta.createdAt % MS_PER_HOUR, meta.mode,
                           outcome);
      if key in rollup {
        var c := rollup[key];
        rollup := rollup[key := RollupCell(c.runCount + 1, c.durationSum + durSum, c.durationCount + durCount)];
      } else {
        rollup := rollup[key := RollupCell(1, durSum, durCount)];
      }
      if !faults.userOk {
        return false;
      }
      var user := UserKey(meta.templateId, meta.createdBy);
      if user in users {
        var c := users[user];
        var first := if meta.createdAt < c.firstRun then meta.createdAt else c.firstRun;
        var last := if meta.createdAt > c.lastRun then meta.createdAt else c.lastRun;
        users := users[user := UserCell(c.runCount + 1, first, last)];
      } else {
        users := users[user := UserCell(1, meta.createdAt, meta.createdAt)];
      }
      return true;
    }
  }

  class Database {
    var rows: map<NetId, Instance>
    var rollup: Rollup
    var users: UserRuns

    predicate Matches(ev: Event)
      reads this
    {
      ev.net in rows && rows[ev.net].status.Running?
    }

    /** `handle_terminal_event` up to the commit. The tables change only when the
        commit lands, and then all three together; the caller acknowledges only
        a commit that was also reported as landed. */
    method HandleTerminalEvent(ev: Event, now: Time, delivered: Option<nat>, faults: Faults)
      returns (handledHere: bool, action: AckAction)
      modifies this
      ensures var works := faults.beginOk && faults.updateOk && old(Matches(ev)) && faults.rollupOk && faults.userOk;
              && (works && !faults.commit.DoesNotLand? ==>
                    var f := Flip(ev.net, Terminated(old(rows)[ev.net], ev, now),
                                  DeriveOutcome(ev.status, ev.envelope));
                    && rows == old(rows)[ev.net := f.row]
                    && rollup == RollupAfter(old(rollup), f)
                    && users == UsersAfter(old(users), f))
              && (!works || faults.commit.DoesNotLand? ==> unchanged(this))
              && (action == LeftToCaller <==> works && faults.commit.LandsOk?)
      ensures handledHere <==> action != LeftToCaller
      ensures action == AckDropped <==>
                faults.beginOk && faults.updateOk && !old(Matches(ev)) &&
                delivered.Some? && delivered.value >= 10
    {
      if !faults.beginOk {
        return true, NakRetry;
      }
      var tx := new Transaction(rollup, users);
      if !faults.updateOk {
        return true, NakRetry;
      }
      if !(ev.net in rows && rows[ev.net].status.Running?) {
        var d := if delivered.Some? then delivered.value else 0;
        if d >= MAX_ORPHAN_EVENT_DELIVERIES {
          return true, AckDropped;
        } else {
          return true, NakRetry;
        }
      }
      var meta := rows[ev.net].(status := ev.status, completedAt := Some(now));
      if ev.envelope.Some? {
        meta := meta.(result := ev.envelope);
      }
      var outcome := DeriveOutcome(ev.status, ev.envelope);
      var ok := tx.RecordTerminalRollups(ev.net, meta, outcome, faults);
      if !ok {
        return true, NakRetry;
      }
      if faults.commit.DoesNotLand? {
        return true, NakRetry;
      }
      rows := rows[ev.net := meta];
      rollup, users := tx.rollup, tx.users;
      if faults.commit.LandsReportsError? {
        return true, NakRetry;
      }
      return false, LeftToCaller;
    }

    /** `cleanup_finished_instances`: archives exactly the finished rows past the
        cutoff whose update does not fail, and touches nothing else. */
    method CleanupFinishedInstances(cutoff: Time, failing: set<NetId>)
      modifies this`rows
      ensures rows.Keys == old(rows).Keys
      ensures forall n :: n in rows ==>
                rows[n] == if old(rows)[n].status in {Completed, Cancelled, Failed} && n !in failing
                              && old(rows)[n].completedAt.Some? && old(rows)[n].completedAt.value < cutoff
                           then old(rows)[n].(status := Archived) else old(rows)[n]
    {
      var stale := set n | n in rows && Stale(rows[n], cutoff);
      ghost var all := stale;
      while stale != {}
        invariant stale <= all
        invariant rows.Keys == old(rows).Keys
        invariant forall n :: n in rows ==>
                    rows[n] == if n in all && n !in stale && n !in failing
                               then old(rows)[n].(status := Archived) else old(rows)[n]
        decreases stale
      {
        var n :| n in stale;
        if n !in failing {
          rows := rows[n := rows[n].(status := Archived)];
        }
        stale := stale - {n};
      }
    }
  }

  // ---------------------------------------------------------------------
  // The handler is a path of the step system
  // ---------------------------------------------------------------------

  /** The handler gets as far as the commit. */
  predicate Works(s: State, w: Worker, faults: Faults)
    requires HoldsEvent(s, w)
  {
    faults.beginOk && faults.updateOk && RunningRow(s, HeldEvent(s, w).net) && faults.rollupOk && faults.userOk
  }

  /** Where it ends: the caller's acknowledgement, the orphan branch, or a request for redelivery. */
  function EndPhase(s: State, w: Worker, faults: Faults): Phase
    requires HoldsEvent(s, w)
  {
    var m, ev := s.workers[w].m, HeldEvent(s, w);
    if faults.beginOk && faults.updateOk && !RunningRow(s, ev.net) then Orphan(m, ev, s.workers[w].delivered)
    else if Works(s, w, faults) && faults.commit.LandsOk? then Committed(m, ev, ResolveWaiter)
    else Naking(m)
  }

  function FlipBy(s: State, w: Worker, now: Time): Flip
    requires HoldsEvent(s, w) && HeldEvent(s, w).net in s.rows
  {
    var ev := HeldEvent(s, w);
    Flip(ev.net, Terminated(s.rows[ev.net], ev, now), DeriveOutcome(ev.status, ev.envelope))
  }

  /** What handling an event leaves behind, for every way the database may behave. */
  predicate Handled(s: State, w: Worker, now: Time, faults: Faults, t: State)
    requires HoldsEvent(s, w)
  {
    t == if Works(s, w, faults) && !faults.commit.DoesNotLand? then
           var f := FlipBy(s, w, now);
           Goto(s.(rows := s.rows[f.net := f.row], rollup := RollupAfter(s.rollup, f), users := UsersAfter(s.users, f)),
                w, EndPhase(s, w, faults))
         else Goto(s, w, EndPhase(s, w, faults))
  }

  /** The first transaction of the handler, after each of its statements. */
  lemma OpenTransaction(s: State, w: Worker, now: Time) returns (a: State, b: State, c: State)
    requires HoldsEvent(s, w) && RunningRow(s, HeldEvent(s, w).net)
    requires forall v :: v in s.workers ==> !s.workers[v].InTx?
    ensures Next(s, UpdateMatchesRow(w, now), a) && Next(a, FoldRollup(w), b) && Next(b, FoldUser(w), c)
    ensures InFlightTx(s, w, now, a) && InFlightTx(s, w, now, b) && InFlightTx(s, w, now, c)
    ensures c.workers[w].tx.cell == Some(BumpCell(Lookup(s.rollup, c.workers[w].tx.Key()), c.workers[w].tx.row))
    ensures c.workers[w].tx.user == Some(BumpUser(Lookup(s.users, c.workers[w].tx.User()), c.workers[w].tx.row))
  {
    var m, ev, f := s.workers[w].m, HeldEvent(s, w), FlipBy(s, w, now);
    var tx := Tx(f.net, f.row, f.outcome, None, None);
    a := Goto(s, w, InTx(m, ev, tx));
    var tx' := tx.(cell := Some(BumpCell(Lookup(s.rollup, tx.Key()), tx.row)));
    b := Goto(a, w, InTx(m, ev, tx'));
    c := Goto(b, w, InTx(m, ev, tx'.(user := Some(BumpUser(Lookup(s.users, tx'.User()), tx'.row)))));
  }

  /** Only this worker moved, and it holds the transaction of its event. */
  predicate InFlightTx(s: State, w: Worker, now: Time, t: State)
    requires HoldsEvent(s, w) && HeldEvent(s, w).net in s.rows
  {
    && w in t.workers && t.workers[w].InTx? && t == Goto(s, w, t.workers[w])
    && t.workers[w].m == s.workers[w].m && t.workers[w].ev == HeldEvent(s, w)
    && var f := FlipBy(s, w, now);
       t.workers[w].tx.net == f.net && t.workers[w].tx.row == f.row && t.workers[w].tx.outcome == f.outcome
  }

  /** Handling an event is a path of the step system, however the database behaves: when
      nobody else is in a transaction it ends in the rows, tables and phase of `Handled`. */
  lemma HandlerIsSteps(s: State, w: Worker, now: Time, faults: Faults) returns (states: seq<State>, steps: seq<Step>)
    requires HoldsEvent(s, w)
    requires forall v :: v in s.workers ==> !s.workers[v].InTx?
    ensures IsPath(states, steps) && states[0] == s && Handled(s, w, now, faults, states[|steps|])
  {
    var m, ev := s.workers[w].m, HeldEvent(s, w);
    if !faults.beginOk || !faults.updateOk {
      return [s, Goto(s, w, Naking(m))], [BeginOrUpdateFails(w)];
    }
    if !RunningRow(s, ev.net) {
      return [s, Goto(s, w, Orphan(m, ev, s.workers[w].delivered))], [UpdateMatchesNone(w)];
    }
    var a, b, c := OpenTransaction(s, w, now);
    var end := Goto(s, w, Naking(m));
    if !faults.rollupOk {
      UndoneIs(s, w, now, a);
      return [s, a, end], [UpdateMatchesRow(w, now), RollBack(w)];
    }
    if !faults.userOk {
      UndoneIs(s, w, now, b);
      return [s, a, b, end], [UpdateMatchesRow(w, now), FoldRollup(w), RollBack(w)];
    }
    if faults.commit.DoesNotLand? {
      UndoneIs(s, w, now, c);
      return [s, a, b, c, end], [UpdateMatchesRow(w, now), FoldRollup(w), FoldUser(w), RollBack(w)];
    }
    var t := CommitIs(s, w, now, c, faults);
    return [s, a, b, c, t], [UpdateMatchesRow(w, now), FoldRollup(w), FoldUser(w), Commit(w, faults.commit.LandsOk?)];
  }

  lemma UndoneIs(s: State, w: Worker, now: Time, t: State)
    requires HoldsEvent(s, w) && HeldEvent(s, w).net in s.rows && InFlightTx(s, w, now, t)
    ensures Next(t, RollBack(w), Goto(s, w, Naking(s.workers[w].m)))
  {
    assert Goto(t, w, Naking(t.workers[w].m)) == Goto(s, w, Naking(s.workers[w].m));
  }

  lemma CommitIs(s: State, w: Worker, now: Time, c: State, faults: Faults) returns (t: State)
    requires HoldsEvent(s, w) && Works(s, w, faults) && !faults.commit.DoesNotLand? && InFlightTx(s, w, now, c)
    requires c.workers[w].tx.cell == Some(BumpCell(Lookup(s.rollup, c.workers[w].tx.Key()), c.workers[w].tx.row))
    requires c.workers[w].tx.user == Some(BumpUser(Lookup(s.users, c.workers[w].tx.User()), c.workers[w].tx.row))
    ensures Next(c, Commit(w, faults.commit.LandsOk?), t) && Handled(s, w, now, faults, t)
  {
    var p, f := c.workers[w], FlipBy(s, w, now);
    t := Goto(c.(rows := c.rows[p.tx.net := p.tx.row],
                 rollup := c.rollup[p.tx.Key() := p.tx.cell.value],
                 users := c.users[p.tx.User() := p.tx.user.value]),
              w, if faults.commit.LandsOk? then Committed(p.m, p.ev, ResolveWaiter) else Naking(p.m));
    assert t.workers == s.workers[w := EndPhase(s, w, faults)];
  }
}
