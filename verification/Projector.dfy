/** The terminal-event projector as a step system: at-least-once delivery,
    concurrent handlers with row locks, failing and ambiguous commits, crashes,
    the archive sweep and the cancel endpoint (`service/src/lifecycle.rs`,
    `service/src/handlers/instances.rs`). */
module Projector {
  import opened Wrappers
  import opened Rollups

  type MsgId = nat
  type Worker = nat

  datatype Message = Message(raw: RawMessage, delivered: nat, acked: bool)

  /** The uncommitted writes of one transaction. Every written key is locked
      until the transaction ends. */
  datatype Tx = Tx(net: NetId, row: Instance, outcome: Outcome,
                   cell: Option<RollupCell>, user: Option<UserCell>)
  {
    function Key(): RollupKey { KeyOf(row, outcome) }
    function User(): UserKey { UserKeyOf(row) }
  }

  /** Where a handler is. `delivered` is the delivery count read from the
      message, absent when the message info cannot be read. */
  datatype Phase =
    | Idle
    | Holding(m: MsgId, delivered: Option<nat>)
    | InTx(m: MsgId, ev: Event, tx: Tx)
    | Orphan(m: MsgId, ev: Event, delivered: Option<nat>)
    | Committed(m: MsgId, ev: Event, next: EffectKind)
    | Acking(m: MsgId)
    | Naking(m: MsgId)

  datatype EffectKind = ResolveWaiter | CleanupSubscriptions | FireTriggers

  function Rank(k: EffectKind): nat {
    match k case ResolveWaiter => 0 case CleanupSubscriptions => 1 case FireTriggers => 2
  }

  datatype Effect = Effect(kind: EffectKind, net: NetId, status: Status)

  datatype State = State(
    rows: map<NetId, Instance>, rollup: Rollup, users: UserRuns,
    messages: map<MsgId, Message>, workers: map<Worker, Phase>,
    stale: set<NetId>,       // ids a sweep has read and not yet archived
    cancelling: set<NetId>,  // ids a cancel request has read and not yet updated
    effects: seq<Effect>)

  datatype Step =
    | Publish(m: MsgId, raw: RawMessage)
    | CreateInstance(net: NetId, row: Instance)
    | Deliver(w: Worker, m: MsgId, infoOk: bool)
    | SkipMessage(w: Worker)
    | BeginOrUpdateFails(w: Worker)
    | UpdateMatchesNone(w: Worker)
    | UpdateMatchesRow(w: Worker, now: Time)
    | FoldRollup(w: Worker)
    | FoldUser(w: Worker)
    | RollBack(w: Worker)
    | Commit(w: Worker, reportedOk: bool)
    | RunEffect(w: Worker, happens: bool)
    | ResolveOrphan(w: Worker, lost: bool)
    | Ack(w: Worker, lost: bool)
    | Nak(w: Worker)
    | Crash(w: Worker)
    | SweepRead(cutoff: Time)
    | SweepArchive(net: NetId)
    | SweepSkip(net: NetId)
    | CancelRead(net: NetId)
    | CancelUpdate(net: NetId, now: Time)

  predicate Init(s: State) {
    && s.rows == map[] && s.rollup == map[] && s.users == map[] && s.messages == map[]
    && s.stale == {} && s.cancelling == {} && s.effects == []
    && forall w :: w in s.workers ==> s.workers[w].Idle?
  }

  // Locks: a key written by another open transaction cannot be written.

  predicate RowFree(s: State, n: NetId) {
    forall v :: v in s.workers && s.workers[v].InTx? ==> s.workers[v].tx.net != n
  }

  predicate CellFree(s: State, k: RollupKey) {
    forall v :: v in s.workers && s.workers[v].InTx? && s.workers[v].tx.cell.Some? ==> s.workers[v].tx.Key() != k
  }

  predicate UserFree(s: State, k: UserKey) {
    forall v :: v in s.workers && s.workers[v].InTx? && s.workers[v].tx.user.Some? ==> s.workers[v].tx.User() != k
  }

  predicate RunningRow(s: State, n: NetId) {
    n in s.rows && s.rows[n].status.Running?
  }

  /** The row the guarded UPDATE leaves: `result` only changes when the event carries one. */
  function Terminated(row: Instance, ev: Event, now: Time): Instance {
    row.(status := ev.status, completedAt := Some(now),
         result := if ev.envelope.Some? then ev.envelope else row.result)
  }

  function Goto(s: State, w: Worker, p: Phase): State {
    s.(workers := s.workers[w := p])
  }

  function AckMessage(s: State, m: MsgId, lost: bool): State {
    if lost || m !in s.messages then s
    else s.(messages := s.messages[m := s.messages[m].(acked := true)])
  }

  /** The message a worker holds is a terminal event. */
  predicate HoldsEvent(s: State, w: Worker) {
    && w in s.workers && s.workers[w].Holding?
    && s.workers[w].m in s.messages
    && Read(s.messages[s.workers[w].m].raw).TerminalEvent?
  }

  function HeldEvent(s: State, w: Worker): Event
    requires HoldsEvent(s, w)
  {
    Read(s.messages[s.workers[w].m].raw).ev
  }

  predicate OpenTx(s: State, w: Worker) {
    w in s.workers && s.workers[w].InTx?
  }

  predicate Next(s: State, step: Step, t: State) {
    match step
    case Publish(m, raw) =>
      m !in s.messages && t == s.(messages := s.messages[m := Message(raw, 0, false)])
    case CreateInstance(net, row) =>
      net !in s.rows && row.status.Running? && t == s.(rows := s.rows[net := row])
    case Deliver(w, m, infoOk) =>
      // Any unacknowledged message may be delivered again, also while an
      // earlier delivery of it is still being handled.
      && w in s.workers && s.workers[w].Idle?
      && m in s.messages && !s.messages[m].acked
      && var d := s.messages[m].delivered + 1;
         t == Goto(s.(messages := s.messages[m := s.messages[m].(delivered := d)]), w,
                   Holding(m, if infoOk then Some(d) else None))
    case SkipMessage(w) =>
      && w in s.workers && s.workers[w].Holding? && s.workers[w].m in s.messages
      && !Read(s.messages[s.workers[w].m].raw).TerminalEvent?
      && t == Goto(s, w, Acking(s.workers[w].m))
    case BeginOrUpdateFails(w) =>
      HoldsEvent(s, w) && t == Goto(s, w, Naking(s.workers[w].m))
    case UpdateMatchesNone(w) =>
      && HoldsEvent(s, w) && !RunningRow(s, HeldEvent(s, w).net)
      && t == Goto(s, w, Orphan(s.workers[w].m, HeldEvent(s, w), s.workers[w].delivered))
    case UpdateMatchesRow(w, now) =>
      && HoldsEvent(s, w)
      && var ev := HeldEvent(s, w);
         && RunningRow(s, ev.net) && RowFree(s, ev.net)
         && t == Goto(s, w, InTx(s.workers[w].m, ev,
                                 Tx(ev.net, Terminated(s.rows[ev.net], ev, now),
                                    DeriveOutcome(ev.status, ev.envelope), None, None)))
    case FoldRollup(w) =>
      && OpenTx(s, w)
      && var p := s.workers[w];
         && p.tx.cell.None? && CellFree(s, p.tx.Key())
         && t == Goto(s, w, p.(tx := p.tx.(cell := Some(BumpCell(Lookup(s.rollup, p.tx.Key()), p.tx.row)))))
    case FoldUser(w) =>
      && OpenTx(s, w)
      && var p := s.workers[w];
         && p.tx.cell.Some? && p.tx.user.None? && UserFree(s, p.tx.User())
         && t == Goto(s, w, p.(tx := p.tx.(user := Some(BumpUser(Lookup(s.users, p.tx.User()), p.tx.row)))))
    case RollBack(w) =>
      OpenTx(s, w) && t == Goto(s, w, Naking(s.workers[w].m))
    case Commit(w, reportedOk) =>
      // The commit lands. When the result is reported as an error the handler
      // asks for redelivery and runs no side effect. A commit that does not
      // land is `RollBack`.
      && OpenTx(s, w)
      && var p := s.workers[w];
         && p.tx.cell.Some? && p.tx.user.Some?
         && t == Goto(s.(rows := s.rows[p.tx.net := p.tx.row],
                         rollup := s.rollup[p.tx.Key() := p.tx.cell.value],
                         users := s.users[p.tx.User() := p.tx.user.value]),
                      w, if reportedOk then Committed(p.m, p.ev, ResolveWaiter) else Naking(p.m))
    case RunEffect(w, happens) =>
      && w in s.workers && s.workers[w].Committed?
      && var p := s.workers[w];
         t == Goto(s.(effects := s.effects + if happens then [Effect(p.next, p.ev.net, p.ev.status)] else []), w,
                   match p.next
                   case ResolveWaiter => p.(next := CleanupSubscriptions)
                   case CleanupSubscriptions => p.(next := FireTriggers)
                   case FireTriggers => Acking(p.m))
    case ResolveOrphan(w, lost) =>
      && w in s.workers && s.workers[w].Orphan?
      && var p := s.workers[w];
         t == if p.delivered.GetOr(0) >= MAX_ORPHAN_EVENT_DELIVERIES
              then Goto(AckMessage(s, p.m, lost), w, Idle)
              else Goto(s, w, Idle)
    case Ack(w, lost) =>
      && w in s.workers && s.workers[w].Acking?
      && t == Goto(AckMessage(s, s.workers[w].m, lost), w, Idle)
    case Nak(w) =>
      w in s.workers && s.workers[w].Naking? && t == Goto(s, w, Idle)
    case Crash(w) =>
      w in s.workers && t == Goto(s, w, Idle)
    case SweepRead(cutoff) =>
      t == s.(stale := s.stale + set n | n in s.rows && Stale(s.rows[n], cutoff))
    case SweepArchive(net) =>
      && net in s.stale && net in s.rows && RowFree(s, net)
      && t == s.(rows := s.rows[net := s.rows[net].(status := Archived)], stale := s.stale - {net})
    case SweepSkip(net) =>
      net in s.stale && t == s.(stale := s.stale - {net})
    case CancelRead(net) =>
      && net in s.rows && !s.rows[net].status.Completed? && !s.rows[net].status.Cancelled?
      && t == s.(cancelling := s.cancelling + {net})
    case CancelUpdate(net, now) =>
      // The endpoint's UPDATE has no status guard and folds nothing.
      && net in s.cancelling && net in s.rows && RowFree(s, net)
      && t == s.(rows := s.rows[net := s.rows[net].(status := Cancelled, completedAt := Some(now))],
                 cancelling := s.cancelling - {net})
  }

  /** States joined by steps, from anywhere. */
  predicate IsPath(states: seq<State>, steps: seq<Step>) {
    |states| == |steps| + 1 && forall i :: 0 <= i < |steps| ==> Next(states[i], steps[i], states[i + 1])
  }

  /** A run: states joined by steps, from the empty database. */
  ghost predicate IsRun(states: seq<State>, steps: seq<Step>) {
    && |states| == |steps| + 1
    && Init(states[0])
    && forall i :: 0 <= i < |steps| ==> Next(states[i], steps[i], states[i + 1])
  }

  /** The flip a step lands, if any: read off the committing transaction. */
  function FlipsOf(s: State, step: Step): seq<Flip> {
    if step.Commit? && OpenTx(s, step.w)
    then var tx := s.workers[step.w].tx; [Flip(tx.net, tx.row, tx.outcome)]
    else []
  }

  /** The nets a step takes out of `running` through the cancel endpoint. */
  function CancelsOf(s: State, step: Step): set<NetId> {
    if step.CancelUpdate? && RunningRow(s, step.net) then {step.net} else {}
  }

  /** The commits of a run, in order. */
  function Ledger(states: seq<State>, steps: seq<Step>): seq<Flip>
    requires |states| == |steps| + 1
    decreases |steps|
  {
    var n := |steps|;
    if n == 0 then [] else Ledger(states[..n], steps[..n - 1]) + FlipsOf(states[n - 1], steps[n - 1])
  }

  /** The nets of a run that left `running` through the cancel endpoint. */
  function Cancels(states: seq<State>, steps: seq<Step>): set<NetId>
    requires |states| == |steps| + 1
    decreases |steps|
  {
    var n := |steps|;
    if n == 0 then {} else Cancels(states[..n], steps[..n - 1]) + CancelsOf(states[n - 1], steps[n - 1])
  }
}
