/** Terminal outcomes and the two usage rollups they are folded into
    (`service/src/lifecycle.rs`). */
module Rollups {
  import opened Wrappers
  import opened Folds
  import opened Text

  type NetId = string
  type Uuid = string
  /** Milliseconds since the epoch, UTC. */
  type Time = int

  const MS_PER_HOUR: int := 3_600_000
  const MAX_ORPHAN_EVENT_DELIVERIES: nat := 10

  datatype Json =
    | JNull
    | JBool(b: bool)
    | JNumber(n: int)
    | JString(s: string)
    | JArray(items: seq<Json>)
    | JObject(fields: map<string, Json>)

  datatype Status = Running | Completed | Cancelled | Failed | Archived {
    predicate Terminal() {
      Completed? || Cancelled? || Failed?
    }
  }

  datatype Outcome = Success | Failure | Stopped

  /** One row of `workflow_instances`, keyed elsewhere by its unique `net_id`. */
  datatype Instance = Instance(
    id: Uuid, templateId: Uuid, version: int, mode: string, createdBy: Uuid,
    createdAt: Time, startedAt: Option<Time>,
    status: Status, completedAt: Option<Time>, result: Option<Json>)

  /** Finished, and for longer than the retention window. */
  predicate Stale(row: Instance, cutoff: Time) {
    row.status.Terminal() && row.completedAt.Some? && row.completedAt.value < cutoff
  }

  // ---------------------------------------------------------------------
  // The listener's reading of a message
  // ---------------------------------------------------------------------

  datatype DomainEvent =
    | NetCompleted(exitCode: Option<Json>)
    | NetCancelled(cancelReason: Option<string>)
    | NetFailed(failReason: string)
    | OtherEvent

  datatype Payload = Empty | Garbage | Persisted(event: DomainEvent)

  datatype RawMessage = RawMessage(subject: string, payload: Payload)

  /** A terminal event: which net, which status, which result envelope. */
  datatype Event = Event(net: NetId, status: Status, envelope: Option<Json>)

  /** What the listener does with a message before any database work. */
  datatype Reading = Malformed | Ignored | TerminalEvent(ev: Event)

  function ErrorEnvelope(reason: Json): Json {
    JObject(map["ok" := JBool(false),
                "error" := JObject(map["reason" := reason, "value" := JNull])])
  }

  function Read(msg: RawMessage): (r: Reading)
    ensures r.TerminalEvent? ==> r.ev.status.Terminal()
  {
    var parts := Split(msg.subject, '.');
    if |parts| < 5 then Malformed
    else
      var net := parts[2];
      var kind := parts[|parts| - 1];
      var event := if msg.payload.Persisted? then msg.payload.event else OtherEvent;
      if kind == "completed" then
        TerminalEvent(Event(net, Completed, if event.NetCompleted? then event.exitCode else None))
      else if kind == "cancelled" then
        var reason := if event.NetCancelled? && event.cancelReason.Some?
                      then JString(event.cancelReason.value) else JNull;
        TerminalEvent(Event(net, Cancelled, Some(ErrorEnvelope(reason))))
      else if kind == "failed" then
        var reason := if event.NetFailed? then event.failReason else "net failed";
        TerminalEvent(Event(net, Failed, Some(ErrorEnvelope(JString(reason)))))
      else Ignored
  }

  predicate ExplicitOkFalse(result: Option<Json>) {
    && result.Some?
    && result.value.JObject?
    && "ok" in result.value.fields
    && result.value.fields["ok"] == JBool(false)
  }

  function DeriveOutcome(status: Status, result: Option<Json>): Outcome {
    match status
    case Failed => Failure
    case Cancelled => Stopped
    case Completed => if ExplicitOkFalse(result) then Failure else Success
    case _ => Success
  }

  /** The envelope `{"ok": false, "error": {"reason": …, "value": null}}`, and nothing else. */
  predicate SaysError(envelope: Option<Json>, reason: Json) {
    && envelope.Some? && envelope.value.JObject? && envelope.value.fields.Keys == {"ok", "error"}
    && envelope.value.fields["ok"] == JBool(false) && envelope.value.fields["error"].JObject?
    && var error := envelope.value.fields["error"].fields;
       error.Keys == {"reason", "value"} && error["reason"] == reason && error["value"] == JNull
  }

  /** A message is a terminal event exactly when its subject has at least five parts and ends
      in one of the three words. The event then names the third part, and carries what the
      payload says: the exit code of a completion, the reason of a cancellation, the reason
      of a failure; a payload of another kind says nothing. */
  lemma ReadMeaning(msg: RawMessage)
    ensures
      var parts := Split(msg.subject, '.');
      var last := parts[|parts| - 1];
      && (Read(msg) == Malformed <==> |parts| < 5)
      && (Read(msg).TerminalEvent? <==> |parts| >= 5 && last in {"completed", "cancelled", "failed"})
      && (Read(msg).TerminalEvent? ==>
            var ev := Read(msg).ev;
            && ev.net == parts[2]
            && (ev.status == Completed <==> last == "completed") && (ev.status == Cancelled <==> last == "cancelled")
            && (ev.status == Failed <==> last == "failed")
            && forall e :: msg.payload == Persisted(e) ==> Carries(ev, e))
      && (Read(msg).TerminalEvent? && !msg.payload.Persisted? ==> Carries(Read(msg).ev, OtherEvent))
  {
  }

  /** The event's envelope is what the domain event tells about this kind of ending. */
  predicate Carries(ev: Event, e: DomainEvent) {
    && (ev.status.Completed? && e.NetCompleted? ==> ev.envelope == e.exitCode)
    && (ev.status.Completed? && !e.NetCompleted? ==> ev.envelope == None)
    && (ev.status.Cancelled? && e.NetCancelled? && e.cancelReason.Some? ==>
          SaysError(ev.envelope, JString(e.cancelReason.value)))
    && (ev.status.Cancelled? && !(e.NetCancelled? && e.cancelReason.Some?) ==> SaysError(ev.envelope, JNull))
    && (ev.status.Failed? && e.NetFailed? ==> SaysError(ev.envelope, JString(e.failReason)))
    && (ev.status.Failed? && !e.NetFailed? ==> SaysError(ev.envelope, JString("net failed")))
  }

  /** Every event the listener hands on gets the outcome the analytics reader
      expects: only a completed net can succeed, and exactly when its exit code
      does not say `ok: false`. The synthesized envelopes never turn a
      cancellation into a failure. */
  lemma OutcomeOfReading(msg: RawMessage)
    requires Read(msg).TerminalEvent?
    ensures
      var ev := Read(msg).ev;
      var outcome := DeriveOutcome(ev.status, ev.envelope);
      && (outcome == Stopped <==> ev.status.Cancelled?)
      && (outcome == Failure <==> (ev.status.Failed? || (ev.status.Completed? && ExplicitOkFalse(ev.envelope))))
      && (!ev.status.Completed? ==> ExplicitOkFalse(ev.envelope))
  {
  }

  // ---------------------------------------------------------------------
  // The rollup tables
  // ---------------------------------------------------------------------

  datatype RollupKey = RollupKey(templateId: Uuid, version: int, bucketHour: Time, mode: string, outcome: Outcome)
  datatype RollupCell = RollupCell(runCount: nat, durationSum: int, durationCount: nat)
  datatype UserKey = UserKey(templateId: Uuid, userId: Uuid)
  datatype UserCell = UserCell(runCount: nat, firstRun: Time, lastRun: Time)

  type Rollup = map<RollupKey, RollupCell>
  type UserRuns = map<UserKey, UserCell>

  /** `date_trunc('hour', t)`. */
  function TruncHour(t: Time): Time {
    t - t % MS_PER_HOUR
  }

  function Duration(row: Instance): Option<int> {
    if row.startedAt.Some? && row.completedAt.Some?
    then Some(Max(row.completedAt.value - row.startedAt.value, 0))
    else None
  }

  function KeyOf(row: Instance, outcome: Outcome): RollupKey {
    RollupKey(row.templateId, row.version, TruncHour(row.createdAt), row.mode, outcome)
  }

  function UserKeyOf(row: Instance): UserKey {
    UserKey(row.templateId, row.createdBy)
  }

  /** The value the first upsert writes, given the value it finds. */
  function BumpCell(found: Option<RollupCell>, row: Instance): RollupCell {
    var d := Duration(row);
    var sum := d.GetOr(0);
    var count := Bit(d.Some?);
    match found
    case None => RollupCell(1, sum, count)
    case Some(c) => RollupCell(c.runCount + 1, c.durationSum + sum, c.durationCount + count)
  }

  /** The value the second upsert writes, given the value it finds. */
  function BumpUser(found: Option<UserCell>, row: Instance): UserCell {
    match found
    case None => UserCell(1, row.createdAt, row.createdAt)
    case Some(c) => UserCell(c.runCount + 1, Min(c.firstRun, row.createdAt), Max(c.lastRun, row.createdAt))
  }

  function Lookup<K, V>(m: map<K, V>, k: K): Option<V> {
    if k in m then Some(m[k]) else None
  }

  /** One running row moved to a terminal status: the row as the update left it
      and the outcome it was bucketed under. */
  datatype Flip = Flip(net: NetId, row: Instance, outcome: Outcome)

  function RollupAfter(t: Rollup, f: Flip): Rollup {
    var k := KeyOf(f.row, f.outcome);
    t[k := BumpCell(Lookup(t, k), f.row)]
  }

  function UsersAfter(t: UserRuns, f: Flip): UserRuns {
    var k := UserKeyOf(f.row);
    t[k := BumpUser(Lookup(t, k), f.row)]
  }

  /** The tables a ledger of flips amounts to, starting empty. */
  function RollupOf(ledger: seq<Flip>): Rollup {
    if ledger == [] then map[] else RollupAfter(RollupOf(ledger[..|ledger| - 1]), ledger[|ledger| - 1])
  }

  function UsersOf(ledger: seq<Flip>): UserRuns {
    if ledger == [] then map[] else UsersAfter(UsersOf(ledger[..|ledger| - 1]), ledger[|ledger| - 1])
  }

  // ---------------------------------------------------------------------
  // What the tables mean, cell by cell
  // ---------------------------------------------------------------------

  /** The run is one of the cell's: its own template, version, mode and outcome, and created
      within the UTC hour the cell is named after. */
  predicate Belongs(f: Flip, k: RollupKey) {
    && f.row.templateId == k.templateId && f.row.version == k.version
    && f.row.mode == k.mode && f.outcome == k.outcome
    && k.bucketHour % 3_600_000 == 0 && k.bucketHour <= f.row.createdAt < k.bucketHour + 3_600_000
  }

  /** A run goes into the one cell it belongs to. */
  lemma KeyIff(f: Flip, k: RollupKey)
    ensures KeyOf(f.row, f.outcome) == k <==> Belongs(f, k)
  {
    var t := f.row.createdAt;
    assert TruncHour(t) == t / 3_600_000 * 3_600_000;
  }

  predicate Timed(row: Instance) {
    row.startedAt.Some? && row.completedAt.Some?
  }

  /** Milliseconds from start to completion; a completion before the start counts as none. */
  function Elapsed(row: Instance): int
    requires Timed(row)
  {
    if row.completedAt.value < row.startedAt.value then 0 else row.completedAt.value - row.startedAt.value
  }

  predicate OfUser(f: Flip, k: UserKey) {
    f.row.templateId == k.templateId && f.row.createdBy == k.userId
  }

  ghost function HasKey(k: RollupKey): Flip -> bool {
    (f: Flip) => Belongs(f, k)
  }

  ghost function HasKeyAndDuration(k: RollupKey): Flip -> bool {
    (f: Flip) => Belongs(f, k) && Timed(f.row)
  }

  ghost function HasUser(k: UserKey): Flip -> bool {
    (f: Flip) => OfUser(f, k)
  }

  ghost function HasTemplate(t: Uuid): Flip -> bool {
    (f: Flip) => f.row.templateId == t
  }

  ghost function DurationSum(ledger: seq<Flip>, k: RollupKey): int {
    if ledger == [] then 0
    else
      var f := ledger[|ledger| - 1];
      DurationSum(ledger[..|ledger| - 1], k) + (if Belongs(f, k) && Timed(f.row) then Elapsed(f.row) else 0)
  }

  /** `run_count`, `duration_ms_sum` and `duration_ms_count` of a cell are the
      count, the sum of the elapsed times and the timed count of exactly the
      flips that belong to it; a cell without flips does not exist. */
  lemma {:induction false} CellMeaning(ledger: seq<Flip>, k: RollupKey)
    ensures k in RollupOf(ledger) <==> CountIf(ledger, HasKey(k)) > 0
    ensures k in RollupOf(ledger) ==>
              var c := RollupOf(ledger)[k];
              && c.runCount == CountIf(ledger, HasKey(k))
              && c.durationSum == DurationSum(ledger, k) >= 0
              && c.durationCount == CountIf(ledger, HasKeyAndDuration(k)) <= c.runCount
    ensures k !in RollupOf(ledger) ==> DurationSum(ledger, k) == 0 && CountIf(ledger, HasKeyAndDuration(k)) == 0
  {
    if ledger != [] {
      CellMeaning(ledger[..|ledger| - 1], k);
      KeyIff(ledger[|ledger| - 1], k);
    }
  }

  /** `first` and `last` are the earliest and latest creation times among the
      flips of user `k`, both attained. */
  ghost predicate IsWindow(ledger: seq<Flip>, k: UserKey, first: Time, last: Time) {
    && (forall i :: 0 <= i < |ledger| && OfUser(ledger[i], k) ==> first <= ledger[i].row.createdAt <= last)
    && (exists i :: 0 <= i < |ledger| && OfUser(ledger[i], k) && ledger[i].row.createdAt == first)
    && (exists i :: 0 <= i < |ledger| && OfUser(ledger[i], k) && ledger[i].row.createdAt == last)
  }

  /** A user row counts exactly that user's flips, and its window is the
      earliest and latest creation time among them. */
  lemma {:induction false} UserMeaning(ledger: seq<Flip>, k: UserKey)
    ensures k in UsersOf(ledger) <==> CountIf(ledger, HasUser(k)) > 0
    ensures forall i :: 0 <= i < |ledger| && OfUser(ledger[i], k) ==> k in UsersOf(ledger)
    ensures k in UsersOf(ledger) ==>
              var c := UsersOf(ledger)[k];
              && c.runCount == CountIf(ledger, HasUser(k))
              && IsWindow(ledger, k, c.firstRun, c.lastRun)
  {
    if ledger != [] {
      var n := |ledger| - 1;
      var before := ledger[..n];
      UserMeaning(before, k);
      if k in UsersOf(before) {
        var c := UsersOf(before)[k];
        var i :| 0 <= i < n && OfUser(before[i], k) && before[i].row.createdAt == c.firstRun;
        var j :| 0 <= j < n && OfUser(before[j], k) && before[j].row.createdAt == c.lastRun;
        assert OfUser(ledger[i], k) && OfUser(ledger[j], k);
      }
      assert OfUser(ledger[n], k) ==>
             UsersOf(ledger)[k] == BumpUser(Lookup(UsersOf(before), k), ledger[n].row);
    }
  }

  ghost function CellRuns(t: Uuid): (RollupKey, RollupCell) -> int {
    (k: RollupKey, c: RollupCell) => if k.templateId == t then c.runCount as int else 0
  }

  ghost function UserRunCount(t: Uuid): (UserKey, UserCell) -> int {
    (k: UserKey, c: UserCell) => if k.templateId == t then c.runCount as int else 0
  }

  /** Per template, the runs summed over the rollup cells and the runs summed
      over the users are the same number: the template's flips. */
  lemma {:induction false} TemplateTotals(ledger: seq<Flip>, t: Uuid)
    ensures SumMap(RollupOf(ledger), CellRuns(t)) == CountIf(ledger, HasTemplate(t))
    ensures SumMap(UsersOf(ledger), UserRunCount(t)) == CountIf(ledger, HasTemplate(t))
  {
    if ledger != [] {
      var before, f := ledger[..|ledger| - 1], ledger[|ledger| - 1];
      TemplateTotals(before, t);
      var k := KeyOf(f.row, f.outcome);
      SumUpdate(RollupOf(before), CellRuns(t), k, BumpCell(Lookup(RollupOf(before), k), f.row));
      var u := UserKeyOf(f.row);
      SumUpdate(UsersOf(before), UserRunCount(t), u, BumpUser(Lookup(UsersOf(before), u), f.row));
    }
  }

  ghost function AllRuns(): (RollupKey, RollupCell) -> int {
    (k: RollupKey, c: RollupCell) => c.runCount as int
  }

  /** Over all cells, the run counts add up to the number of flips. */
  lemma {:induction false} GrandTotal(ledger: seq<Flip>)
    ensures SumMap(RollupOf(ledger), AllRuns()) == |ledger|
  {
    if ledger != [] {
      var before, f := ledger[..|ledger| - 1], ledger[|ledger| - 1];
      GrandTotal(before);
      var k := KeyOf(f.row, f.outcome);
      SumUpdate(RollupOf(before), AllRuns(), k, BumpCell(Lookup(RollupOf(before), k), f.row));
    }
  }
}
