/** The event log: marking projection (`domain/src/projection.rs`), the bounded
    store that folds it (`infrastructure/src/memory_event_store.rs`), and the
    synthetic ring log (`engine/bench/src/synth_log.rs`). */
module EventLog {
  import opened Wrappers
  import opened Text

  type PlaceId = string
  type TokenId = string

  datatype Token = Token(id: TokenId, color: string)

  datatype Consumed = Consumed(place: PlaceId, id: TokenId)
  datatype Produced = Produced(place: PlaceId, token: Token)

  /** `Moved` is a fired, skipped or completed transition; `Failed` a failed effect;
      `Removed` a consumed or removed token; `Audit` everything a marking ignores. */
  datatype Event =
    | TokenCreated(token: Token, place: PlaceId)
    | Moved(transition: string, consumed: seq<Consumed>, produced: seq<Produced>)
    | Failed(consumed: seq<Consumed>, produced: seq<Produced>, tokensConsumed: bool)
    | Removed(place: PlaceId, id: TokenId)
    | Updated(place: PlaceId, id: TokenId, color: string)
    | Audit

  type Hash = string

  datatype Persisted = Persisted(sequence: nat, time: int, event: Event, previous: Option<Hash>, hash: Hash)

  type Digest = (nat, int, Event, Option<Hash>) -> Hash

  /** `PersistedEvent::new`. */
  function Persist(digest: Digest, sequence: nat, time: int, event: Event, previous: Option<Hash>): Persisted {
    Persisted(sequence, time, event, previous, digest(sequence, time, event, previous))
  }

  // ---------------------------------------------------------------------
  // Projection
  // ---------------------------------------------------------------------

  type Marking = map<PlaceId, seq<Token>>

  function At(m: Marking, p: PlaceId): seq<Token> {
    if p in m then m[p] else []
  }

  function AddToken(m: Marking, p: PlaceId, t: Token): Marking {
    m[p := At(m, p) + [t]]
  }

  /** The first token with the id goes; nothing happens when there is none. */
  function DropFirst(ts: seq<Token>, id: TokenId): seq<Token> {
    if ts == [] then [] else if ts[0].id == id then ts[1..] else [ts[0]] + DropFirst(ts[1..], id)
  }

  function RemoveToken(m: Marking, p: PlaceId, id: TokenId): Marking {
    if p in m then m[p := DropFirst(m[p], id)] else m
  }

  function RecolorFirst(ts: seq<Token>, id: TokenId, color: string): seq<Token> {
    if ts == [] then [] else if ts[0].id == id then [Token(id, color)] + ts[1..]
        else [ts[0]] + RecolorFirst(ts[1..], id, color)
  }

  function UpdateToken(m: Marking, p: PlaceId, id: TokenId, color: string): Marking {
    if p in m then m[p := RecolorFirst(m[p], id, color)] else m
  }

  function RemoveAll(m: Marking, cs: seq<Consumed>): Marking
    decreases |cs|
  {
    if cs == [] then m else RemoveAll(RemoveToken(m, cs[0].place, cs[0].id), cs[1..])
  }

  function AddAll(m: Marking, ps: seq<Produced>): Marking
    decreases |ps|
  {
    if ps == [] then m else AddAll(AddToken(m, ps[0].place, ps[0].token), ps[1..])
  }

  function Apply(m: Marking, e: Event): Marking {
    match e
    case TokenCreated(token, place) => AddToken(m, place, token)
    case Moved(_, consumed, produced) => AddAll(RemoveAll(m, consumed), produced)
    case Failed(consumed, produced, tokensConsumed) => if tokensConsumed
        then AddAll(RemoveAll(m, consumed), produced) else m
    case Removed(place, id) => RemoveToken(m, place, id)
    case Updated(place, id, color) => UpdateToken(m, place, id, color)
    case Audit => m
  }

  /** `project_onto`: replay `events` on top of `base`. */
  function ProjectOnto(base: Marking, events: seq<Persisted>): Marking {
    if events == [] then base else Apply(ProjectOnto(base, events[..|events| - 1]), events[|events| - 1].event)
  }

  function Project(events: seq<Persisted>): Marking {
    ProjectOnto(map[], events)
  }

  /** Replaying in two stages is replaying at once. */
  lemma {:induction false} ProjectSplit(base: Marking, a: seq<Persisted>, b: seq<Persisted>)
    ensures ProjectOnto(base, a + b) == ProjectOnto(ProjectOnto(base, a), b)
  {
    if b == [] {
      assert a + b == a;
    } else {
      var n := |b| - 1;
      ProjectSplit(base, a, b[..n]);
      assert (a + b)[..|a + b| - 1] == a + b[..n];
    }
  }

  method ProjectMarking(base: Marking, events: seq<Persisted>) returns (m: Marking)
    ensures m == ProjectOnto(base, events)
  {
    m := base;
    for i := 0 to |events|
      invariant m == ProjectOnto(base, events[..i])
    {
      m := Apply(m, events[i].event);
      assert events[..i + 1][..i] == events[..i];
    }
    assert events[..|events|] == events;
  }

  // ---------------------------------------------------------------------
  // The bounded store
  // ---------------------------------------------------------------------

  ghost function Sizes(sizeOf: Persisted -> nat, events: seq<Persisted>): nat {
    if events == [] then 0 else sizeOf(events[0]) + Sizes(sizeOf, events[1..])
  }

  lemma {:induction false} SizesAppend(sizeOf: Persisted -> nat, events: seq<Persisted>, e: Persisted)
    ensures Sizes(sizeOf, events + [e]) == Sizes(sizeOf, events) + sizeOf(e)
  {
    if events != [] {
      SizesAppend(sizeOf, events[1..], e);
      assert (events + [e])[1..] == events[1..] + [e];
    } else {
      assert ([e])[1..] == [];
    }
  }

  function HashBefore(log: seq<Persisted>, n: nat): Option<Hash>
    requires n <= |log|
  {
    if n == 0 then None else Some(log[n - 1].hash)
  }

  class MemoryEventStore {
    const cap: nat
    const sizeOf: Persisted -> nat
    var baseCount: nat
    var baseMarking: Marking
    var baseLastHash: Option<Hash>
    var tail: seq<Persisted>
    var tailBytes: nat
    var nextSequence: nat
    var lastAppliedStreamSeq: nat
    /** Everything ever loaded; the real fields keep only a marking and a tail of it. */
    ghost var log: seq<Persisted>

    ghost predicate Consistent()
      reads this
    {
      && |log| == baseCount + |tail| && tail == log[baseCount..]
      && baseMarking == Project(log[..baseCount])
      && baseLastHash == HashBefore(log, baseCount)
      && tailBytes == Sizes(sizeOf, tail)
    }

    /** The tail is within its byte budget, or down to one event. */
    ghost predicate Valid()
      reads this
    {
      Consistent() && (tailBytes <= cap || |tail| <= 1) && (log != [] ==> tail != [])
    }

    constructor (cap: nat, sizeOf: Persisted -> nat)
      ensures Valid() && log == [] && lastAppliedStreamSeq == 0
      ensures this.cap == cap && this.sizeOf == sizeOf
    {
      this.cap, this.sizeOf := cap, sizeOf;
      baseCount, baseMarking, baseLastHash := 0, map[], None;
      tail, tailBytes, nextSequence, lastAppliedStreamSeq := [], 0, 0, 0;
      log := [];
    }

    /** Fold the oldest tail event into the base. */
    method Evict()
      requires Consistent() && |tail| > 1
      modifies this
      ensures Consistent() && log == old(log) && tail == old(tail)[1..]
      ensures nextSequence == old(nextSequence) && lastAppliedStreamSeq == old(lastAppliedStreamSeq)
    {
      var oldest := tail[0];
      assert log[baseCount] == oldest && log[..baseCount + 1][..baseCount] == log[..baseCount];
      tail := tail[1..];
      tailBytes := Max(0, tailBytes - sizeOf(oldest));
      baseMarking := Apply(baseMarking, oldest.event);
      baseCount := baseCount + 1;
      baseLastHash := Some(oldest.hash);
    }

    /** `push_tail`: append, then evict down to the cap. */
    method PushTail(e: Persisted)
      requires Valid()
      modifies this
      ensures Valid() && log == old(log) + [e]
      ensures nextSequence == old(nextSequence) && lastAppliedStreamSeq == old(lastAppliedStreamSeq)
    {
      SizesAppend(sizeOf, tail, e);
      tailBytes := tailBytes + sizeOf(e);
      tail := tail + [e];
      assert (log + [e])[..baseCount] == log[..baseCount];
      log := log + [e];
      while tailBytes > cap && |tail| > 1
        invariant Consistent() && log == old(log) + [e] && tail != []
        invariant nextSequence == old(nextSequence) && lastAppliedStreamSeq == old(lastAppliedStreamSeq)
        decreases |tail|
      {
        Evict();
      }
    }

    /** `load_existing_event_with_stream_seq`. */
    method LoadExistingEvent(e: Persisted, streamSeq: nat)
      requires Valid()
      modifies this
      ensures Valid() && log == old(log) + [e]
      ensures nextSequence == Max(old(nextSequence), e.sequence + 1)
      ensures lastAppliedStreamSeq == Max(old(lastAppliedStreamSeq), streamSeq)
    {
      nextSequence := Max(nextSequence, e.sequence + 1);
      lastAppliedStreamSeq := Max(lastAppliedStreamSeq, streamSeq);
      PushTail(e);
    }

    /** What the bounded store still knows is the marking of the whole log. */
    method CurrentMarking() returns (m: Marking)
      requires Valid()
      ensures m == Project(log)
    {
      m := ProjectMarking(baseMarking, tail);
      ProjectSplit(map[], log[..baseCount], tail);
      assert log[..baseCount] + tail == log;
    }

    /** The chain tip is the hash of the last event loaded. */
    method ChainTip() returns (h: Option<Hash>)
      requires Valid()
      ensures h == HashBefore(log, |log|)
    {
      h := if tail != [] then Some(tail[|tail| - 1].hash) else baseLastHash;
    }
  }

  // ---------------------------------------------------------------------
  // The ring log
  // ---------------------------------------------------------------------

  const RING_SIZE: nat := 4

  function RingPlace(i: nat): PlaceId {
    "p" + Decimal(i % RING_SIZE)
  }

  function UnitToken(id: TokenId): Token {
    Token(id, "")
  }

  /** The i-th event: the token is created, then moved one place at a time. */
  function RingEvent(ids: seq<TokenId>, i: nat): Event
    requires i < |ids|
  {
    if i == 0 then TokenCreated(UnitToken(ids[0]), RingPlace(0))
    else Moved("t" + Decimal(i), [Consumed(RingPlace(i - 1), ids[i - 1])], [Produced(RingPlace(i), UnitToken(ids[i]))])
  }

  /** A hash-chained log of ring events. */
  predicate IsRingLog(digest: Digest, ids: seq<TokenId>, log: seq<Persisted>) {
    |log| <= |ids| && forall i: nat :: i < |log| ==> RingAt(digest, ids, log, i)
  }

  predicate RingAt(digest: Digest, ids: seq<TokenId>, log: seq<Persisted>, i: nat)
    requires i < |log| <= |ids|
  {
    && log[i].sequence == i && log[i].event == RingEvent(ids, i)
    && log[i].previous == HashBefore(log, i)
    && log[i].hash == digest(i, log[i].time, log[i].event, log[i].previous)
  }

  lemma {:induction false} RingAppend(digest: Digest, ids: seq<TokenId>, log: seq<Persisted>, time: int)
    requires IsRingLog(digest, ids, log) && 0 < |log| < |ids|
    ensures IsRingLog(digest, ids,
                      log + [Persist(digest, |log|, time, RingEvent(ids, |log|), Some(log[|log| - 1].hash))])
  {
    var n := |log|;
    var next := log + [Persist(digest, n, time, RingEvent(ids, n), Some(log[n - 1].hash))];
    forall i: nat | i < |next| ensures RingAt(digest, ids, next, i) {
      assert HashBefore(next, i) == HashBefore(log, i);
      if i < n {
        assert RingAt(digest, ids, log, i) && next[i] == log[i];
      }
    }
  }

  /** `chain_log`. The token ids and the clock are the caller's. */
  method ChainLog(digest: Digest, ids: seq<TokenId>, clock: seq<int>) returns (events: seq<Persisted>)
    requires |ids| == |clock|
    ensures |events| == |ids| && IsRingLog(digest, ids, events)
    ensures forall i :: 0 <= i < |events| ==> events[i].time == clock[i]
  {
    events := [];
    if |ids| == 0 {
      return;
    }
    var place, token := RingPlace(0), UnitToken(ids[0]);
    events := [Persist(digest, 0, clock[0], TokenCreated(token, place), None)];
    for i := 1 to |ids|
      invariant |events| == i && IsRingLog(digest, ids, events)
      invariant forall k :: 0 <= k < i ==> events[k].time == clock[k]
      invariant place == RingPlace(i - 1) && token == UnitToken(ids[i - 1])
    {
      var nextPlace, nextToken := RingPlace(i), UnitToken(ids[i]);
      var fired := Moved("t" + Decimal(i), [Consumed(place, token.id)], [Produced(nextPlace, nextToken)]);
      assert fired == RingEvent(ids, i);
      RingAppend(digest, ids, events, clock[i]);
      events := events + [Persist(digest, i, clock[i], fired, Some(events[i - 1].hash))];
      place, token := nextPlace, nextToken;
    }
  }

  /** The whole marking is one token at one place. */
  predicate OnlyToken(m: Marking, p: PlaceId, t: Token) {
    p in m && m[p] == [t] && forall q :: q in m && q != p ==> m[q] == []
  }

  /** Every token the event consumes is there. */
  predicate ConsumesPresent(m: Marking, e: Event) {
    e.Moved? ==> forall k :: 0 <= k < |e.consumed| ==>
                               exists i :: 0 <= i < |At(m, e.consumed[k].place)| &&
                                      At(m, e.consumed[k].place)[i].id == e.consumed[k].id
  }

  lemma {:induction false} ProjectNext(log: seq<Persisted>, n: nat)
    requires n < |log|
    ensures Project(log[..n + 1]) == Apply(Project(log[..n]), log[n].event)
  {
    assert log[..n + 1][..n] == log[..n];
  }

  lemma {:induction false} RingStep(m: Marking, ids: seq<TokenId>, i: nat)
    requires 0 < i < |ids| && OnlyToken(m, RingPlace(i - 1), UnitToken(ids[i - 1]))
    ensures ConsumesPresent(m, RingEvent(ids, i))
    ensures OnlyToken(Apply(m, RingEvent(ids, i)), RingPlace(i), UnitToken(ids[i]))
  {
    var e := RingEvent(ids, i);
    assert At(m, RingPlace(i - 1))[0].id == ids[i - 1];
    var removed := RemoveToken(m, RingPlace(i - 1), ids[i - 1]);
    assert removed[RingPlace(i - 1)] == [];
    assert RemoveAll(m, e.consumed) == removed;
    assert AddAll(removed, e.produced) == AddToken(removed, RingPlace(i), UnitToken(ids[i]));
  }

  /** After any non-empty prefix of the ring log exactly one token exists, at place
      `(n - 1) mod 4`. */
  lemma {:induction false} RingReplay(digest: Digest, ids: seq<TokenId>, log: seq<Persisted>, n: nat)
    requires IsRingLog(digest, ids, log) && 0 < n <= |log|
    ensures OnlyToken(Project(log[..n]), RingPlace((n - 1) % RING_SIZE), UnitToken(ids[n - 1]))
  {
    ProjectNext(log, n - 1);
    assert RingAt(digest, ids, log, n - 1);
    if n == 1 {
      assert Project(log[..0]) == map[];
    } else {
      RingReplay(digest, ids, log, n - 1);
      RingStep(Project(log[..n - 1]), ids, n - 1);
    }
  }

  /** No event of the ring log ever consumes a token that is not there. */
  lemma {:induction false} RingConsumesPresent(digest: Digest, ids: seq<TokenId>, log: seq<Persisted>, n: nat)
    requires IsRingLog(digest, ids, log) && n < |log|
    ensures ConsumesPresent(Project(log[..n]), log[n].event)
  {
    assert RingAt(digest, ids, log, n);
    if n > 0 {
      RingReplay(digest, ids, log, n);
      RingStep(Project(log[..n]), ids, n);
    }
  }
}
