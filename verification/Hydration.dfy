/** Streaming replay that may stop anywhere and be resumed
    (`engine/core-engine/src/hydration.rs`). */
module Hydration {
  import opened Wrappers
  import opened EventLog

  /** A message of the net's subject: its stream sequence, whether delivery info can be
      read from it, and its payload when it decodes. */
  datatype Message = Message(seqNo: nat, hasInfo: bool, payload: Option<Persisted>)

  /** What one read of the message stream yields. */
  datatype Read = Delivered(message: Message) | ReadError | EndOfStream | Timeout

  datatype HydrationStats = HydrationStats(applied: nat, lastStreamSeq: nat)

  /** Stream sequences start at 1 and increase; other nets' messages leave gaps. */
  predicate IsStream(s: seq<Message>) {
    && (forall i :: 0 <= i < |s| ==> s[i].seqNo >= 1)
    && (forall i, j :: 0 <= i < j < |s| ==> s[i].seqNo < s[j].seqNo)
  }

  /** The events of the decodable messages, in order. */
  function Decoded(s: seq<Message>): seq<Persisted> {
    if s == [] then [] else Decoded(s[..|s| - 1]) +
                            (if s[|s| - 1].payload.Some? then [s[|s| - 1].payload.value] else [])
  }

  lemma {:induction false} DecodedConcat(a: seq<Message>, b: seq<Message>)
    ensures Decoded(a + b) == Decoded(a) + Decoded(b)
  {
    if b == [] {
      assert a + b == a;
    } else {
      var n := |b| - 1;
      DecodedConcat(a, b[..n]);
      assert (a + b)[..|a + b| - 1] == a + b[..n];
    }
  }

  /** The sequence of the last message whose info could be read, or 0. */
  function LastSeq(s: seq<Message>): nat {
    if s == [] then 0 else if s[|s| - 1].hasInfo then s[|s| - 1].seqNo else LastSeq(s[..|s| - 1])
  }

  /** The messages delivered before the first read that is not a message. */
  function DeliveredBy(results: seq<Read>): seq<Message> {
    if results == [] || !results[0].Delivered? then [] else [results[0].message] + DeliveredBy(results[1..])
  }

  /** The first `i` reads delivered `seen`. */
  ghost predicate Progress(results: seq<Read>, i: nat, seen: seq<Message>)
    requires i <= |results|
  {
    DeliveredBy(results) == seen + DeliveredBy(results[i..])
  }

  lemma ProgressStart(results: seq<Read>)
    ensures Progress(results, 0, [])
  {
    assert results[0..] == results;
  }

  lemma ProgressNext(results: seq<Read>, i: nat, seen: seq<Message>)
    requires i < |results| && results[i].Delivered? && Progress(results, i, seen)
    ensures Progress(results, i + 1, seen + [results[i].message])
  {
    assert results[i..][1..] == results[i + 1..];
  }

  lemma ProgressEnd(results: seq<Read>, i: nat, seen: seq<Message>)
    requires i <= |results| && Progress(results, i, seen) && (i == |results| || !results[i].Delivered?)
    ensures seen == DeliveredBy(results)
  {
    assert DeliveredBy(results[i..]) == [];
  }

  function DecodedOne(msg: Message): seq<Persisted> {
    if msg.payload.Some? then [msg.payload.value] else []
  }

  lemma DecodedAppend(s: seq<Message>, msg: Message)
    ensures Decoded(s + [msg]) == Decoded(s) + DecodedOne(msg)
    ensures LastSeq(s + [msg]) == if msg.hasInfo then msg.seqNo else LastSeq(s)
  {
    assert (s + [msg])[..|s|] == s;
  }

  /** One delivered message: note its sequence, then fold it if it decodes. */
  method FoldMessage(msg: Message, stats: HydrationStats, store: MemoryEventStore) returns (after: HydrationStats)
    requires store.Valid()
    modifies store
    ensures store.Valid() && store.log == old(store.log) + DecodedOne(msg)
    ensures after == HydrationStats(stats.applied + |DecodedOne(msg)|,
                                    if msg.hasInfo then msg.seqNo else stats.lastStreamSeq)
  {
    after := stats;
    if msg.hasInfo {
      after := after.(lastStreamSeq := msg.seqNo);
    }
    if msg.payload.Some? {
      store.LoadExistingEvent(msg.payload.value, msg.payload.value.sequence);
      after := after.(applied := after.applied + 1);
    }
  }

  /** The store and the statistics after the messages `seen`. */
  ghost predicate Folded(start: seq<Persisted>, log: seq<Persisted>, stats: HydrationStats, seen: seq<Message>) {
    log == start + Decoded(seen) && stats == HydrationStats(|Decoded(seen)|, LastSeq(seen))
  }

  lemma FoldedStep(start: seq<Persisted>, log: seq<Persisted>, stats: HydrationStats, seen: seq<Message>, msg: Message)
    requires Folded(start, log, stats, seen)
    ensures Folded(start, log + DecodedOne(msg),
                   HydrationStats(stats.applied + |DecodedOne(msg)|,
                                  if msg.hasInfo then msg.seqNo else stats.lastStreamSeq), seen + [msg])
  {
    DecodedAppend(seen, msg);
  }

  /** The read loop of `load_events_for_net`: fold each message as it arrives. */
  method LoadEvents(results: seq<Read>, store: MemoryEventStore) returns (stats: HydrationStats)
    requires store.Valid()
    modifies store
    ensures store.Valid()
    ensures store.log == old(store.log) + Decoded(DeliveredBy(results))
    ensures stats == HydrationStats(|Decoded(DeliveredBy(results))|, LastSeq(DeliveredBy(results)))
  {
    stats := HydrationStats(0, 0);
    ghost var seen: seq<Message> := [];
    var i := 0;
    ProgressStart(results);
    while i < |results| && results[i].Delivered?
      invariant store.Valid() && 0 <= i <= |results|
      invariant Progress(results, i, seen)
      invariant Folded(old(store.log), store.log, stats, seen)
    {
      var msg := results[i].message;
      ProgressNext(results, i, seen);
      FoldedStep(old(store.log), store.log, stats, seen, msg);
      stats := FoldMessage(msg, stats, store);
      seen := seen + [msg];
      i := i + 1;
    }
    ProgressEnd(results, i, seen);
  }

  // ---------------------------------------------------------------------
  // Resuming
  // ---------------------------------------------------------------------

  /** The messages a consumer that starts at sequence `n` is given. */
  function From(s: seq<Message>, n: nat): seq<Message> {
    if s == [] then [] else (if s[0].seqNo >= n then [s[0]] else []) + From(s[1..], n)
  }

  lemma {:induction false} FromAll(s: seq<Message>, n: nat)
    requires forall i :: 0 <= i < |s| ==> s[i].seqNo >= n
    ensures From(s, n) == s
  {
    if s != [] {
      FromAll(s[1..], n);
    }
  }

  /** A start sequence cuts the stream in two. */
  lemma {:induction false} FromCut(s: seq<Message>, n: nat, r: nat)
    requires r <= |s|
    requires forall i :: 0 <= i < r ==> s[i].seqNo < n
    requires forall i :: r <= i < |s| ==> s[i].seqNo >= n
    ensures From(s, n) == s[r..]
  {
    if r == 0 {
      FromAll(s, n);
    } else {
      FromCut(s[1..], n, r - 1);
      assert s[1..][r - 1..] == s[r..];
    }
  }

  /** The number of messages up to the last one with readable info. */
  function Covered(s: seq<Message>): (r: nat)
    ensures r <= |s|
  {
    if s == [] then 0 else if s[|s| - 1].hasInfo then |s| else Covered(s[..|s| - 1])
  }

  lemma {:induction false} CoveredIs(s: seq<Message>)
    requires IsStream(s)
    ensures forall i :: 0 <= i < Covered(s) ==> s[i].seqNo <= LastSeq(s)
    ensures forall i :: Covered(s) <= i < |s| ==> !s[i].hasInfo && s[i].seqNo > LastSeq(s)
    ensures Covered(s) == 0 ==> LastSeq(s) == 0
    ensures Covered(s) > 0 ==> s[Covered(s) - 1].hasInfo && LastSeq(s) == s[Covered(s) - 1].seqNo
  {
    if s != [] && !s[|s| - 1].hasInfo {
      var front := s[..|s| - 1];
      CoveredIs(front);
      if Covered(front) > 0 {
        assert s[Covered(front) - 1].seqNo < s[|s| - 1].seqNo;
      }
    }
  }

  /** Stopping after `k` messages, the next consumer starts right after the covered ones. */
  lemma {:induction false} ResumePoint(s: seq<Message>, k: nat)
    requires IsStream(s) && k <= |s|
    ensures From(s, LastSeq(s[..k]) + 1) == s[Covered(s[..k])..]
  {
    var r, last := Covered(s[..k]), LastSeq(s[..k]);
    forall i: nat | i < |s| ensures i < r <==> s[i].seqNo <= last {
      CoveredBySeq(s, k, i);
    }
    FromCutAt(s, last, r);
  }

  lemma FromCutAt(s: seq<Message>, last: nat, r: nat)
    requires r <= |s| && forall i: nat :: i < |s| ==> (i < r <==> s[i].seqNo <= last)
    ensures From(s, last + 1) == s[r..]
  {
    FromCut(s, last + 1, r);
  }

  lemma CoveredBySeq(s: seq<Message>, k: nat, i: nat)
    requires IsStream(s) && k <= |s| && i < |s|
    ensures i < Covered(s[..k]) <==> s[i].seqNo <= LastSeq(s[..k])
  {
    var front := s[..k];
    var r := Covered(front);
    CoveredIs(front);
    if i < k {
      assert front[i] == s[i];
    } else if r > 0 {
      assert front[r - 1] == s[r - 1];
    }
  }

  /** Every decodable message delivered is followed, or is, one whose info was read. */
  predicate NothingUncovered(s: seq<Message>) {
    forall i :: 0 <= i < |s| && s[i].payload.Some? ==> exists j :: i <= j < |s| && s[j].hasInfo
  }

  lemma UncoveredIff(s: seq<Message>)
    requires IsStream(s)
    ensures NothingUncovered(s) <==> Decoded(s[Covered(s)..]) == []
  {
    var r := Covered(s);
    CoveredIs(s);
    if NothingUncovered(s) {
      DecodedNone(s[r..]);
    } else {
      var i :| 0 <= i < |s| && s[i].payload.Some? && forall j :: i <= j < |s| ==> !s[j].hasInfo;
      assert i >= r;
      DecodedSome(s[r..], i - r);
    }
  }

  lemma {:induction false} DecodedNone(s: seq<Message>)
    requires forall i :: 0 <= i < |s| ==> s[i].payload.None?
    ensures Decoded(s) == []
  {
    if s != [] {
      DecodedNone(s[..|s| - 1]);
    }
  }

  lemma {:induction false} DecodedSome(s: seq<Message>, i: nat)
    requires i < |s| && s[i].payload.Some?
    ensures Decoded(s) != []
  {
    if i < |s| - 1 {
      DecodedSome(s[..|s| - 1], i);
    }
  }

  /** What is in the store after stopping at `k` and resuming through message `n`. */
  function Replayed(s: seq<Message>, k: nat, n: nat): seq<Persisted>
    requires k <= |s|
  {
    Decoded(s[..k]) + Decoded(Take(From(s, LastSeq(s[..k]) + 1), n))
  }

  /** The first `n` messages, or all when there are fewer. */
  function Take(s: seq<Message>, n: nat): seq<Message> {
    if n <= |s| then s[..n] else s
  }

  lemma TakeSuffix(s: seq<Message>, r: nat, n: nat)
    requires r <= |s|
    ensures r + n <= |s| ==> Take(s[r..], n) == s[r..r + n]
    ensures n >= |s| ==> Take(s[r..], n) == s[r..]
  {
  }

  /** Wherever the first pass stopped, after the second every event has been
      applied once, in order, exactly when no decodable message was
      delivered after the last one whose info could be read; otherwise those
      events are applied a second time. */
  lemma {:induction false} ResumeExactlyOnceIff(s: seq<Message>, k: nat)
    requires IsStream(s) && k <= |s|
    ensures Replayed(s, k, |s|) == Decoded(s) <==> NothingUncovered(s[..k])
    ensures Replayed(s, k, |s|) == Decoded(s[..k]) + Decoded(s[Covered(s[..k])..k]) + Decoded(s[k..])
  {
    ReplayedWhole(s, k);
    OverlapIff(s, k);
    Twice(Decoded(s[..k]), Decoded(s[Covered(s[..k])..k]), Decoded(s[k..]));
  }

  lemma {:induction false} ReplayedWhole(s: seq<Message>, k: nat)
    requires IsStream(s) && k <= |s|
    ensures Replayed(s, k, |s|) == Decoded(s[..k]) + (Decoded(s[Covered(s[..k])..k]) + Decoded(s[k..]))
    ensures Decoded(s) == Decoded(s[..k]) + Decoded(s[k..])
  {
    ReplayedAll(s, k);
    SuffixCut(s, Covered(s[..k]), k);
    SuffixCut(s, 0, k);
    assert s[0..] == s && s[0..k] == s[..k];
  }

  lemma {:induction false} ReplayedAll(s: seq<Message>, k: nat)
    requires IsStream(s) && k <= |s|
    ensures Replayed(s, k, |s|) == Decoded(s[..k]) + Decoded(s[Covered(s[..k])..])
  {
    ResumePoint(s, k);
    TakeSuffix(s, Covered(s[..k]), |s|);
  }

  lemma SuffixCut(s: seq<Message>, r: nat, k: nat)
    requires r <= k <= |s|
    ensures Decoded(s[r..]) == Decoded(s[r..k]) + Decoded(s[k..])
  {
    DecodedConcat(s[r..k], s[k..]);
    assert s[r..k] + s[k..] == s[r..];
  }

  lemma {:induction false} OverlapIff(s: seq<Message>, k: nat)
    requires IsStream(s) && k <= |s|
    ensures NothingUncovered(s[..k]) <==> Decoded(s[Covered(s[..k])..k]) == []
  {
    UncoveredIff(s[..k]);
    assert s[..k][Covered(s[..k])..] == s[Covered(s[..k])..k];
  }

  lemma {:induction false} ReplayedFrom(s: seq<Message>, k: nat, n: nat, rest: seq<Message>)
    requires k <= |s| && From(s, LastSeq(s[..k]) + 1) == rest
    ensures Replayed(s, k, n) == Decoded(s[..k]) + Decoded(Take(rest, n))
  {
  }

  lemma Twice(a: seq<Persisted>, b: seq<Persisted>, c: seq<Persisted>)
    ensures a + (b + c) == a + b + c
    ensures a + (b + c) == a + c <==> b == []
  {
    if b != [] {
      assert |a + (b + c)| > |a + c|;
    }
  }

  lemma DecodedCut(s: seq<Message>, a: nat, b: nat, c: nat)
    requires a <= b <= c <= |s|
    ensures Decoded(s[a..c]) == Decoded(s[a..b]) + Decoded(s[b..c])
  {
    DecodedConcat(s[a..b], s[b..c]);
    assert s[a..b] + s[b..c] == s[a..c];
  }

  lemma {:induction false} ReplayedPart(s: seq<Message>, k: nat, n: nat, r: nat)
    requires k <= |s| && r + n <= |s| && From(s, LastSeq(s[..k]) + 1) == s[r..]
    ensures Replayed(s, k, n) == Decoded(s[..k]) + Decoded(s[r..r + n])
  {
    ReplayedFrom(s, k, n, s[r..]);
    TakeSuffix(s, r, n);
  }

  lemma {:induction false} PrefixReplayed(s: seq<Message>, k: nat, n: nat, r: nat)
    requires r <= k <= r + n <= |s| && From(s, LastSeq(s[..k]) + 1) == s[r..] && Decoded(s[r..k]) == []
    ensures Replayed(s, k, n) == Decoded(s[..r + n])
  {
    ReplayedPart(s, k, n, r);
    DecodedCut(s, r, k, r + n);
    PrefixCut(s, k, r + n);
    Glue(Replayed(s, k, n), Decoded(s[..k]), Decoded(s[r..k]), Decoded(s[k..r + n]), Decoded(s[r..r + n]));
  }

  lemma PrefixCut(s: seq<Message>, b: nat, c: nat)
    requires b <= c <= |s|
    ensures Decoded(s[..c]) == Decoded(s[..b]) + Decoded(s[b..c])
  {
    DecodedConcat(s[..b], s[b..c]);
    assert s[..b] + s[b..c] == s[..c];
  }

  /** However far the second pass has come, the store holds a prefix of the log. */
  lemma {:induction false} ResumeInProgress(s: seq<Message>, k: nat, n: nat)
    requires IsStream(s) && k <= |s| && NothingUncovered(s[..k])
    requires k <= Covered(s[..k]) + n <= |s|
    ensures Replayed(s, k, n) == Decoded(s[..Covered(s[..k]) + n])
  {
    var r := Covered(s[..k]);
    assert From(s, LastSeq(s[..k]) + 1) == s[r..] by {
      ResumePoint(s, k);
    }
    assert Decoded(s[r..k]) == [] by {
      OverlapIff(s, k);
    }
    PrefixReplayed(s, k, n, r);
  }

  lemma Glue(x: seq<Persisted>, a: seq<Persisted>, b: seq<Persisted>, c: seq<Persisted>, bc: seq<Persisted>)
    requires x == a + bc && bc == b + c && b == []
    ensures x == a + c
  {
  }

  // ---------------------------------------------------------------------
  // Hydrate, then go on
  // ---------------------------------------------------------------------

  /** Reads that deliver these messages and then end with `stop`. */
  function Reads(ms: seq<Message>, stop: Read): seq<Read> {
    if ms == [] then [stop] else [Delivered(ms[0])] + Reads(ms[1..], stop)
  }

  lemma {:induction false} ReadsDeliver(ms: seq<Message>, stop: Read)
    requires !stop.Delivered?
    ensures DeliveredBy(Reads(ms, stop)) == ms
  {
    if ms != [] {
      ReadsDeliver(ms[1..], stop);
      assert Reads(ms, stop)[1..] == Reads(ms[1..], stop);
    }
  }

  /** A fresh store is hydrated from the stream until the reads stop after `k` messages, for
      whatever reason, and then follows the stream from the reported sequence on. */
  method HydrateThenFollow(s: seq<Message>, k: nat, stop: Read, store: MemoryEventStore)
    returns (stats: HydrationStats)
    requires k <= |s| && !stop.Delivered? && store.Valid() && store.log == []
    modifies store
    ensures store.Valid() && store.log == Replayed(s, k, |s|)
    ensures stats == HydrationStats(|Decoded(s[..k])|, LastSeq(s[..k]))
  {
    var prefix := s[..k];
    stats := Consume(prefix, stop, store);
    var start := stats.lastStreamSeq + 1;
    var rest := From(s, start);
    var live := Consume(rest, EndOfStream, store);
    FollowedIs(s, k, prefix, start, rest, store.log);
  }

  /** It then holds the whole log, each event once, and its marking is the log's, if and only
      if nothing decodable was left uncovered. */
  method HydrateAndResume(s: seq<Message>, k: nat, stop: Read, store: MemoryEventStore) returns (m: Marking)
    requires IsStream(s) && k <= |s| && !stop.Delivered? && store.Valid() && store.log == []
    modifies store
    ensures store.Valid() && store.log == Replayed(s, k, |s|) && m == Project(store.log)
    ensures store.log == Decoded(s) <==> NothingUncovered(s[..k])
    ensures NothingUncovered(s[..k]) ==> m == Project(Decoded(s))
  {
    ResumeExactlyOnceIff(s, k);
    var stats := HydrateThenFollow(s, k, stop, store);
    m := store.CurrentMarking();
  }

  /** Read these messages into the store, then stop. */
  method Consume(ms: seq<Message>, stop: Read, store: MemoryEventStore) returns (stats: HydrationStats)
    requires store.Valid() && !stop.Delivered?
    modifies store
    ensures store.Valid() && store.log == old(store.log) + Decoded(ms)
    ensures stats == HydrationStats(|Decoded(ms)|, LastSeq(ms))
  {
    ReadsDeliver(ms, stop);
    stats := LoadEvents(Reads(ms, stop), store);
  }

  lemma {:induction false} FollowedIs(s: seq<Message>, k: nat, prefix: seq<Message>, start: nat, rest: seq<Message>,
                                      log: seq<Persisted>)
    requires k <= |s| && prefix == s[..k] && start == LastSeq(prefix) + 1 && rest == From(s, start)
    requires log == [] + Decoded(prefix) + Decoded(rest)
    ensures log == Replayed(s, k, |s|)
  {
    ReplayedFrom(s, k, |s|, rest);
    FromIsShorter(s, start);
    assert [] + Decoded(prefix) == Decoded(prefix);
  }

  lemma {:induction false} FromIsShorter(s: seq<Message>, n: nat)
    ensures |From(s, n)| <= |s| && Take(From(s, n), |s|) == From(s, n)
  {
    if s != [] {
      FromIsShorter(s[1..], n);
    }
  }

  /** With readable info on every message, resuming is exact wherever it stopped. */
  lemma {:induction false} ResumeIsExact(s: seq<Message>, k: nat)
    requires IsStream(s) && k <= |s| && forall i :: 0 <= i < |s| ==> s[i].hasInfo
    ensures Replayed(s, k, |s|) == Decoded(s) && Project(Replayed(s, k, |s|)) == Project(Decoded(s))
  {
    forall i | 0 <= i < k ensures s[..k][i].hasInfo {
      assert s[..k][i] == s[i];
    }
    assert NothingUncovered(s[..k]);
    ResumeExactlyOnceIff(s, k);
  }

  /** One unreadable info at the stopping point applies an event twice. */
  lemma UnreadableInfoDuplicates(e: Persisted)
    ensures var s := [Message(1, false, Some(e))]; IsStream(s) && Replayed(s, 1, 1) == [e, e] && Decoded(s) == [e]
  {
    var s := [Message(1, false, Some(e))];
    assert s[..1] == s && s[..0] == [];
    assert Decoded(s) == Decoded(s[..0]) + [e];
    ResumePoint(s, 1);
    assert Covered(s) == Covered(s[..0]) == 0;
    assert s[0..] == s && s[..1] == s;
  }

  /** A ring log streamed with readable info, stopped anywhere and resumed, leaves
      one token at place `(n - 1) mod 4`. */
  lemma {:induction false} RingLogSurvivesInterruption(digest: Digest, ids: seq<TokenId>, log: seq<Persisted>,
                                                       s: seq<Message>, k: nat)
    requires IsRingLog(digest, ids, log) && log != [] && IsStream(s) && k <= |s|
    requires Decoded(s) == log && forall i :: 0 <= i < |s| ==> s[i].hasInfo
    ensures OnlyToken(Project(Replayed(s, k, |s|)), RingPlace((|log| - 1) % RING_SIZE), UnitToken(ids[|log| - 1]))
  {
    ResumeIsExact(s, k);
    RingReplay(digest, ids, log, |log|);
    assert log[..|log|] == log;
  }
}
