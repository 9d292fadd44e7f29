/** What each event of the log does to the tokens at a place, and what a whole log amounts to. */
module TokenLedger {
  import opened Wrappers
  import opened Folds
  import opened EventLog

  // ---------------------------------------------------------------------
  // One token
  // ---------------------------------------------------------------------

  /** Position `i` is the first with this id. */
  predicate IsFirst(ts: seq<Token>, id: TokenId, i: nat) {
    i < |ts| && ts[i].id == id && forall k :: 0 <= k < i ==> ts[k].id != id
  }

  predicate Has(ts: seq<Token>, id: TokenId) {
    exists i :: 0 <= i < |ts| && ts[i].id == id
  }

  lemma {:induction false} FirstExists(ts: seq<Token>, id: TokenId) returns (i: nat)
    requires Has(ts, id)
    ensures IsFirst(ts, id, i)
  {
    if ts[0].id == id {
      i := 0;
    } else {
      var k :| 0 <= k < |ts| && ts[k].id == id;
      assert ts[1..][k - 1].id == id;
      var n := FirstExists(ts[1..], id);
      i := n + 1;
      assert forall k :: 0 < k < i ==> ts[k] == ts[1..][k - 1];
    }
  }

  lemma {:induction false} DropFirstIs(ts: seq<Token>, id: TokenId, i: nat)
    requires IsFirst(ts, id, i)
    ensures DropFirst(ts, id) == ts[..i] + ts[i + 1..]
  {
    if i > 0 {
      assert IsFirst(ts[1..], id, i - 1) by {
        assert forall k :: 0 <= k < i - 1 ==> ts[1..][k] == ts[k + 1];
      }
      DropFirstIs(ts[1..], id, i - 1);
      assert [ts[0]] + ts[1..][..i - 1] == ts[..i] && ts[1..][i..] == ts[i + 1..];
    }
  }

  lemma {:induction false} DropFirstNone(ts: seq<Token>, id: TokenId)
    requires !Has(ts, id)
    ensures DropFirst(ts, id) == ts
  {
    if ts != [] {
      assert !Has(ts[1..], id) by {
        assert forall k :: 0 <= k < |ts| - 1 ==> ts[1..][k] == ts[k + 1];
      }
      DropFirstNone(ts[1..], id);
      assert ts[0].id != id && [ts[0]] + ts[1..] == ts;
    }
  }

  lemma {:induction false} RecolorFirstIs(ts: seq<Token>, id: TokenId, color: string, i: nat)
    requires IsFirst(ts, id, i)
    ensures RecolorFirst(ts, id, color) == ts[i := Token(id, color)]
  {
    if i > 0 {
      assert IsFirst(ts[1..], id, i - 1) by {
        assert forall k :: 0 <= k < i - 1 ==> ts[1..][k] == ts[k + 1];
      }
      RecolorFirstIs(ts[1..], id, color, i - 1);
      assert [ts[0]] + ts[1..][i - 1 := Token(id, color)] == ts[i := Token(id, color)];
    }
  }

  lemma {:induction false} RecolorFirstNone(ts: seq<Token>, id: TokenId, color: string)
    requires !Has(ts, id)
    ensures RecolorFirst(ts, id, color) == ts
  {
    if ts != [] {
      assert !Has(ts[1..], id) by {
        assert forall k :: 0 <= k < |ts| - 1 ==> ts[1..][k] == ts[k + 1];
      }
      RecolorFirstNone(ts[1..], id, color);
      assert ts[0].id != id && [ts[0]] + ts[1..] == ts;
    }
  }

  // ---------------------------------------------------------------------
  // One event, place by place
  // ---------------------------------------------------------------------

  /** The other places are as before. */
  ghost predicate OnlyAt(m: Marking, m': Marking, p: PlaceId) {
    forall q :: q != p ==> At(m', q) == At(m, q)
  }

  /** A created token is the last at its place. */
  lemma CreatedIs(m: Marking, token: Token, p: PlaceId)
    ensures var m' := Apply(m, TokenCreated(token, p));
            OnlyAt(m, m', p) && At(m', p) == At(m, p) + [token]
  {
  }

  /** Removing takes the first token with the id out, and nothing else; without one it does nothing. */
  lemma RemovedIs(m: Marking, p: PlaceId, id: TokenId)
    ensures var m' := Apply(m, Removed(p, id));
            && OnlyAt(m, m', p)
            && (!Has(At(m, p), id) ==> At(m', p) == At(m, p))
            && forall i: nat :: IsFirst(At(m, p), id, i) ==> At(m', p) == At(m, p)[..i] + At(m, p)[i + 1..]
  {
    forall i: nat | IsFirst(At(m, p), id, i)
      ensures At(Apply(m, Removed(p, id)), p) == At(m, p)[..i] + At(m, p)[i + 1..] {
      DropFirstIs(At(m, p), id, i);
    }
    if !Has(At(m, p), id) {
      DropFirstNone(At(m, p), id);
    }
  }

  /** Updating gives the first token with the id the new colour, where it is. */
  lemma UpdatedIs(m: Marking, p: PlaceId, id: TokenId, color: string)
    ensures var m' := Apply(m, Updated(p, id, color));
            && OnlyAt(m, m', p)
            && (!Has(At(m, p), id) ==> At(m', p) == At(m, p))
            && forall i: nat :: IsFirst(At(m, p), id, i) ==> At(m', p) == At(m, p)[i := Token(id, color)]
  {
    forall i: nat | IsFirst(At(m, p), id, i)
      ensures At(Apply(m, Updated(p, id, color)), p) == At(m, p)[i := Token(id, color)] {
      RecolorFirstIs(At(m, p), id, color, i);
    }
    if !Has(At(m, p), id) {
      RecolorFirstNone(At(m, p), id, color);
    }
  }

  function ConsumedAt(cs: seq<Consumed>, p: PlaceId): seq<TokenId> {
    if cs == [] then [] else (if cs[0].place == p then [cs[0].id] else []) + ConsumedAt(cs[1..], p)
  }

  function ProducedAt(ps: seq<Produced>, p: PlaceId): seq<Token> {
    if ps == [] then [] else (if ps[0].place == p then [ps[0].token] else []) + ProducedAt(ps[1..], p)
  }

  /** Take out the first token with each of these ids, one after the other. */
  function DropEach(ts: seq<Token>, ids: seq<TokenId>): seq<Token>
    decreases |ids|
  {
    if ids == [] then ts else DropEach(DropFirst(ts, ids[0]), ids[1..])
  }

  lemma {:induction false} RemoveAllAt(m: Marking, cs: seq<Consumed>, p: PlaceId)
    ensures At(RemoveAll(m, cs), p) == DropEach(At(m, p), ConsumedAt(cs, p))
    decreases |cs|
  {
    if cs != [] {
      RemoveAllAt(RemoveToken(m, cs[0].place, cs[0].id), cs[1..], p);
      if cs[0].place == p {
        var rest := ConsumedAt(cs[1..], p);
        assert ([cs[0].id] + rest)[0] == cs[0].id && ([cs[0].id] + rest)[1..] == rest;
      } else {
        assert [] + ConsumedAt(cs[1..], p) == ConsumedAt(cs[1..], p);
      }
    }
  }

  lemma {:induction false} AddAllAt(m: Marking, ps: seq<Produced>, p: PlaceId)
    ensures At(AddAll(m, ps), p) == At(m, p) + ProducedAt(ps, p)
    decreases |ps|
  {
    if ps != [] {
      AddAllAt(AddToken(m, ps[0].place, ps[0].token), ps[1..], p);
      if ps[0].place == p {
        assert At(m, p) + [ps[0].token] + ProducedAt(ps[1..], p) == At(m, p) + ([ps[0].token] + ProducedAt(ps[1..], p));
      }
    }
  }

  /** A firing takes its inputs out, place by place, and puts its outputs behind what is left. */
  lemma MovedIs(m: Marking, t: string, cs: seq<Consumed>, ps: seq<Produced>, p: PlaceId)
    ensures At(Apply(m, Moved(t, cs, ps)), p) == DropEach(At(m, p), ConsumedAt(cs, p)) + ProducedAt(ps, p)
  {
    RemoveAllAt(m, cs, p);
    AddAllAt(RemoveAll(m, cs), ps, p);
  }

  /** A failed effect moves tokens, like a firing, exactly when it says it consumed them. */
  lemma FailedIs(m: Marking, t: string, cs: seq<Consumed>, ps: seq<Produced>, tokensConsumed: bool, p: PlaceId)
    ensures At(Apply(m, Failed(cs, ps, tokensConsumed)), p) ==
            if tokensConsumed then DropEach(At(m, p), ConsumedAt(cs, p)) + ProducedAt(ps, p) else At(m, p)
  {
    MovedIs(m, t, cs, ps, p);
  }

  // ---------------------------------------------------------------------
  // Conservation
  // ---------------------------------------------------------------------

  ghost function WithId(id: TokenId): Token -> bool {
    (t: Token) => t.id == id
  }

  ghost function Is(id: TokenId): TokenId -> bool {
    (x: TokenId) => x == id
  }

  ghost function Count(ts: seq<Token>, id: TokenId): nat {
    CountIf(ts, WithId(id))
  }

  lemma {:induction false} CountConcat<T>(a: seq<T>, b: seq<T>, p: T -> bool)
    ensures CountIf(a + b, p) == CountIf(a, p) + CountIf(b, p)
  {
    if b == [] {
      assert a + b == a;
    } else {
      var n := |b| - 1;
      CountConcat(a, b[..n], p);
      assert a + b == a + b[..n] + [b[n]] && b == b[..n] + [b[n]];
      CountAppend(a + b[..n], b[n], p);
      CountAppend(b[..n], b[n], p);
    }
  }

  lemma {:induction false} CountHas(ts: seq<Token>, id: TokenId)
    ensures Has(ts, id) <==> Count(ts, id) > 0
  {
    if ts != [] {
      var n := |ts| - 1;
      CountHas(ts[..n], id);
      if Has(ts[..n], id) {
        var i :| 0 <= i < n && ts[..n][i].id == id;
        assert ts[i].id == id;
      } else {
        assert forall i :: 0 <= i < n ==> ts[..n][i] == ts[i];
      }
    }
  }

  lemma {:induction false} CountWithout<T>(s: seq<T>, i: nat, p: T -> bool)
    requires i < |s|
    ensures CountIf(s, p) == CountIf(s[..i] + s[i + 1..], p) + Bit(p(s[i]))
  {
    assert s == s[..i] + [s[i]] + s[i + 1..];
    CountConcat(s[..i] + [s[i]], s[i + 1..], p);
    CountAppend(s[..i], s[i], p);
    CountConcat(s[..i], s[i + 1..], p);
  }

  lemma {:induction false} CountDropped(ts: seq<Token>, id: TokenId, x: TokenId)
    ensures Count(DropFirst(ts, id), x) == Count(ts, x) - Bit(x == id && Count(ts, x) > 0)
  {
    CountHas(ts, id);
    if Has(ts, id) {
      var i := FirstExists(ts, id);
      DropFirstIs(ts, id, i);
      CountWithout(ts, i, WithId(x));
      CountHas(ts, x);
    } else {
      DropFirstNone(ts, id);
    }
  }

  lemma {:induction false} CountDropEach(ts: seq<Token>, ids: seq<TokenId>, x: TokenId)
    ensures Count(DropEach(ts, ids), x) == Max(0, Count(ts, x) - CountIf(ids, Is(x)))
    decreases |ids|
  {
    if ids != [] {
      CountDropEach(DropFirst(ts, ids[0]), ids[1..], x);
      CountDropped(ts, ids[0], x);
      CountHead(ids, x);
    }
  }

  lemma {:induction false} CountHead(ids: seq<TokenId>, x: TokenId)
    requires ids != []
    ensures CountIf(ids, Is(x)) == Bit(ids[0] == x) + CountIf(ids[1..], Is(x))
  {
    CountWithout(ids, 0, Is(x));
    assert ids[..0] + ids[1..] == ids[1..];
  }

  /** How many tokens with this id the event takes from the place, and how many it puts there. */
  ghost function Takes(e: Event, p: PlaceId, x: TokenId): nat {
    match e
    case Moved(_, consumed, _) => CountIf(ConsumedAt(consumed, p), Is(x))
    case Failed(consumed, _, tokensConsumed) => if tokensConsumed then CountIf(ConsumedAt(consumed, p), Is(x)) else 0
    case Removed(place, id) => Bit(place == p && id == x)
    case _ => 0
  }

  ghost function Puts(e: Event, p: PlaceId, x: TokenId): nat {
    match e
    case TokenCreated(token, place) => Bit(place == p && token.id == x)
    case Moved(_, _, produced) => Count(ProducedAt(produced, p), x)
    case Failed(_, produced, tokensConsumed) => if tokensConsumed then Count(ProducedAt(produced, p), x) else 0
    case _ => 0
  }

  lemma {:induction false} MovedCounts(ts: seq<Token>, ids: seq<TokenId>, more: seq<Token>, x: TokenId)
    ensures Count(DropEach(ts, ids) + more, x) == Max(0, Count(ts, x) - CountIf(ids, Is(x))) + Count(more, x)
  {
    CountDropEach(ts, ids, x);
    CountConcat(DropEach(ts, ids), more, WithId(x));
  }

  /** The law of an event: what it takes goes, as far as it is there, and what it puts is added. */
  ghost predicate Obeys(m: Marking, e: Event, p: PlaceId, x: TokenId) {
    Count(At(Apply(m, e), p), x) == Max(0, Count(At(m, p), x) - Takes(e, p, x)) + Puts(e, p, x)
  }

  lemma CreatedObeys(m: Marking, token: Token, place: PlaceId, p: PlaceId, x: TokenId)
    ensures Obeys(m, TokenCreated(token, place), p, x)
  {
    CreatedIs(m, token, place);
    CountAppend(At(m, place), token, WithId(x));
  }

  lemma MovedObeys(m: Marking, t: string, cs: seq<Consumed>, ps: seq<Produced>, p: PlaceId, x: TokenId)
    ensures Obeys(m, Moved(t, cs, ps), p, x)
  {
    MovedIs(m, t, cs, ps, p);
    MovedCounts(At(m, p), ConsumedAt(cs, p), ProducedAt(ps, p), x);
  }

  lemma FailedObeys(m: Marking, cs: seq<Consumed>, ps: seq<Produced>, tokensConsumed: bool, p: PlaceId, x: TokenId)
    ensures Obeys(m, Failed(cs, ps, tokensConsumed), p, x)
  {
    FailedIs(m, "", cs, ps, tokensConsumed, p);
    MovedCounts(At(m, p), ConsumedAt(cs, p), ProducedAt(ps, p), x);
  }

  lemma RemovedObeys(m: Marking, place: PlaceId, id: TokenId, p: PlaceId, x: TokenId)
    ensures Obeys(m, Removed(place, id), p, x)
  {
    CountDropped(At(m, place), id, x);
  }

  lemma UpdatedObeys(m: Marking, place: PlaceId, id: TokenId, color: string, p: PlaceId, x: TokenId)
    ensures Obeys(m, Updated(place, id, color), p, x)
  {
    UpdatedIs(m, place, id, color);
    if p == place && Has(At(m, p), id) {
      var i := FirstExists(At(m, p), id);
      CountUpdate(At(m, p), i, Token(id, color), WithId(x));
    }
  }

  lemma ApplyCounts(m: Marking, e: Event, p: PlaceId, x: TokenId)
    ensures Obeys(m, e, p, x)
  {
    match e
    case TokenCreated(token, place) => CreatedObeys(m, token, place, p, x);
    case Moved(t, consumed, produced) => MovedObeys(m, t, consumed, produced, p, x);
    case Failed(consumed, produced, tokensConsumed) => FailedObeys(m, consumed, produced, tokensConsumed, p, x);
    case Removed(place, id) => RemovedObeys(m, place, id, p, x);
    case Updated(place, id, color) => UpdatedObeys(m, place, id, color, p, x);
    case Audit =>
  }

  ghost function Taken(log: seq<Persisted>, p: PlaceId, x: TokenId): nat {
    if log == [] then 0 else Taken(log[..|log| - 1], p, x) + Takes(log[|log| - 1].event, p, x)
  }

  ghost function Put(log: seq<Persisted>, p: PlaceId, x: TokenId): nat {
    if log == [] then 0 else Put(log[..|log| - 1], p, x) + Puts(log[|log| - 1].event, p, x)
  }

  /** Event `n` finds all it takes. */
  ghost predicate Covered(log: seq<Persisted>, n: nat, p: PlaceId, x: TokenId)
    requires n < |log|
  {
    Takes(log[n].event, p, x) <= Count(At(Project(log[..n]), p), x)
  }

  /** Tokens are conserved: after any log there are at least as many as were put there less
      those taken, and exactly as many if and only if every event found all it took. */
  lemma {:induction false} TokensBalance(log: seq<Persisted>, p: PlaceId, x: TokenId)
    ensures Count(At(Project(log), p), x) >= Put(log, p, x) - Taken(log, p, x)
    ensures Count(At(Project(log), p), x) == Put(log, p, x) - Taken(log, p, x) <==>
            forall n: nat :: n < |log| ==> Covered(log, n, p, x)
  {
    if log != [] {
      var n := |log| - 1;
      var before := log[..n];
      TokensBalance(before, p, x);
      ApplyCounts(Project(before), log[n].event, p, x);
      forall i: nat | i < n ensures Covered(log, i, p, x) <==> Covered(before, i, p, x) {
        assert before[..i] == log[..i] && before[i] == log[i];
      }
      assert Covered(log, n, p, x) <==> Takes(log[n].event, p, x) <= Count(At(Project(before), p), x);
    }
  }
}
