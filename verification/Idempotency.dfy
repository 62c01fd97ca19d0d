/** Idempotency markers: has this event been processed within this scope? */
module Idempotency {
  import opened Events
  import opened MemoryStore

  const PROCESSED := "__processed"

  function MarkerKey(scope: string, id: string): string {
    scope + ":" + id
  }

  /** Whether a marker is found, or cannot be read. */
  function IsProcessed(codec: Codec<bool>, documents: Documents, scope: string, id: string): Result<bool, StoreError> {
    match FetchDocument(documents, PROCESSED, MarkerKey(scope, id), codec)
    case Err(e) => Err(e)
    case Ok(marker) => Ok(marker.Some?)
  }

  method AlreadyProcessed(store: MemoryStore, codec: Codec<bool>, scope: string, id: string)
    returns (result: Result<bool, StoreError>)
    ensures result == IsProcessed(codec, store.documents, scope, id)
  {
    var marker := store.Fetch(PROCESSED, MarkerKey(scope, id), codec);
    if marker.Err? {
      return Err(marker.error);
    }
    return Ok(marker.value.Some?);
  }

  /** Marking, or any write or deletion in another collection. */
  datatype Write =
    | Mark(scope: string, id: string)
    | SaveElsewhere(collection: string, key: string, text: string)
    | DropElsewhere(collection: string, key: string)

  function Do(codec: Codec<bool>, documents: Documents, write: Write): Documents {
    match write
    case Mark(scope, id) =>
      var text := codec.encode(true);
      if text.None? then documents else PutDocument(documents, PROCESSED, MarkerKey(scope, id), text.value)
    case SaveElsewhere(collection, key, text) =>
      if collection == PROCESSED then documents else PutDocument(documents, collection, key, text)
    case DropElsewhere(collection, key) =>
      if collection == PROCESSED then documents else DropDocument(documents, collection, key)
  }

  method MarkProcessed(store: MemoryStore, codec: Codec<bool>, scope: string, id: string)
    returns (result: Result<(), StoreError>)
    modifies store`documents
    ensures result.Ok? <==> codec.encode(true).Some?
    ensures store.documents
         == if result.Ok? then Do(codec, old(store.documents), Mark(scope, id)) else old(store.documents)
  {
    result := store.Save(PROCESSED, MarkerKey(scope, id), codec, true);
  }

  function Run(codec: Codec<bool>, writes: seq<Write>): Documents {
    if writes == [] then map[] else Do(codec, Run(codec, writes[..|writes| - 1]), writes[|writes| - 1])
  }

  /** A marker is found exactly when some pair with the same joined key was marked. */
  lemma {:induction false} FoundIffKeyMarked(codec: Codec<bool>, writes: seq<Write>, scope: string, id: string)
    requires Faithful(codec) && codec.encode(true).Some?
    ensures IsProcessed(codec, Run(codec, writes), scope, id)
         == Ok(exists w <- writes :: w.Mark? && MarkerKey(w.scope, w.id) == MarkerKey(scope, id))
  {
    if writes != [] {
      var n := |writes| - 1;
      var init, last := writes[..n], writes[n];
      FoundIffKeyMarked(codec, init, scope, id);
      assert writes == init + [last];
      var (collection, key, text) := match last
        case Mark(s, i) => (PROCESSED, MarkerKey(s, i), codec.encode(true).value)
        case SaveElsewhere(c, k, t) => (c, k, t)
        case DropElsewhere(c, k) => (c, k, "");
      DocumentsAreIndependent(Run(codec, init), collection, key, text, PROCESSED, MarkerKey(scope, id));
      if last.Mark? && MarkerKey(last.scope, last.id) == MarkerKey(scope, id) {
        assert last in writes;
      }
    }
  }

  /** The colon a key was joined with is its last one. */
  lemma JoinIsLastColon(scope: string, id: string, p: nat)
    requires ':' !in id && p < |MarkerKey(scope, id)| && MarkerKey(scope, id)[p] == ':'
    ensures p <= |scope|
  {
    var k := MarkerKey(scope, id);
    assert forall q | |scope| < q < |k| :: k[q] == id[q - |scope| - 1] && id[q - |scope| - 1] in id;
  }

  /** Joined keys tell pairs apart as long as ids have no colon; UUID text, section 4 of RFC 9562, has none. */
  lemma MarkerKeyIsInjective(scope: string, id: string, otherScope: string, otherId: string)
    requires ':' !in id && ':' !in otherId
    ensures MarkerKey(scope, id) == MarkerKey(otherScope, otherId) <==> scope == otherScope && id == otherId
  {
    var a, b := MarkerKey(scope, id), MarkerKey(otherScope, otherId);
    assert a[|scope|] == ':' && b[|otherScope|] == ':';
    assert a[..|scope|] == scope && a[|scope| + 1..] == id;
    assert b[..|otherScope|] == otherScope && b[|otherScope| + 1..] == otherId;
    if a == b {
      hide MarkerKey;
      JoinIsLastColon(scope, id, |otherScope|);
      JoinIsLastColon(otherScope, otherId, |scope|);
    }
  }

  /** Exact: after any writes, a pair without a colon in its id is reported processed exactly when it was marked. */
  lemma MarkersAreExact(codec: Codec<bool>, writes: seq<Write>, scope: string, id: string)
    requires Faithful(codec) && codec.encode(true).Some?
    requires ':' !in id && forall w <- writes | w.Mark? :: ':' !in w.id
    ensures IsProcessed(codec, Run(codec, writes), scope, id) == Ok(Mark(scope, id) in writes)
  {
    FoundIffKeyMarked(codec, writes, scope, id);
    forall w | w in writes && w.Mark?
      ensures MarkerKey(w.scope, w.id) == MarkerKey(scope, id) <==> w == Mark(scope, id)
    {
      MarkerKeyIsInjective(w.scope, w.id, scope, id);
    }
    if Mark(scope, id) in writes {
      var w := Mark(scope, id);
      assert w in writes && w.Mark?;
    }
  }

  lemma ColonsShift(scope: string, head: string, tail: string)
    ensures MarkerKey(scope, head + ":" + tail) == MarkerKey(scope + ":" + head, tail)
    ensures Mark(scope, head + ":" + tail) != Mark(scope + ":" + head, tail)
  {
    assert |scope + ":" + head| != |scope|;
  }

  /** With a colon in an id the guarantee is lost: marking one pair makes another, different one look processed,
      whatever else was written. */
  lemma ColonsCollide(codec: Codec<bool>, writes: seq<Write>, scope: string, head: string, tail: string)
    requires Faithful(codec) && codec.encode(true).Some?
    requires Mark(scope, head + ":" + tail) in writes
    ensures Mark(scope, head + ":" + tail) != Mark(scope + ":" + head, tail)
    ensures IsProcessed(codec, Run(codec, writes), scope + ":" + head, tail) == Ok(true)
  {
    ColonsShift(scope, head, tail);
    FoundIffKeyMarked(codec, writes, scope + ":" + head, tail);
    var w := Mark(scope, head + ":" + tail);
    assert w.Mark? && MarkerKey(w.scope, w.id) == MarkerKey(scope + ":" + head, tail);
  }

  /** What precedes and what follows the last colon. */
  lemma {:induction false} LastColon(s: string) returns (head: string, tail: string)
    requires ':' in s
    ensures s == head + ":" + tail && ':' !in tail
  {
    var n := |s| - 1;
    if s[n] == ':' {
      head, tail := s[..n], "";
    } else {
      assert s == s[..n] + [s[n]];
      head, tail := LastColon(s[..n]);
      tail := tail + [s[n]];
    }
  }

  /** An id has no colon exactly when no other pair whose id has none shares its key. */
  lemma ColonFreeIff(scope: string, id: string)
    ensures ':' !in id <==>
            forall s, i | ':' !in i && MarkerKey(s, i) == MarkerKey(scope, id) :: s == scope && i == id
  {
    if ':' in id {
      var head, tail := LastColon(id);
      ColonsShift(scope, head, tail);
      assert MarkerKey(scope + ":" + head, tail) == MarkerKey(scope, id);
    } else {
      forall s, i | ':' !in i && MarkerKey(s, i) == MarkerKey(scope, id)
        ensures s == scope && i == id
      {
        MarkerKeyIsInjective(s, i, scope, id);
      }
    }
  }

  /** Whatever else is written, this pair is reported processed exactly when it was marked. */
  ghost predicate IsExact(codec: Codec<bool>, scope: string, id: string) {
    forall writes: seq<Write> :: IsProcessed(codec, Run(codec, writes), scope, id) == Ok(Mark(scope, id) in writes)
  }

  lemma OnlyPairOfKey(scope: string, id: string, otherScope: string, otherId: string)
    requires ':' !in scope && ':' !in id && MarkerKey(otherScope, otherId) == MarkerKey(scope, id)
    ensures Mark(otherScope, otherId) == Mark(scope, id)
  {
    var k := MarkerKey(scope, id);
    assert k[|scope|] == ':' && k[|otherScope|] == ':' by {
      assert MarkerKey(otherScope, otherId)[|otherScope|] == ':';
    }
    assert forall p | 0 <= p < |scope| :: k[p] == scope[p] && scope[p] in scope;
    JoinIsLastColon(scope, id, |otherScope|);
    assert |otherScope| == |scope|;
    assert k[..|scope|] == scope && k[|scope| + 1..] == id;
    assert MarkerKey(otherScope, otherId)[..|scope|] == otherScope;
    assert MarkerKey(otherScope, otherId)[|scope| + 1..] == otherId;
  }

  lemma CollisionBreaks(codec: Codec<bool>, scope: string, id: string, otherScope: string, otherId: string)
    requires Faithful(codec) && codec.encode(true).Some?
    requires MarkerKey(otherScope, otherId) == MarkerKey(scope, id)
    requires Mark(otherScope, otherId) != Mark(scope, id)
    ensures !IsExact(codec, scope, id)
  {
    var writes := [Mark(otherScope, otherId)];
    FoundIffKeyMarked(codec, writes, scope, id);
    var w := writes[0];
    assert w in writes && w.Mark?;
    assert IsProcessed(codec, Run(codec, writes), scope, id) != Ok(Mark(scope, id) in writes);
  }

  /** When ids of any shape are marked, a pair is safe from all of them exactly when neither its scope nor its id has
      a colon. */
  lemma ExactIffNoColon(codec: Codec<bool>, scope: string, id: string)
    requires Faithful(codec) && codec.encode(true).Some?
    ensures IsExact(codec, scope, id) <==> ':' !in scope && ':' !in id
  {
    hide Run, IsProcessed;
    if ':' in id {
      var head, tail := LastColon(id);
      ColonsShift(scope, head, tail);
      CollisionBreaks(codec, scope, id, scope + ":" + head, tail);
    } else if ':' in scope {
      var head, tail := LastColon(scope);
      ColonsShift(head, tail, id);
      CollisionBreaks(codec, scope, id, head, tail + ":" + id);
    } else {
      forall writes: seq<Write>
        ensures IsProcessed(codec, Run(codec, writes), scope, id) == Ok(Mark(scope, id) in writes)
      {
        FoundIffKeyMarked(codec, writes, scope, id);
        forall w | w in writes && w.Mark? && MarkerKey(w.scope, w.id) == MarkerKey(scope, id)
          ensures w == Mark(scope, id)
        {
          OnlyPairOfKey(scope, id, w.scope, w.id);
        }
        if Mark(scope, id) in writes {
          var w := Mark(scope, id);
          assert w.Mark? && w in writes;
        }
      }
    }
  }
}
