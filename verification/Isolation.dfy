/** What different users of one store keep apart: reserved collections, aggregates of different types, and
    subscriptions of different names. */
module Isolation {
  import opened Events
  import opened EventLog
  import opened MemoryStore
  import opened Aggregates
  import opened Snapshots
  import opened Subscriptions
  import opened Idempotency

  // ---------------------------------------------------------------------------
  // Reserved collections
  // ---------------------------------------------------------------------------

  lemma CollectionShape(kind: string)
    ensures |Collection(kind)| == 11 + |kind| && Collection(kind)[11..] == kind
    ensures Collection(kind)[2] == 's' && CHECKPOINTS[2] == 'c' && PROCESSED[2] == 'p'
  {
  }

  /** Snapshots of different aggregate types, checkpoints and markers are kept in different collections. */
  lemma CollectionsDiffer(kind: string, other: string)
    ensures Collection(kind) == Collection(other) <==> kind == other
    ensures Collection(kind) != CHECKPOINTS && Collection(kind) != PROCESSED && CHECKPOINTS != PROCESSED
  {
    hide Collection;
    CollectionShape(kind);
    CollectionShape(other);
  }

  // ---------------------------------------------------------------------------
  // Aggregates of different types
  // ---------------------------------------------------------------------------

  /** What an aggregate of another type may rely on: it finds the same streams and the same snapshots. */
  ghost predicate SameFor<S, E, C, R>(
      agg: Aggregate<S, E, C, R>, codec: Codec<Snapshot<S>>,
      log: Log, documents: Documents, after: Log, saved: Documents)
  {
    && WellFormed(after) && log <= after
    && forall id ::
         && Stream(after, agg.Key(id)) == Stream(log, agg.Key(id))
         && FetchDocument(saved, Collection(agg.kind), id, codec)
         == FetchDocument(documents, Collection(agg.kind), id, codec)
  }

  lemma CommitIsSeparate<S, E, C, R>(agg: Aggregate<S, E, C, R>, log: Log, id: string, version: nat, events: seq<E>)
    requires WellFormed(log)
    ensures var x := Commit(agg, log, id, version, events);
            && WellFormed(x.log) && log <= x.log
            && forall key | key != agg.Key(id) :: Stream(x.log, key) == Stream(log, key)
  {
    hide Select, Stream, WellFormed;
    AppendKeepsLog(log, agg.Key(id), ExpectedAfter(version), agg.events, events);
  }

  /** What a snapshotting command leaves: a log that continues its own stream only, and documents that differ in its
      own snapshot at most. */
  lemma SnapshottingStaysHome<S, E, C, R>(
      agg: Aggregate<S, E, C, R>, codec: Codec<Snapshot<S>>, log: Log, documents: Documents,
      id: string, command: C, policy: Policy, collection: string, key: string)
    requires WellFormed(log)
    ensures var x := ExecuteSnapshotting(agg, codec, log, documents, id, command, policy);
            && WellFormed(x.log) && log <= x.log
            && (forall other | other != agg.Key(id) :: Stream(x.log, other) == Stream(log, other))
            && ((collection, key) != (Collection(agg.kind), id) ==>
                  GetDocument(x.documents, collection, key) == GetDocument(documents, collection, key))
  {
    hide Stream, WellFormed, LoadSnapshotted, Commit, GetDocument, PutDocument, Fold, Payloads;
    var loaded := LoadSnapshotted(agg, codec, log, documents, id);
    if loaded.Ok? && agg.handle(loaded.value.state, command).Ok? {
      var events := agg.handle(loaded.value.state, command).value;
      var x := Commit(agg, log, id, loaded.value.version, events);
      CommitIsSeparate(agg, log, id, loaded.value.version, events);
      if x.outcome.Ok? && |x.outcome.value| > 0 {
        var last := x.outcome.value[|x.outcome.value| - 1].version;
        var text := codec.encode(Snapshot(last, Fold(agg.apply, loaded.value.state, Payloads(x.outcome.value))));
        if text.Some? {
          DocumentsAreIndependent(documents, Collection(agg.kind), id, text.value, collection, key);
        }
      }
    }
  }

  /** A list of snapshotting commands, from any state of the store. */
  function ExecuteFrom<S, E, C, R>(
      agg: Aggregate<S, E, C, R>, codec: Codec<Snapshot<S>>, log: Log, documents: Documents,
      commands: seq<(string, C)>, policy: Policy): (Log, Documents)
  {
    if |commands| == 0 then (log, documents)
    else
      var n := |commands| - 1;
      var (before, held) := ExecuteFrom(agg, codec, log, documents, commands[..n], policy);
      var x := ExecuteSnapshotting(agg, codec, before, held, commands[n].0, commands[n].1, policy);
      (x.log, x.documents)
  }

  lemma SameForTransitive<S, E, C, R>(
      agg: Aggregate<S, E, C, R>, codec: Codec<Snapshot<S>>,
      log: Log, documents: Documents, mid: Log, held: Documents, after: Log, saved: Documents)
    requires SameFor(agg, codec, log, documents, mid, held) && SameFor(agg, codec, mid, held, after, saved)
    ensures SameFor(agg, codec, log, documents, after, saved)
  {
    hide Stream, WellFormed, FetchDocument;
  }

  lemma OneCommandStaysHome<S, E, C, R, S', E', C', R'>(
      agg: Aggregate<S, E, C, R>, codec: Codec<Snapshot<S>>,
      other: Aggregate<S', E', C', R'>, otherCodec: Codec<Snapshot<S'>>,
      log: Log, documents: Documents, id: string, command: C, policy: Policy)
    requires WellFormed(log) && agg.kind != other.kind
    ensures var x := ExecuteSnapshotting(agg, codec, log, documents, id, command, policy);
            SameFor(other, otherCodec, log, documents, x.log, x.documents)
  {
    hide Stream, WellFormed, ExecuteSnapshotting, GetDocument, Collection;
    CollectionsDiffer(agg.kind, other.kind);
    var x := ExecuteSnapshotting(agg, codec, log, documents, id, command, policy);
    SnapshottingStaysHome(agg, codec, log, documents, id, command, policy, Collection(other.kind), id);
    forall theirs
      ensures Stream(x.log, other.Key(theirs)) == Stream(log, other.Key(theirs))
      ensures FetchDocument(x.documents, Collection(other.kind), theirs, otherCodec)
           == FetchDocument(documents, Collection(other.kind), theirs, otherCodec)
    {
      SnapshottingStaysHome(agg, codec, log, documents, id, command, policy, Collection(other.kind), theirs);
    }
  }

  /** Whatever snapshotting commands one aggregate executes, an aggregate of another type finds what it would have
      found without them. */
  lemma {:induction false} CommandsStayHome<S, E, C, R, S', E', C', R'>(
      agg: Aggregate<S, E, C, R>, codec: Codec<Snapshot<S>>,
      other: Aggregate<S', E', C', R'>, otherCodec: Codec<Snapshot<S'>>,
      log: Log, documents: Documents, commands: seq<(string, C)>, policy: Policy)
    requires WellFormed(log) && agg.kind != other.kind
    ensures var (after, saved) := ExecuteFrom(agg, codec, log, documents, commands, policy);
            SameFor(other, otherCodec, log, documents, after, saved)
  {
    hide Stream, WellFormed, ExecuteSnapshotting, FetchDocument;
    if |commands| > 0 {
      var n := |commands| - 1;
      CommandsStayHome(agg, codec, other, otherCodec, log, documents, commands[..n], policy);
      var (before, held) := ExecuteFrom(agg, codec, log, documents, commands[..n], policy);
      OneCommandStaysHome(agg, codec, other, otherCodec, before, held, commands[n].0, commands[n].1, policy);
      var x := ExecuteSnapshotting(agg, codec, before, held, commands[n].0, commands[n].1, policy);
      SameForTransitive(other, otherCodec, log, documents, before, held, x.log, x.documents);
    }
  }

  lemma SameLoads<S, E, C, R>(
      agg: Aggregate<S, E, C, R>, codec: Codec<Snapshot<S>>,
      log: Log, documents: Documents, after: Log, saved: Documents, id: string)
    requires WellFormed(log) && SameFor(agg, codec, log, documents, after, saved)
    ensures LoadState(agg, after, id) == LoadState(agg, log, id)
    ensures StartingPoint(agg, codec, saved, id) == StartingPoint(agg, codec, documents, id)
    ensures LoadSnapshotted(agg, codec, after, saved, id) == LoadSnapshotted(agg, codec, log, documents, id)
  {
    hide Select, Stream, WellFormed, RenderOnto, FetchDocument;
    assert Stream(after, agg.Key(id)) == Stream(log, agg.Key(id));
    var start := StartingPoint(agg, codec, documents, id);
    if start.Ok? {
      SuffixScanIsDrop(log, agg.Key(id), start.value.version);
      SuffixScanIsDrop(after, agg.Key(id), start.value.version);
    }
  }

  lemma SameSoundness<S, E, C, R>(
      agg: Aggregate<S, E, C, R>, codec: Codec<Snapshot<S>>,
      log: Log, documents: Documents, after: Log, saved: Documents)
    requires SameFor(agg, codec, log, documents, after, saved)
    ensures SnapshotsAreSound(agg, codec, after, saved) <==> SnapshotsAreSound(agg, codec, log, documents)
  {
    hide Select, Stream, WellFormed, RenderOnto, FetchDocument;
    forall id
      ensures Stream(after, agg.Key(id)) == Stream(log, agg.Key(id))
      ensures FetchDocument(saved, Collection(agg.kind), id, codec)
           == FetchDocument(documents, Collection(agg.kind), id, codec)
    {
    }
  }

  /** So its loads, with and without a snapshot, its held versions and the soundness of its cache are what they were. */
  lemma {:induction false} AggregatesAreIsolated<S, E, C, R, S', E', C', R'>(
      agg: Aggregate<S, E, C, R>, codec: Codec<Snapshot<S>>,
      other: Aggregate<S', E', C', R'>, otherCodec: Codec<Snapshot<S'>>,
      log: Log, documents: Documents, commands: seq<(string, C)>, policy: Policy, id: string)
    requires WellFormed(log) && agg.kind != other.kind
    ensures var (after, saved) := ExecuteFrom(agg, codec, log, documents, commands, policy);
            && LoadState(other, after, id) == LoadState(other, log, id)
            && LoadSnapshotted(other, otherCodec, after, saved, id)
            == LoadSnapshotted(other, otherCodec, log, documents, id)
            && HeldVersion(other, otherCodec, saved, id) == HeldVersion(other, otherCodec, documents, id)
            && (SnapshotsAreSound(other, otherCodec, after, saved)
                <==> SnapshotsAreSound(other, otherCodec, log, documents))
  {
    hide ExecuteFrom, SameFor, SnapshotsAreSound, LoadState, LoadSnapshotted, StartingPoint, WellFormed;
    CommandsStayHome(agg, codec, other, otherCodec, log, documents, commands, policy);
    var (after, saved) := ExecuteFrom(agg, codec, log, documents, commands, policy);
    SameLoads(other, otherCodec, log, documents, after, saved, id);
    SameSoundness(other, otherCodec, log, documents, after, saved);
  }

  // ---------------------------------------------------------------------------
  // Subscriptions, markers and snapshots
  // ---------------------------------------------------------------------------

  /** One run of a subscription moves no other subscription's checkpoint, no marker and no snapshot. */
  lemma RunsAreIsolated<E, F, S, T, C, R>(
      sub: Subscription<E>, log: Log, fails: (nat, Recorded<E>) -> bool, earlier: nat, documents: Documents,
      other: Subscription<F>, markers: Codec<bool>, scope: string, event: string,
      agg: Aggregate<S, T, C, R>, snapshots: Codec<Snapshot<S>>, id: string)
    requires Faithful(sub.codec)
    ensures var saved := PumpAlone(sub, log, fails, earlier, documents).documents;
            && (other.name != sub.name ==> Checkpoint(other, saved) == Checkpoint(other, documents))
            && IsProcessed(markers, saved, scope, event) == IsProcessed(markers, documents, scope, event)
            && LoadSnapshotted(agg, snapshots, log, saved, id) == LoadSnapshotted(agg, snapshots, log, documents, id)
  {
    hide PumpAlone, Select, DecodeAll, LoadTail, GetDocument, Collection;
    PumpDelivers(sub, log, fails, earlier, documents);
    CollectionsDiffer(agg.kind, agg.kind);
    var saved := PumpAlone(sub, log, fails, earlier, documents).documents;
    assert OnlyCheckpointMoved(sub, documents, saved) by {
      if Checkpoint(sub, documents).Err? {
        assert saved == documents;
      }
    }
  }

  /** And a mark moves no checkpoint and no snapshot. */
  lemma MarksAreIsolated<F, S, T, C, R>(
      markers: Codec<bool>, scope: string, event: string, log: Log, documents: Documents,
      other: Subscription<F>, agg: Aggregate<S, T, C, R>, snapshots: Codec<Snapshot<S>>, id: string)
    ensures var saved := Do(markers, documents, Mark(scope, event));
            && Checkpoint(other, saved) == Checkpoint(other, documents)
            && LoadSnapshotted(agg, snapshots, log, saved, id) == LoadSnapshotted(agg, snapshots, log, documents, id)
  {
    hide LoadTail, GetDocument, PutDocument, Collection;
    CollectionsDiffer(agg.kind, agg.kind);
    var text := markers.encode(true);
    if text.Some? {
      DocumentsAreIndependent(documents, PROCESSED, MarkerKey(scope, event), text.value, CHECKPOINTS, other.name);
      DocumentsAreIndependent(documents, PROCESSED, MarkerKey(scope, event), text.value, Collection(agg.kind), id);
    }
  }

  /** Subscriptions are told apart by name, instances by type and id. */
  lemma StreamsAreApart<S, E, C, R, S', E', C', R'>(
      agg: Aggregate<S, E, C, R>, id: string, other: Aggregate<S', E', C', R'>, otherId: string)
    ensures agg.Key(id) == other.Key(otherId) <==> agg.kind == other.kind && id == otherId
  {
  }
}
