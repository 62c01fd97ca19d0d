/** Snapshots: a cached render per instance, when one is due, and what the cache must agree with. */
module Snapshots {
  import opened Events
  import opened EventLog
  import opened MemoryStore
  import opened Aggregates

  /** The rendered state and the stream version it reflects. */
  datatype Snapshot<+S> = Snapshot(version: nat, state: S)

  function Collection(kind: string): string {
    "__snapshot." + kind
  }

  datatype Policy = Never | EveryNEvents(n: nat) {
    /** Whether a write that took the stream from `before` to `after` should leave a snapshot. */
    predicate IsDue(before: nat, after: nat) {
      match this
      case Never => false
      case EveryNEvents(n) => n != 0 && before / n != after / n
    }
  }

  predicate IsMultiple(m: nat, n: nat)
    requires n > 0
  {
    m == (m / n) * n
  }

  lemma QuotientBounds(a: nat, n: nat)
    requires n > 0
    ensures (a / n) * n <= a < (a / n) * n + n
  {
  }

  lemma {:induction false} ProductOrder(a: nat, b: nat, n: nat)
    requires n > 0 && a < b
    ensures a * n + n <= b * n
  {
    if a < b - 1 {
      ProductOrder(a, b - 1, n);
    }
    assert b * n == (b - 1) * n + n;
  }

  lemma QuotientIs(a: nat, q: nat, n: nat)
    requires n > 0 && q * n <= a < q * n + n
    ensures a / n == q
  {
    QuotientBounds(a, n);
    if a / n < q {
      ProductOrder(a / n, q, n);
    }
    if q < a / n {
      ProductOrder(q, a / n, n);
    }
  }

  /** Quotients never fall, and stepping onto a multiple raises them. */
  lemma QuotientOrder(a: nat, b: nat, n: nat)
    requires n > 0 && a <= b
    ensures a / n <= b / n
    ensures a < b && IsMultiple(b, n) ==> a / n < b / n
  {
    QuotientBounds(a, n);
    QuotientBounds(b, n);
    if b / n < a / n {
      ProductOrder(b / n, a / n, n);
    }
  }

  /** A snapshot is due exactly when the write stepped onto or over a multiple of n. */
  lemma DueIffMultipleCrossed(policy: Policy, before: nat, after: nat)
    requires before <= after
    ensures policy.IsDue(before, after)
       <==> policy.EveryNEvents? && policy.n > 0 && exists m: nat :: before < m <= after && IsMultiple(m, policy.n)
  {
    if policy.EveryNEvents? && policy.n > 0 {
      var n := policy.n;
      var lo, hi := before / n, after / n;
      QuotientBounds(before, n);
      QuotientBounds(after, n);
      QuotientOrder(before, after, n);
      if lo < hi {
        ProductOrder(lo, hi, n);
        QuotientIs(hi * n, hi, n);
        assert before < hi * n <= after && IsMultiple(hi * n, n);
      }
      forall m: nat | before < m <= after && IsMultiple(m, n)
        ensures lo < hi
      {
        QuotientOrder(m, after, n);
        QuotientOrder(before, m, n);
        assert lo < m / n;
      }
    }
  }

  // ---------------------------------------------------------------------------
  // The cache and what it must agree with
  // ---------------------------------------------------------------------------

  /** Every stored snapshot decodes, and is the render of that many first events of its instance. */
  ghost predicate SnapshotsAreSound<S, E, C, R>(
      agg: Aggregate<S, E, C, R>, codec: Codec<Snapshot<S>>, log: Log, documents: Documents)
  {
    forall id ::
      var held := FetchDocument(documents, Collection(agg.kind), id, codec);
      held.Ok? && (held.value.Some? ==> Known(agg, log, id, held.value.value.version, held.value.value.state))
  }

  /** Where the snapshot path starts from: the stored snapshot, or a fresh state at version 0. */
  function StartingPoint<S, E, C, R>(
      agg: Aggregate<S, E, C, R>, codec: Codec<Snapshot<S>>, documents: Documents, id: string)
    : Result<Loaded<S>, StoreError>
  {
    match FetchDocument(documents, Collection(agg.kind), id, codec)
    case Err(e) => Err(e)
    case Ok(None) => Ok(Loaded(agg.initial, 0))
    case Ok(Some(snapshot)) => Ok(Loaded(snapshot.state, snapshot.version))
  }

  function LoadSnapshotted<S, E, C, R>(
      agg: Aggregate<S, E, C, R>, codec: Codec<Snapshot<S>>, log: Log, documents: Documents, id: string)
    : Result<Loaded<S>, StoreError>
  {
    match StartingPoint(agg, codec, documents, id)
    case Err(e) => Err(e)
    case Ok(start) => LoadTail(agg, log, id, start.state, start.version)
  }

  lemma StartIsKnown<S, E, C, R>(
      agg: Aggregate<S, E, C, R>, codec: Codec<Snapshot<S>>, log: Log, documents: Documents, id: string)
    requires SnapshotsAreSound(agg, codec, log, documents)
    ensures var start := StartingPoint(agg, codec, documents, id);
            start.Ok? && Known(agg, log, id, start.value.version, start.value.state)
  {
    NothingIsKnown(agg, log, id);
  }

  /** A stored snapshot that does not decode fails the fast path, although a full load needs no snapshot. */
  lemma UnreadableSnapshotFailsLoad<S, E, C, R>(
      agg: Aggregate<S, E, C, R>, codec: Codec<Snapshot<S>>, log: Log, documents: Documents, id: string)
    requires FetchDocument(documents, Collection(agg.kind), id, codec).Err?
    ensures LoadSnapshotted(agg, codec, log, documents, id) == Err(Serialization)
    ensures LoadState(agg, log, id).Err? ==> LoadState(agg, log, id) == Err(Serialization)
  {
    DecodeErrs(agg.events.codec, Stream(log, agg.Key(id)));
  }

  /** When the instance's own snapshot, if it decodes at all, is a render of its stream, the fast path agrees with the
      full load exactly when that snapshot decodes or the full load fails as well: same state, revision and errors. */
  lemma SnapshotLoadIsFullLoadIff<S, E, C, R>(
      agg: Aggregate<S, E, C, R>, codec: Codec<Snapshot<S>>, log: Log, documents: Documents, id: string)
    requires WellFormed(log)
    requires var held := FetchDocument(documents, Collection(agg.kind), id, codec);
             held.Ok? && held.value.Some? ==> Known(agg, log, id, held.value.value.version, held.value.value.state)
    ensures LoadSnapshotted(agg, codec, log, documents, id) == LoadState(agg, log, id)
       <==> FetchDocument(documents, Collection(agg.kind), id, codec).Ok? || LoadState(agg, log, id).Err?
  {
    hide WellFormed, Known, RenderOnto;
    var start := StartingPoint(agg, codec, documents, id);
    if start.Err? {
      UnreadableSnapshotFailsLoad(agg, codec, log, documents, id);
    } else {
      NothingIsKnown(agg, log, id);
      TailLoadIsFullLoad(agg, log, id, start.value.version, start.value.state);
    }
  }

  /** With a sound cache that condition always holds. */
  lemma SnapshotLoadIsFullLoad<S, E, C, R>(
      agg: Aggregate<S, E, C, R>, codec: Codec<Snapshot<S>>, log: Log, documents: Documents, id: string)
    requires WellFormed(log) && SnapshotsAreSound(agg, codec, log, documents)
    ensures LoadSnapshotted(agg, codec, log, documents, id) == LoadState(agg, log, id)
  {
    hide WellFormed, Known, LoadSnapshotted, LoadState;
    SnapshotLoadIsFullLoadIff(agg, codec, log, documents, id);
  }

  /** An input on which the two differ: an undecodable snapshot of an instance without events. */
  lemma UnreadableSnapshotDiffers<S, E, C, R>(
      agg: Aggregate<S, E, C, R>, codec: Codec<Snapshot<S>>, id: string, text: string)
    requires codec.decode(text).None?
    ensures var documents := PutDocument(map[], Collection(agg.kind), id, text);
            && LoadState(agg, [], id) == Ok(Loaded(agg.initial, 0))
            && LoadSnapshotted(agg, codec, [], documents, id) == Err(Serialization)
  {
    NothingIsKnown(agg, [], id);
    KnownIsLoad(agg, [], id, 0, agg.initial);
    DocumentsAreIndependent(map[], Collection(agg.kind), id, text, Collection(agg.kind), id);
  }

  /** Nor do they ever agree on a snapshot ahead of its stream, which nothing but a foreign write can leave. */
  lemma SnapshotAheadDiffers<S, E, C, R>(
      agg: Aggregate<S, E, C, R>, codec: Codec<Snapshot<S>>, log: Log, documents: Documents, id: string)
    requires WellFormed(log)
    requires var held := FetchDocument(documents, Collection(agg.kind), id, codec);
             held.Ok? && held.value.Some? && held.value.value.version > |Stream(log, agg.Key(id))|
    ensures LoadSnapshotted(agg, codec, log, documents, id)
         == Ok(Loaded(StartingPoint(agg, codec, documents, id).value.state,
                      StartingPoint(agg, codec, documents, id).value.version))
    ensures LoadSnapshotted(agg, codec, log, documents, id) != LoadState(agg, log, id)
  {
    SuffixScanIsDrop(log, agg.Key(id), StartingPoint(agg, codec, documents, id).value.version);
  }

  lemma SoundnessSurvivesGrowth<S, E, C, R>(
      agg: Aggregate<S, E, C, R>, codec: Codec<Snapshot<S>>, log: Log, longer: Log, documents: Documents)
    requires log <= longer && SnapshotsAreSound(agg, codec, log, documents)
    ensures SnapshotsAreSound(agg, codec, longer, documents)
  {
    forall id
      ensures var held := FetchDocument(documents, Collection(agg.kind), id, codec);
              held.Ok? && (held.value.Some? ==> Known(agg, longer, id, held.value.value.version, held.value.value.state))
    {
      var held := FetchDocument(documents, Collection(agg.kind), id, codec);
      if held.value.Some? {
        KnownStaysKnown(agg, log, longer, id, held.value.value.version, held.value.value.state);
      }
    }
  }

  /** Saving any known state, newer or older than the one held, keeps the cache sound. */
  lemma SavingKnownIsSound<S(!new), E, C, R>(
      agg: Aggregate<S, E, C, R>, codec: Codec<Snapshot<S>>, log: Log, documents: Documents,
      id: string, snapshot: Snapshot<S>)
    requires Faithful(codec) && codec.encode(snapshot).Some?
    requires SnapshotsAreSound(agg, codec, log, documents)
    requires Known(agg, log, id, snapshot.version, snapshot.state)
    ensures SnapshotsAreSound(agg, codec, log,
              PutDocument(documents, Collection(agg.kind), id, codec.encode(snapshot).value))
  {
    var coll, text := Collection(agg.kind), codec.encode(snapshot).value;
    var saved := PutDocument(documents, coll, id, text);
    forall other
      ensures var held := FetchDocument(saved, coll, other, codec);
              held.Ok? && (held.value.Some? ==> Known(agg, log, other, held.value.value.version, held.value.value.state))
    {
      DocumentsAreIndependent(documents, coll, id, text, coll, other);
      assert FetchDocument(documents, coll, other, codec).Ok?;
    }
  }

  /** Writes to other collections and deletions anywhere keep it sound too. */
  lemma UnrelatedDocumentsKeepSoundness<S, E, C, R>(
      agg: Aggregate<S, E, C, R>, codec: Codec<Snapshot<S>>, log: Log, documents: Documents,
      collection: string, key: string, text: string)
    requires SnapshotsAreSound(agg, codec, log, documents)
    ensures collection != Collection(agg.kind) ==>
              SnapshotsAreSound(agg, codec, log, PutDocument(documents, collection, key, text))
    ensures SnapshotsAreSound(agg, codec, log, DropDocument(documents, collection, key))
  {
    var coll := Collection(agg.kind);
    var put, dropped := PutDocument(documents, collection, key, text), DropDocument(documents, collection, key);
    forall id
      ensures var held := FetchDocument(documents, coll, id, codec);
              held.Ok? && (held.value.Some? ==> Known(agg, log, id, held.value.value.version, held.value.value.state))
      ensures collection != coll ==> FetchDocument(put, coll, id, codec) == FetchDocument(documents, coll, id, codec)
      ensures FetchDocument(dropped, coll, id, codec) == Ok(None)
           || FetchDocument(dropped, coll, id, codec) == FetchDocument(documents, coll, id, codec)
    {
      DocumentsAreIndependent(documents, collection, key, text, coll, id);
    }
  }

  // ---------------------------------------------------------------------------
  // One snapshotting command run alone
  // ---------------------------------------------------------------------------


  datatype Snapshotted<+E, +R> = Snapshotted(log: Log, documents: Documents, outcome: Outcome<E, R>)

  /** After an append: save a snapshot when one is due. A save that fails comes back as an error although the events
      are committed. */
  function SaveIfDue<S, E, C, R>(
      agg: Aggregate<S, E, C, R>, codec: Codec<Snapshot<S>>, documents: Documents,
      id: string, policy: Policy, loaded: Loaded<S>, x: Executed<E, R>)
    : Snapshotted<E, R>
  {
    if x.outcome.Ok? && |x.outcome.value| > 0 then
      var last := x.outcome.value[|x.outcome.value| - 1].version;
      if policy.IsDue(loaded.version, last) then
        var snapshot := Snapshot(last, Fold(agg.apply, loaded.state, Payloads(x.outcome.value)));
        var text := codec.encode(snapshot);
        if text.None? then Snapshotted(x.log, documents, Err(Store(Serialization)))
        else Snapshotted(x.log, PutDocument(documents, Collection(agg.kind), id, text.value), x.outcome)
      else Snapshotted(x.log, documents, x.outcome)
    else Snapshotted(x.log, documents, x.outcome)
  }

  /** Load by the fast path, decide, append, and save a snapshot when one is due. */
  function ExecuteSnapshotting<S, E, C, R>(
      agg: Aggregate<S, E, C, R>, codec: Codec<Snapshot<S>>, log: Log, documents: Documents,
      id: string, command: C, policy: Policy)
    : Snapshotted<E, R>
  {
    match LoadSnapshotted(agg, codec, log, documents, id)
    case Err(e) => Snapshotted(log, documents, Err(Store(e)))
    case Ok(loaded) =>
      match agg.handle(loaded.state, command)
      case Err(rule) => Snapshotted(log, documents, Err(Rejected(rule)))
      case Ok(events) =>
        SaveIfDue(agg, codec, documents, id, policy, loaded, Commit(agg, log, id, loaded.version, events))
  }

  function HeldVersion<S, E, C, R>(
      agg: Aggregate<S, E, C, R>, codec: Codec<Snapshot<S>>, documents: Documents, id: string): nat
  {
    match StartingPoint(agg, codec, documents, id)
    case Err(_) => 0
    case Ok(start) => start.version
  }

  /** What a writer has after committing at the version it loaded: the state of the stream as it now is. */
  lemma CommittedState<S, E(!new), C, R>(
      agg: Aggregate<S, E, C, R>, log: Log, id: string, loaded: Loaded<S>, events: seq<E>)
    requires WellFormed(log) && Faithful(agg.events.codec)
    requires LoadState(agg, log, id) == Ok(loaded) && |events| > 0
    ensures var x := Commit(agg, log, id, loaded.version, events);
            && loaded.version == |Stream(log, agg.Key(id))|
            && Continues(log, x.log, agg.Key(id))
            && (x.outcome.Err? ==> x.outcome.error.Store?)
            && (x.outcome.Ok? ==>
                  && |x.outcome.value| == |events|
                  && x.outcome.value[|events| - 1].version == |Stream(x.log, agg.Key(id))|
                  && Known(agg, x.log, id, |Stream(x.log, agg.Key(id))|,
                           Fold(agg.apply, loaded.state, Payloads(x.outcome.value))))
  {
    hide Select, DecodeAll, Fold, Pushed, Records, EncodablePrefix, MaxVersion, WellFormed, Faithful, RenderOnto,
         LoadState;
    var key := agg.Key(id);
    KnownIsLoad(agg, log, id, loaded.version, loaded.state);
    AppendKeepsLog(log, key, ExpectedAfter(loaded.version), agg.events, events);
    AppendOutcome(log, key, ExpectedAfter(loaded.version), agg.events, events);
    AppendedIsKnown(agg, log, id, loaded.version, loaded.state, events);
  }

  lemma NothingCommitted<S, E, C, R>(agg: Aggregate<S, E, C, R>, log: Log, id: string, version: nat, events: seq<E>)
    requires |events| == 0
    ensures Commit(agg, log, id, version, events) == Executed(log, Ok([]))
  {
  }

  /** Alone, a snapshotting command does to the log what the plain command does, keeps the cache sound, and
      touches no other instance's snapshot. Its outcome differs only when the snapshot itself cannot be written. */
  lemma {:induction false} SnapshottingAlone<S(!new), E(!new), C, R>(
      agg: Aggregate<S, E, C, R>, codec: Codec<Snapshot<S>>, log: Log, documents: Documents,
      id: string, command: C, policy: Policy)
    requires Faithful(codec) && Faithful(agg.events.codec)
    requires WellFormed(log) && SnapshotsAreSound(agg, codec, log, documents)
    ensures var x := ExecuteSnapshotting(agg, codec, log, documents, id, command, policy);
            var plain := Execute(agg, log, id, command);
            && x.log == plain.log
            && SnapshotsAreSound(agg, codec, x.log, x.documents)
            && (x.outcome == plain.outcome
                || (plain.outcome.Ok? && plain.outcome.value != [] && x.outcome == Err(Store(Serialization))))
            && (plain.outcome.Err? ==> x.outcome == plain.outcome)
  {
    hide WellFormed, SnapshotsAreSound, Faithful, LoadState, LoadSnapshotted, Commit, Known, PutDocument, Fold, Payloads;
    SnapshotLoadIsFullLoad(agg, codec, log, documents, id);
    var loaded := LoadState(agg, log, id);
    if loaded.Ok? && agg.handle(loaded.value.state, command).Ok? {
      var decided := agg.handle(loaded.value.state, command).value;
      var x := Commit(agg, log, id, loaded.value.version, decided);
      if |decided| > 0 {
        CommittedState(agg, log, id, loaded.value, decided);
        SoundnessSurvivesGrowth(agg, codec, log, x.log, documents);
        if x.outcome.Ok? {
          var snapshot := Snapshot(x.outcome.value[|decided| - 1].version,
                                   Fold(agg.apply, loaded.value.state, Payloads(x.outcome.value)));
          if codec.encode(snapshot).Some? {
            SavingKnownIsSound(agg, codec, x.log, documents, id, snapshot);
          }
        }
      } else {
        NothingCommitted(agg, log, id, loaded.value.version, decided);
      }
    }
  }

  /** Exactly what a snapshotting command does, by what the plain command does: when that succeeds and the stream has
      crossed what the policy watches, the state it now has is saved at the version it now has; if that cannot be
      written the command fails although its events are committed. Otherwise the two do the same, and nothing is saved. */
  lemma {:induction false} SnapshotOutcomeIff<S, E(!new), C, R>(
      agg: Aggregate<S, E, C, R>, codec: Codec<Snapshot<S>>, log: Log, documents: Documents,
      id: string, command: C, policy: Policy)
    requires Faithful(agg.events.codec)
    requires WellFormed(log) && SnapshotsAreSound(agg, codec, log, documents)
    ensures var x := ExecuteSnapshotting(agg, codec, log, documents, id, command, policy);
            var plain := Execute(agg, log, id, command);
            var now := LoadState(agg, plain.log, id);
            if plain.outcome.Ok? && policy.IsDue(|Stream(log, agg.Key(id))|, |Stream(plain.log, agg.Key(id))|) then
              && now.Ok?
              && var text := codec.encode(Snapshot(now.value.version, now.value.state));
                 x == if text.None? then Snapshotted(plain.log, documents, Err(Store(Serialization)))
                      else Snapshotted(plain.log, PutDocument(documents, Collection(agg.kind), id, text.value),
                                       plain.outcome)
            else x == Snapshotted(plain.log, documents, plain.outcome)
  {
    hide WellFormed, SnapshotsAreSound, Faithful, LoadState, LoadSnapshotted, Commit, Known, PutDocument, Fold, Payloads,
         Stream;
    SnapshotLoadIsFullLoad(agg, codec, log, documents, id);
    var loaded := LoadState(agg, log, id);
    if loaded.Ok? && agg.handle(loaded.value.state, command).Ok? {
      var decided := agg.handle(loaded.value.state, command).value;
      var x := Commit(agg, log, id, loaded.value.version, decided);
      if |decided| > 0 {
        CommittedState(agg, log, id, loaded.value, decided);
        if x.outcome.Ok? {
          KnownIsLoad(agg, x.log, id, |Stream(x.log, agg.Key(id))|,
                      Fold(agg.apply, loaded.value.state, Payloads(x.outcome.value)));
        }
      } else {
        NothingCommitted(agg, log, id, loaded.value.version, decided);
      }
    }
  }

  /** The stream and its snapshot lie between the same two multiples of n. */
  ghost predicate TailIsShort<S, E, C, R>(
      agg: Aggregate<S, E, C, R>, codec: Codec<Snapshot<S>>, log: Log, documents: Documents, id: string, n: nat)
    requires n > 0
  {
    |Stream(log, agg.Key(id))| / n == HeldVersion(agg, codec, documents, id) / n
  }

  predicate StoreFailed<E, R>(outcome: Outcome<E, R>) {
    outcome.Err? && outcome.error.Store?
  }

  lemma NothingContinues(log: Log, key: StreamKey)
    requires WellFormed(log)
    ensures Continues(log, log, key)
  {
  }

  /** The cache after a snapshotting command that met no store failure: replaced by the new state when the stream
      crossed a multiple of n, and as it was when it did not. */
  lemma SavedExactlyWhenDue<S(!new), E(!new), C, R>(
      agg: Aggregate<S, E, C, R>, codec: Codec<Snapshot<S>>, log: Log, documents: Documents,
      id: string, command: C, policy: Policy)
    requires Faithful(agg.events.codec)
    requires WellFormed(log) && SnapshotsAreSound(agg, codec, log, documents)
    requires !StoreFailed(ExecuteSnapshotting(agg, codec, log, documents, id, command, policy).outcome)
    ensures var x := ExecuteSnapshotting(agg, codec, log, documents, id, command, policy);
            var before, after := |Stream(log, agg.Key(id))|, |Stream(x.log, agg.Key(id))|;
            && Continues(log, x.log, agg.Key(id))
            && if policy.IsDue(before, after) then
                 exists snapshot: Snapshot<S> ::
                   && snapshot.version == after && Known(agg, x.log, id, after, snapshot.state)
                   && codec.encode(snapshot).Some?
                   && x.documents == PutDocument(documents, Collection(agg.kind), id, codec.encode(snapshot).value)
               else x.documents == documents
  {
    hide WellFormed, SnapshotsAreSound, Faithful, LoadState, LoadSnapshotted, Commit, Known, PutDocument, Fold, Payloads,
         Stream, Continues;
    SnapshotLoadIsFullLoad(agg, codec, log, documents, id);
    NothingContinues(log, agg.Key(id));
    var loaded := LoadState(agg, log, id).value;
    var decided := agg.handle(loaded.state, command);
    if decided.Ok? {
      if |decided.value| > 0 {
        CommittedState(agg, log, id, loaded, decided.value);
      } else {
        NothingCommitted(agg, log, id, loaded.version, decided.value);
      }
    }
  }

  /** Every snapshotting command that meets no store failure keeps it so, for its own instance and for all others,
      whatever the size of its batch. */
  lemma {:induction false} TailStaysShort<S(!new), E(!new), C, R>(
      agg: Aggregate<S, E, C, R>, codec: Codec<Snapshot<S>>, log: Log, documents: Documents,
      id: string, command: C, n: nat, watched: string)
    requires Faithful(codec) && Faithful(agg.events.codec)
    requires WellFormed(log) && SnapshotsAreSound(agg, codec, log, documents)
    requires n > 0 && TailIsShort(agg, codec, log, documents, watched, n)
    requires !StoreFailed(ExecuteSnapshotting(agg, codec, log, documents, id, command, EveryNEvents(n)).outcome)
    ensures var x := ExecuteSnapshotting(agg, codec, log, documents, id, command, EveryNEvents(n));
            TailIsShort(agg, codec, x.log, x.documents, watched, n)
  {
    hide Select, WellFormed, SnapshotsAreSound, ExecuteSnapshotting, Known;
    var x := ExecuteSnapshotting(agg, codec, log, documents, id, command, EveryNEvents(n));
    var before, after := |Stream(log, agg.Key(id))|, |Stream(x.log, agg.Key(id))|;
    SavedExactlyWhenDue(agg, codec, log, documents, id, command, EveryNEvents(n));
    if before / n != after / n {
      var snapshot: Snapshot<S> :| snapshot.version == after && codec.encode(snapshot).Some?
        && x.documents == PutDocument(documents, Collection(agg.kind), id, codec.encode(snapshot).value);
      DocumentsAreIndependent(
        documents, Collection(agg.kind), id, codec.encode(snapshot).value, Collection(agg.kind), watched);
    }
  }

  /** A list of commands on any instances, each run after the one before; and whether none met a store failure. */
  function ExecuteAll<S, E, C, R>(
      agg: Aggregate<S, E, C, R>, codec: Codec<Snapshot<S>>, commands: seq<(string, C)>, policy: Policy)
    : (Log, Documents, bool)
  {
    if |commands| == 0 then ([], map[], true)
    else
      var n := |commands| - 1;
      var (log, documents, healthy) := ExecuteAll(agg, codec, commands[..n], policy);
      var x := ExecuteSnapshotting(agg, codec, log, documents, commands[n].0, commands[n].1, policy);
      (x.log, x.documents, healthy && !StoreFailed(x.outcome))
  }

  lemma ShortTailFoldsFew<S, E, C, R>(
      agg: Aggregate<S, E, C, R>, codec: Codec<Snapshot<S>>, log: Log, documents: Documents, id: string, n: nat)
    requires WellFormed(log) && SnapshotsAreSound(agg, codec, log, documents)
    requires n > 0 && TailIsShort(agg, codec, log, documents, id, n)
    ensures |Select(log, OfStreamAfter(agg.Key(id), HeldVersion(agg, codec, documents, id)), 0)| < n
  {
    hide Select, Stream, SnapshotsAreSound, WellFormed, DecodeAll, Fold;
    var held, length := HeldVersion(agg, codec, documents, id), |Stream(log, agg.Key(id))|;
    StartIsKnown(agg, codec, log, documents, id);
    SuffixScanIsDrop(log, agg.Key(id), held);
    QuotientBounds(length, n);
    QuotientBounds(held, n);
  }

  /** After any list of commands without a store failure, a snapshot load of any instance folds fewer than n events. */
  lemma {:induction false} TailBound<S(!new), E(!new), C, R>(
      agg: Aggregate<S, E, C, R>, codec: Codec<Snapshot<S>>, commands: seq<(string, C)>, n: nat, id: string)
    requires Faithful(codec) && Faithful(agg.events.codec) && n > 0
    ensures var (log, documents, healthy) := ExecuteAll(agg, codec, commands, EveryNEvents(n));
            && WellFormed(log) && SnapshotsAreSound(agg, codec, log, documents)
            && (healthy ==>
                  && TailIsShort(agg, codec, log, documents, id, n)
                  && |Select(log, OfStreamAfter(agg.Key(id), HeldVersion(agg, codec, documents, id)), 0)| < n)
  {
    var (log, documents, healthy) := ExecuteAll(agg, codec, commands, EveryNEvents(n));
    if |commands| > 0 {
      var k := |commands| - 1;
      TailBound(agg, codec, commands[..k], n, id);
      var (log0, documents0, healthy0) := ExecuteAll(agg, codec, commands[..k], EveryNEvents(n));
      SnapshottingAlone(agg, codec, log0, documents0, commands[k].0, commands[k].1, EveryNEvents(n));
      ExecuteAlone(agg, log0, commands[k].0, commands[k].1);
      if healthy {
        TailStaysShort(agg, codec, log0, documents0, commands[k].0, commands[k].1, n, id);
      }
    }
    if healthy {
      ShortTailFoldsFew(agg, codec, log, documents, id, n);
    }
  }
}
