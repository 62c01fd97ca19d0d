/** The service: what the imperative calls do, proved against the functions that define them. */
module Service {
  import opened Events
  import opened EventLog
  import opened MemoryStore
  import opened Aggregates
  import opened Snapshots

  // ---------------------------------------------------------------------------
  // Retrying amid rival writers
  // ---------------------------------------------------------------------------

  /** One append by somebody else, of events of any type, to any stream, at any expected revision. */
  datatype Rival = Rival(key: StreamKey, expected: ExpectedRevision, wires: seq<Wire>)

  function Interfere(log: Log, rivals: seq<Rival>): Log {
    if rivals == [] then log
    else
      var n := |rivals| - 1;
      TryAppend(Interfere(log, rivals[..n]), rivals[n].key, rivals[n].expected, WireEvents(), rivals[n].wires).log
  }

  lemma {:induction false} InterferenceOnlyExtends(log: Log, rivals: seq<Rival>)
    requires WellFormed(log)
    ensures WellFormed(Interfere(log, rivals)) && log <= Interfere(log, rivals)
  {
    if rivals != [] {
      var n := |rivals| - 1;
      InterferenceOnlyExtends(log, rivals[..n]);
      AppendKeepsLog(Interfere(log, rivals[..n]), rivals[n].key, rivals[n].expected, WireEvents(), rivals[n].wires);
    }
  }

  /** One attempt: the rivals write after this client has loaded and decided, before it appends. */
  function Attempt<S, E, C, R>(
      agg: Aggregate<S, E, C, R>, log: Log, id: string, command: C, rivals: seq<Rival>): Executed<E, R>
  {
    match LoadState(agg, log, id)
    case Err(e) => Executed(log, Err(Store(e)))
    case Ok(loaded) =>
      match agg.handle(loaded.state, command)
      case Err(rule) => Executed(log, Err(Rejected(rule)))
      case Ok(events) =>
        if |events| == 0 then Executed(log, Ok([]))
        else Commit(agg, Interfere(log, rivals), id, loaded.version, events)
  }

  datatype Retried<+E, +R> = Retried(log: Log, outcome: Outcome<E, R>, retries: nat)

  function BurstAt(bursts: seq<seq<Rival>>, i: nat): seq<Rival> {
    if i < |bursts| then bursts[i] else []
  }

  /** Attempts from the `from`-th on; `bursts[i]` is what rivals write inside the window of attempt i. */
  function RetryFrom<S, E, C, R>(
      agg: Aggregate<S, E, C, R>, log: Log, id: string, command: C, max: nat, bursts: seq<seq<Rival>>, from: nat)
    : Retried<E, R>
    requires from <= max
    decreases max - from
  {
    var x := Attempt(agg, log, id, command, BurstAt(bursts, from));
    if IsConflict(x.outcome) && from < max then RetryFrom(agg, x.log, id, command, max, bursts, from + 1)
    else Retried(x.log, x.outcome, from)
  }

  /** The log when only the rivals of the windows from..upto have written. */
  function Bursts(log: Log, bursts: seq<seq<Rival>>, from: nat, upto: nat): Log
    requires from <= upto
    decreases upto - from
  {
    if from == upto then log else Bursts(Interfere(log, BurstAt(bursts, from)), bursts, from + 1, upto)
  }

  /** The command, decided now, would write something. */
  predicate Wants<S, E, C, R>(agg: Aggregate<S, E, C, R>, log: Log, id: string, command: C) {
    var loaded := LoadState(agg, log, id);
    loaded.Ok? &&
    var decided := agg.handle(loaded.value.state, command);
    decided.Ok? && |decided.value| > 0
  }

  /** An attempt is refused exactly when its decision is non-empty and its window saw a write to its stream; a
      refused attempt writes nothing. Otherwise it is the command run alone, at its append when the decision is
      non-empty and at its load when it is not. */
  lemma AttemptIsExecute<S, E, C, R>(
      agg: Aggregate<S, E, C, R>, log: Log, id: string, command: C, rivals: seq<Rival>)
    requires WellFormed(log)
    ensures var x := Attempt(agg, log, id, command, rivals);
            var after := Interfere(log, rivals);
            && WellFormed(x.log) && log <= x.log
            && (IsConflict(x.outcome) <==>
                  Wants(agg, log, id, command) && |Stream(after, agg.Key(id))| > |Stream(log, agg.Key(id))|)
            && (IsConflict(x.outcome) ==> x.log == after)
            && (!IsConflict(x.outcome) ==>
                  x == Execute(agg, if Wants(agg, log, id, command) then after else log, id, command))
  {
    hide Select, DecodeAll, Fold, Pushed, Records, EncodablePrefix, MaxVersion, WellFormed;
    var loaded := LoadState(agg, log, id);
    DecodeErrs(agg.events.codec, Stream(log, agg.Key(id)));
    if Wants(agg, log, id, command) {
      var version, state := loaded.value.version, loaded.value.state;
      var events := agg.handle(state, command).value;
      var after := Interfere(log, rivals);
      InterferenceOnlyExtends(log, rivals);
      KnownIsLoad(agg, log, id, version, state);
      KnownStaysKnown(agg, log, after, id, version, state);
      AppendKeepsLog(after, agg.Key(id), ExpectedAfter(version), agg.events, events);
      RefusedMeansMoved(agg, after, id, version, events);
      if !IsConflict(Commit(agg, after, id, version, events).outcome) {
        AppendIsExecute(agg, after, id, version, state, command, events);
      }
    }
  }

  /** Attempt i loads the log the first i bursts left behind, wants to write, and loses its window to a rival. */
  predicate LosesWindow<S, E, C, R>(
      agg: Aggregate<S, E, C, R>, log: Log, id: string, command: C, bursts: seq<seq<Rival>>, from: nat, i: nat)
    requires from <= i
  {
    var here := Bursts(log, bursts, from, i);
    && Wants(agg, here, id, command)
    && |Stream(Interfere(here, BurstAt(bursts, i)), agg.Key(id))| > |Stream(here, agg.Key(id))|
  }

  /** Retrying commits at most once and makes at most max + 1 attempts. It ends in a conflict exactly when every one
      of those attempts lost its window, and then it wrote nothing. Otherwise its result and its one write are
      those of the command run alone, after the rivals of the lost windows and, if it writes, of its last one. */
  lemma {:induction false} RetryCommitsAtMostOnce<S, E, C, R>(
      agg: Aggregate<S, E, C, R>, log: Log, id: string, command: C, max: nat, bursts: seq<seq<Rival>>, from: nat)
    requires WellFormed(log) && from <= max
    ensures var x := RetryFrom(agg, log, id, command, max, bursts, from);
            && WellFormed(x.log)
            && from <= x.retries <= max
            && (forall i | from <= i < x.retries :: LosesWindow(agg, log, id, command, bursts, from, i))
            && (IsConflict(x.outcome) <==> forall i | from <= i <= max ::
                  LosesWindow(agg, log, id, command, bursts, from, i))
            && (IsConflict(x.outcome) ==>
                  x.retries == max && x.log == Bursts(log, bursts, from, max + 1))
            && (!IsConflict(x.outcome) ==>
                  var loaded := Bursts(log, bursts, from, x.retries);
                  var seen := if Wants(agg, loaded, id, command)
                              then Bursts(log, bursts, from, x.retries + 1) else loaded;
                  Execute(agg, seen, id, command) == Executed(x.log, x.outcome))
    decreases max - from
  {
    hide LoadState, Select, Interfere, Execute, Attempt, Wants;
    var burst := BurstAt(bursts, from);
    var x := Attempt(agg, log, id, command, burst);
    AttemptIsExecute(agg, log, id, command, burst);
    assert Bursts(log, bursts, from, from) == log;
    assert Bursts(log, bursts, from, from + 1) == Interfere(log, burst) by {
      assert Bursts(Interfere(log, burst), bursts, from + 1, from + 1) == Interfere(log, burst);
    }
    assert IsConflict(x.outcome) <==> LosesWindow(agg, log, id, command, bursts, from, from);
    if IsConflict(x.outcome) && from < max {
      var next := from + 1;
      RetryCommitsAtMostOnce(agg, x.log, id, command, max, bursts, next);
      forall i | next <= i <= max
        ensures LosesWindow(agg, x.log, id, command, bursts, next, i)
           <==> LosesWindow(agg, log, id, command, bursts, from, i)
      {
        assert Bursts(log, bursts, from, i) == Bursts(x.log, bursts, next, i);
      }
      assert (forall i | next <= i <= max :: LosesWindow(agg, x.log, id, command, bursts, next, i))
        <==> (forall i | next <= i <= max :: LosesWindow(agg, log, id, command, bursts, from, i));
    }
  }

  // ---------------------------------------------------------------------------
  // The service itself
  // ---------------------------------------------------------------------------


  class Service<S, E, C, R> {
    const store: MemoryStore
    const agg: Aggregate<S, E, C, R>
    const codec: Codec<Snapshot<S>>

    constructor (store: MemoryStore, agg: Aggregate<S, E, C, R>, codec: Codec<Snapshot<S>>)
      ensures this.store == store && this.agg == agg && this.codec == codec
    {
      this.store, this.agg, this.codec := store, agg, codec;
    }

    /** Render the full stream; the version is that of its last event. */
    method Load(id: string) returns (result: Result<Loaded<S>, StoreError>)
      requires store.Valid()
      ensures result == LoadState(agg, store.log, id)
    {
      var events := store.Load(agg.Key(id), agg.events);
      if events.Err? {
        return Err(events.error);
      }
      var version := if |events.value| == 0 then 0 else events.value[|events.value| - 1].version;
      var state := RenderFrom(agg, events.value);
      WellFormedIsContiguous(store.log, agg.Key(id));
      DecodeAllShape(agg.events.codec, Stream(store.log, agg.Key(id)));
      return Ok(Loaded(state, version));
    }

    /** The shared tail of every write path. */
    method AppendDecided(id: string, expected: ExpectedRevision, events: seq<E>)
      returns (outcome: Outcome<E, R>)
      requires store.Valid()
      modifies store`log
      ensures store.Valid()
      ensures |events| == 0 ==> store.log == old(store.log) && outcome == Ok([])
      ensures |events| > 0 ==>
                var a := TryAppend(old(store.log), agg.Key(id), expected, agg.events, events);
                store.log == a.log && outcome == FromStore(a.result)
    {
      if |events| == 0 {
        return Ok([]);
      }
      var result := store.Append(agg.Key(id), expected, agg.events, events);
      return FromStore(result);
    }

    /** Load, decide, append, with nobody in between. */
    method Execute(id: string, command: C) returns (outcome: Outcome<E, R>)
      requires store.Valid()
      modifies store`log
      ensures store.Valid()
      ensures Aggregates.Execute(agg, old(store.log), id, command) == Executed(store.log, outcome)
    {
      outcome := ExecuteAmid(id, command, []);
    }

    /** Load, decide, append, with rivals writing between the load and the append. */
    method ExecuteAmid(id: string, command: C, rivals: seq<Rival>) returns (outcome: Outcome<E, R>)
      requires store.Valid()
      modifies store`log
      ensures store.Valid()
      ensures Attempt(agg, old(store.log), id, command, rivals) == Executed(store.log, outcome)
    {
      hide Select, DecodeAll, WellFormed, TryAppend;
      var loaded := Load(id);
      if loaded.Err? {
        return Err(Store(loaded.error));
      }
      var decided := agg.handle(loaded.value.state, command);
      if decided.Err? {
        return Err(Rejected(decided.error));
      }
      if |decided.value| > 0 {
        RivalsWrite(rivals);
      }
      outcome := AppendDecided(id, ExpectedAfter(loaded.value.version), decided.value);
    }

    /** The other writers of the same store, one atomic append after the other. */
    method RivalsWrite(rivals: seq<Rival>)
      requires store.Valid()
      modifies store`log
      ensures store.Valid()
      ensures store.log == Interfere(old(store.log), rivals)
    {
      hide TryAppend, WellFormed;
      for i := 0 to |rivals|
        invariant store.Valid()
        invariant store.log == Interfere(old(store.log), rivals[..i])
      {
        assert rivals[..i + 1][..i] == rivals[..i];
        var _ := store.Append(rivals[i].key, rivals[i].expected, WireEvents(), rivals[i].wires);
      }
      assert rivals[..|rivals|] == rivals;
    }

    /** Retry on a conflict, and on nothing else, up to `max` extra attempts. */
    method ExecuteWithRetry(id: string, command: C, max: nat, bursts: seq<seq<Rival>>)
      returns (outcome: Outcome<E, R>, attempts: nat)
      requires store.Valid()
      modifies store`log
      ensures store.Valid()
      ensures RetryFrom(agg, old(store.log), id, command, max, bursts, 0) == Retried(store.log, outcome, attempts)
    {
      hide Attempt, WellFormed;
      attempts := 0;
      while true
        invariant store.Valid() && attempts <= max
        invariant RetryFrom(agg, old(store.log), id, command, max, bursts, 0)
               == RetryFrom(agg, store.log, id, command, max, bursts, attempts)
        decreases max - attempts
      {
        outcome := ExecuteAmid(id, command, BurstAt(bursts, attempts));
        if IsConflict(outcome) && attempts < max {
          attempts := attempts + 1;
        } else {
          return;
        }
      }
    }

    /** Start from the stored snapshot if there is one, and fold only what came after it. */
    method LoadSnapshotted(id: string) returns (result: Result<Loaded<S>, StoreError>)
      requires store.Valid()
      ensures result == Snapshots.LoadSnapshotted(agg, codec, store.log, store.documents, id)
    {
      hide Select, DecodeAll, WellFormed, Fold;
      var snapshot := store.Fetch(Collection(agg.kind), id, codec);
      if snapshot.Err? {
        return Err(snapshot.error);
      }
      var state, from := agg.initial, 0;
      if snapshot.value.Some? {
        state, from := snapshot.value.value.state, snapshot.value.value.version;
      }
      var tail := store.LoadFrom(agg.Key(id), from, agg.events);
      SuffixScanIsDrop(store.log, agg.Key(id), from);
      if tail.Err? {
        return Err(tail.error);
      }
      DecodeAllShape(agg.events.codec, Select(store.log, OfStreamAfter(agg.Key(id), from), 0));
      var version := if |tail.value| == 0 then from else tail.value[|tail.value| - 1].version;
      state := ApplyAll(agg, state, tail.value);
      return Ok(Loaded(state, version));
    }

    method SaveSnapshot(id: string, state: S, version: nat) returns (result: Result<(), StoreError>)
      modifies store`documents
      ensures codec.encode(Snapshot(version, state)).None? ==>
                result == Err(Serialization) && store.documents == old(store.documents)
      ensures codec.encode(Snapshot(version, state)).Some? ==>
                && result == Ok(())
                && store.documents == PutDocument(old(store.documents), Collection(agg.kind), id,
                                                  codec.encode(Snapshot(version, state)).value)
    {
      result := store.Save(Collection(agg.kind), id, codec, Snapshot(version, state));
    }

    /** Execute from the fast path, then save a snapshot when the policy says one is due. */
    method ExecuteSnapshotting(id: string, command: C, policy: Policy) returns (outcome: Outcome<E, R>)
      requires store.Valid()
      modifies store
      ensures store.Valid()
      ensures Snapshots.ExecuteSnapshotting(agg, codec, old(store.log), old(store.documents), id, command, policy)
           == Snapshotted(store.log, store.documents, outcome)
    {
      hide Select, DecodeAll, WellFormed, TryAppend, Fold, Snapshots.LoadSnapshotted;
      var loaded := LoadSnapshotted(id);
      if loaded.Err? {
        return Err(Store(loaded.error));
      }
      var state, version := loaded.value.state, loaded.value.version;
      var decided := agg.handle(state, command);
      if decided.Err? {
        return Err(Rejected(decided.error));
      }
      outcome := AppendDecided(id, ExpectedAfter(version), decided.value);
      if outcome.Ok? && |outcome.value| > 0 {
        var last := outcome.value[|outcome.value| - 1];
        if policy.IsDue(version, last.version) {
          state := ApplyAll(agg, state, outcome.value);
          var saved := SaveSnapshot(id, state, last.version);
          if saved.Err? {
            outcome := Err(Store(saved.error));
          }
        }
      }
    }
  }
}
