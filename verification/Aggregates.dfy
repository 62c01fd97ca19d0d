/** Aggregates as pure deciders over folded history, and what a reader of a stream may rely on later. */
module Aggregates {
  import opened Events
  import opened EventLog

  /** The four things an aggregate supplies, and the name and types of its events. Deciding never mutates. */
  datatype Aggregate<!S, !E, !C, !R> = Aggregate(
    kind: string,
    initial: S,
    apply: (S, E) -> S,
    handle: (S, C) -> Result<seq<E>, R>,
    events: EventType<E>)
  {
    function Key(id: string): StreamKey {
      StreamKey(kind, id)
    }
  }

  function Fold<S, E>(apply: (S, E) -> S, state: S, events: seq<E>): S {
    if |events| == 0 then state
    else apply(Fold(apply, state, events[..|events| - 1]), events[|events| - 1])
  }

  lemma {:induction false} FoldConcat<S, E>(apply: (S, E) -> S, state: S, a: seq<E>, b: seq<E>)
    ensures Fold(apply, state, a + b) == Fold(apply, Fold(apply, state, a), b)
  {
    if |b| == 0 {
      assert a + b == a;
    } else {
      var n := |b| - 1;
      FoldConcat(apply, state, a, b[..n]);
      assert (a + b)[..|a + b| - 1] == a + b[..n];
      assert (a + b)[|a + b| - 1] == b[n];
    }
  }

  function Payloads<E>(rs: seq<Recorded<E>>): (ps: seq<E>)
    ensures |ps| == |rs| && forall i | 0 <= i < |rs| :: ps[i] == rs[i].payload
  {
    if |rs| == 0 then [] else Payloads(rs[..|rs| - 1]) + [rs[|rs| - 1].payload]
  }

  /** Fold plain payloads into a fresh state. */
  method Render<S, E, C, R>(agg: Aggregate<S, E, C, R>, events: seq<E>) returns (state: S)
    ensures state == Fold(agg.apply, agg.initial, events)
  {
    state := agg.initial;
    for i := 0 to |events|
      invariant state == Fold(agg.apply, agg.initial, events[..i])
    {
      assert events[..i + 1][..i] == events[..i];
      state := agg.apply(state, events[i]);
    }
    assert events[..|events|] == events;
  }

  /** Fold stored events onto a state that is already there. */
  method ApplyAll<S, E, C, R>(agg: Aggregate<S, E, C, R>, base: S, events: seq<Recorded<E>>) returns (state: S)
    ensures state == Fold(agg.apply, base, Payloads(events))
  {
    state := base;
    for i := 0 to |events|
      invariant state == Fold(agg.apply, base, Payloads(events)[..i])
    {
      assert Payloads(events)[..i + 1][..i] == Payloads(events)[..i];
      state := agg.apply(state, events[i].payload);
    }
    assert Payloads(events)[..|events|] == Payloads(events);
  }

  /** Fold stored events into a fresh state. */
  method RenderFrom<S, E, C, R>(agg: Aggregate<S, E, C, R>, events: seq<Recorded<E>>) returns (state: S)
    ensures state == Fold(agg.apply, agg.initial, Payloads(events))
  {
    state := ApplyAll(agg, agg.initial, events);
  }

  // ---------------------------------------------------------------------------
  // Reading a stream
  // ---------------------------------------------------------------------------

  /** A rendered state and the version it reflects. */
  datatype Loaded<+S> = Loaded(state: S, version: nat)

  function RenderOnto<S, E, C, R>(agg: Aggregate<S, E, C, R>, base: S, ls: seq<Located>): Result<S, StoreError> {
    match DecodeAll(agg.events.codec, ls)
    case Err(e) => Err(e)
    case Ok(rs) => Ok(Fold(agg.apply, base, Payloads(rs)))
  }

  /** The full render of one instance and the version of its last event. */
  function LoadState<S, E, C, R>(agg: Aggregate<S, E, C, R>, log: Log, id: string): Result<Loaded<S>, StoreError> {
    var stream := Stream(log, agg.Key(id));
    match RenderOnto(agg, agg.initial, stream)
    case Err(e) => Err(e)
    case Ok(state) => Ok(Loaded(state, |stream|))
  }

  /** The snapshot path: fold only what is recorded beyond `version` onto the snapshot's state. */
  function LoadTail<S, E, C, R>(agg: Aggregate<S, E, C, R>, log: Log, id: string, base: S, version: nat)
    : Result<Loaded<S>, StoreError>
  {
    var tail := Select(log, OfStreamAfter(agg.Key(id), version), 0);
    match RenderOnto(agg, base, tail)
    case Err(e) => Err(e)
    case Ok(state) => Ok(Loaded(state, if tail == [] then version else tail[|tail| - 1].stored.version))
  }

  /** `state` is the render of the first `version` events of the instance. */
  ghost predicate Known<S, E, C, R>(agg: Aggregate<S, E, C, R>, log: Log, id: string, version: nat, state: S) {
    var stream := Stream(log, agg.Key(id));
    version <= |stream| && RenderOnto(agg, agg.initial, stream[..version]) == Ok(state)
  }

  lemma DecodeErrs<E>(codec: Codec<E>, ls: seq<Located>)
    ensures DecodeAll(codec, ls).Err? ==> DecodeAll(codec, ls).error == Serialization
  {
  }

  lemma RenderConcat<S, E, C, R>(agg: Aggregate<S, E, C, R>, base: S, a: seq<Located>, b: seq<Located>)
    requires RenderOnto(agg, base, a).Ok?
    ensures RenderOnto(agg, base, a + b) == RenderOnto(agg, RenderOnto(agg, base, a).value, b)
  {
    hide DecodeAll, Fold;
    var codec := agg.events.codec;
    DecodeAllConcat(codec, a, b);
    DecodeErrs(codec, b);
    if DecodeAll(codec, b).Ok? {
      var x, y := DecodeAll(codec, a).value, DecodeAll(codec, b).value;
      assert Payloads(x + y) == Payloads(x) + Payloads(y);
      FoldConcat(agg.apply, base, Payloads(x), Payloads(y));
    }
  }

  lemma NothingIsKnown<S, E, C, R>(agg: Aggregate<S, E, C, R>, log: Log, id: string)
    ensures Known(agg, log, id, 0, agg.initial)
  {
  }

  /** Knowledge never expires: the log only grows, so the first `version` events stay what they were. */
  lemma KnownStaysKnown<S, E, C, R>(
      agg: Aggregate<S, E, C, R>, log: Log, longer: Log, id: string, version: nat, state: S)
    requires log <= longer && Known(agg, log, id, version, state)
    ensures Known(agg, longer, id, version, state)
  {
    SelectGrows(log, longer, OfStream(agg.Key(id)), 0);
    assert Stream(longer, agg.Key(id))[..version] == Stream(log, agg.Key(id))[..version];
  }

  /** Knowing the state at the stream's current length is knowing what a load returns now. */
  lemma KnownIsLoad<S, E, C, R>(agg: Aggregate<S, E, C, R>, log: Log, id: string, version: nat, state: S)
    ensures LoadState(agg, log, id) == Ok(Loaded(state, version))
       <==> Known(agg, log, id, version, state) && version == |Stream(log, agg.Key(id))|
  {
    var stream := Stream(log, agg.Key(id));
    assert stream[..|stream|] == stream;
  }

  /** Folding the suffix beyond a known state gives exactly the full load: state, revision and errors. */
  lemma TailLoadIsFullLoad<S, E, C, R>(
      agg: Aggregate<S, E, C, R>, log: Log, id: string, version: nat, state: S)
    requires WellFormed(log) && Known(agg, log, id, version, state)
    ensures LoadTail(agg, log, id, state, version) == LoadState(agg, log, id)
  {
    hide Select, WellFormed, DecodeAll, Fold, Payloads;
    var key := agg.Key(id);
    var stream := Stream(log, key);
    SuffixScanIsDrop(log, key, version);
    WellFormedIsContiguous(log, key);
    assert stream == stream[..version] + stream[version..];
    RenderConcat(agg, agg.initial, stream[..version], stream[version..]);
  }

  /** A writer that decided from a known state and whose append succeeded knows the state it produced. */
  lemma AppendedIsKnown<S, E(!new), C, R>(
      agg: Aggregate<S, E, C, R>, log: Log, id: string, version: nat, state: S, events: seq<E>)
    requires WellFormed(log) && Faithful(agg.events.codec)
    requires Known(agg, log, id, version, state)
    requires |events| > 0
    ensures var a := TryAppend(log, agg.Key(id), ExpectedAfter(version), agg.events, events);
            a.result.Ok? ==>
              && |a.result.value| == |events| && Payloads(a.result.value) == events
              && a.result.value[|events| - 1].version == version + |events|
              && Known(agg, a.log, id, version + |events|, Fold(agg.apply, state, events))
  {
    hide Select, WellFormed, DecodeAll, Fold, Payloads, Pushed, Records, MaxVersion, EncodablePrefix;
    var key := agg.Key(id);
    var a := TryAppend(log, key, ExpectedAfter(version), agg.events, events);
    if a.result.Ok? {
      AppendOutcome(log, key, ExpectedAfter(version), agg.events, events);
      AppendKeepsLog(log, key, ExpectedAfter(version), agg.events, events);
      AppendReadsBack(log, key, ExpectedAfter(version), agg.events, events);
      MaxVersionIsLength(log, key);
      RecordsShape(key, version, |log|, agg.events, events);
      var before, after := Stream(log, key), Stream(a.log, key);
      assert before[..version] == before;
      assert after == before + after[|before|..];
      RenderConcat(agg, agg.initial, before, after[|before|..]);
      assert after[..version + |events|] == after;
    }
  }

  // ---------------------------------------------------------------------------
  // One command run alone
  // ---------------------------------------------------------------------------

  /** A broken business rule and a plumbing failure stay apart. */
  datatype ServiceError<+R> = Rejected(rejection: R) | Store(error: StoreError)

  type Outcome<+E, +R> = Result<seq<Recorded<E>>, ServiceError<R>>

  predicate IsConflict<E, R>(outcome: Outcome<E, R>) {
    outcome.Err? && outcome.error.Store? && outcome.error.error.Conflict?
  }

  function FromStore<E, R>(result: Result<seq<Recorded<E>>, StoreError>): Outcome<E, R> {
    match result
    case Ok(rs) => Ok(rs)
    case Err(e) => Err(Store(e))
  }

  datatype Executed<+E, +R> = Executed(log: Log, outcome: Outcome<E, R>)

  /** The shared tail of every write path: an empty decision is done, the rest is appended at the loaded revision. */
  function Commit<S, E, C, R>(agg: Aggregate<S, E, C, R>, log: Log, id: string, version: nat, events: seq<E>)
    : Executed<E, R>
  {
    if |events| == 0 then Executed(log, Ok([]))
    else
      var a := TryAppend(log, agg.Key(id), ExpectedAfter(version), agg.events, events);
      Executed(a.log, FromStore(a.result))
  }

  /** Load, render, decide and append with nobody in between: the meaning of one command. */
  function Execute<S, E, C, R>(agg: Aggregate<S, E, C, R>, log: Log, id: string, command: C): Executed<E, R> {
    match LoadState(agg, log, id)
    case Err(e) => Executed(log, Err(Store(e)))
    case Ok(loaded) =>
      match agg.handle(loaded.state, command)
      case Err(rule) => Executed(log, Err(Rejected(rule)))
      case Ok(events) => Commit(agg, log, id, loaded.version, events)
  }

  /** Alone, a command never conflicts and only ever extends its own stream. */
  lemma {:induction false} ExecuteAlone<S, E, C, R>(agg: Aggregate<S, E, C, R>, log: Log, id: string, command: C)
    requires WellFormed(log)
    ensures var x := Execute(agg, log, id, command);
            && Continues(log, x.log, agg.Key(id))
            && !IsConflict(x.outcome)
            && (x.outcome.Err? && x.outcome.error.Rejected? ==> x.log == log)
            && (x.outcome.Ok? ==> |x.log| == |log| + |x.outcome.value|)
  {
    var loaded := LoadState(agg, log, id);
    DecodeErrs(agg.events.codec, Stream(log, agg.Key(id)));
    if loaded.Ok? {
      var decided := agg.handle(loaded.value.state, command);
      if decided.Ok? && |decided.value| > 0 {
        AppendKeepsLog(log, agg.Key(id), ExpectedAfter(loaded.value.version), agg.events, decided.value);
        AppendOutcome(log, agg.Key(id), ExpectedAfter(loaded.value.version), agg.events, decided.value);
      }
    }
  }

  /** The three ways a command alone can end, each exactly when: rejected with the decider's own reason, recorded when
      everything it decided encodes, and failed on text that cannot be read or written otherwise. */
  lemma {:induction false} ExecuteOutcomeIff<S, E, C, R>(
      agg: Aggregate<S, E, C, R>, log: Log, id: string, command: C, rule: R)
    requires WellFormed(log)
    ensures var outcome := Execute(agg, log, id, command).outcome;
            var loaded := LoadState(agg, log, id);
            && (outcome == Err(Rejected(rule)) <==> loaded.Ok? && agg.handle(loaded.value.state, command) == Err(rule))
            && (outcome.Ok? <==>
                  loaded.Ok? && agg.handle(loaded.value.state, command).Ok?
                  && Encodable(agg.events, agg.handle(loaded.value.state, command).value))
            && (outcome.Err? && outcome.error.Store? ==> outcome.error.error == Serialization)
  {
    hide Select, DecodeAll, WellFormed, Fold, Pushed, Records, EncodablePrefix, MaxVersion;
    var loaded := LoadState(agg, log, id);
    DecodeErrs(agg.events.codec, Stream(log, agg.Key(id)));
    if loaded.Ok? && agg.handle(loaded.value.state, command).Ok? {
      var events, version := agg.handle(loaded.value.state, command).value, loaded.value.version;
      KnownIsLoad(agg, log, id, version, loaded.value.state);
      if |events| > 0 {
        AppendOutcome(log, agg.Key(id), ExpectedAfter(version), agg.events, events);
      }
    }
  }

  /** The heart of optimistic concurrency: a decision taken from any earlier known state, once its append is not
      refused, is exactly what the command does when run alone on the log the append found. */
  lemma AppendIsExecute<S, E, C, R>(
      agg: Aggregate<S, E, C, R>, log: Log, id: string, version: nat, state: S, command: C, events: seq<E>)
    requires WellFormed(log) && Known(agg, log, id, version, state)
    requires agg.handle(state, command) == Ok(events)
    requires !IsConflict(Commit(agg, log, id, version, events).outcome) && |events| > 0
    ensures Commit(agg, log, id, version, events) == Execute(agg, log, id, command)
    ensures version == |Stream(log, agg.Key(id))|
  {
    AppendOutcome(log, agg.Key(id), ExpectedAfter(version), agg.events, events);
    KnownIsLoad(agg, log, id, version, state);
  }

  /** And a refused append means the stream has moved on since that state was read. */
  lemma RefusedMeansMoved<S, E, C, R>(
      agg: Aggregate<S, E, C, R>, log: Log, id: string, version: nat, events: seq<E>)
    requires WellFormed(log) && version <= |Stream(log, agg.Key(id))|
    ensures IsConflict(Commit(agg, log, id, version, events).outcome)
       <==> |events| > 0 && version < |Stream(log, agg.Key(id))|
    ensures IsConflict(Commit(agg, log, id, version, events).outcome) ==>
              Commit(agg, log, id, version, events).log == log
  {
    if |events| > 0 {
      AppendOutcome(log, agg.Key(id), ExpectedAfter(version), agg.events, events);
    }
  }

  lemma NothingDecodes<E>(codec: Codec<E>, ls: seq<Located>)
    ensures DecodeAll(codec, ls[|ls|..]) == Ok([])
  {
  }

  /** A command that reports events has appended exactly those, decided from the state right before them. */
  lemma {:induction false} ExecuteWrites<S, E(!new), C, R>(agg: Aggregate<S, E, C, R>, log: Log, id: string, command: C)
    requires WellFormed(log) && Faithful(agg.events.codec)
    ensures var x := Execute(agg, log, id, command);
            x.outcome.Ok? ==>
              var loaded := LoadState(agg, log, id);
              && loaded.Ok? && agg.handle(loaded.value.state, command) == Ok(Payloads(x.outcome.value))
              && Stream(log, agg.Key(id)) <= Stream(x.log, agg.Key(id))
              && DecodeAll(agg.events.codec, Stream(x.log, agg.Key(id))[|Stream(log, agg.Key(id))|..])
              == Ok(x.outcome.value)
              && |x.log| == |log| + |x.outcome.value|
  {
    hide Select, DecodeAll, WellFormed, Fold, Pushed, Records, EncodablePrefix, MaxVersion;
    var x := Execute(agg, log, id, command);
    if x.outcome.Ok? {
      var loaded := LoadState(agg, log, id).value;
      var events := agg.handle(loaded.state, command).value;
      KnownIsLoad(agg, log, id, loaded.version, loaded.state);
      if |events| > 0 {
        AppendedIsKnown(agg, log, id, loaded.version, loaded.state, events);
        AppendReadsBack(log, agg.Key(id), ExpectedAfter(loaded.version), agg.events, events);
      } else {
        NothingDecodes(agg.events.codec, Stream(log, agg.Key(id)));
        assert Payloads<E>([]) == events;
      }
      ExecuteAlone(agg, log, id, command);
    }
  }
}
