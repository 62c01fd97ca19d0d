/** The steps of a client are the steps of the service: a schedule of them gives what the imperative calls give. */
module Refinement {
  import opened Events
  import opened EventLog
  import opened MemoryStore
  import opened Aggregates
  import opened Snapshots
  import opened Service
  import opened Protocol

  lemma DoOne<S, E, C, R>(
      agg: Aggregate<S, E, C, R>, codec: Codec<Snapshot<S>>, sys: System<S, E, C, R>, step: Step<C>)
    ensures DoAll(agg, codec, sys, [step]) == Do(agg, codec, sys, step)
  {
    hide Do;
    assert DoAll(agg, codec, Do(agg, codec, sys, step), []) == Do(agg, codec, sys, step);
  }

  lemma {:induction false} DoAllConcat<S, E, C, R>(
      agg: Aggregate<S, E, C, R>, codec: Codec<Snapshot<S>>, sys: System<S, E, C, R>, a: seq<Step<C>>, b: seq<Step<C>>)
    ensures DoAll(agg, codec, sys, a + b) == DoAll(agg, codec, DoAll(agg, codec, sys, a), b)
    decreases |a|
  {
    hide Do;
    if |a| == 0 {
      assert a + b == b;
    } else {
      DoAllConcat(agg, codec, Do(agg, codec, sys, a[0]), a[1..], b);
      assert (a + b)[0] == a[0] && (a + b)[1..] == a[1..] + b;
    }
  }

  // ---------------------------------------------------------------------------
  // Retrying amid rivals
  // ---------------------------------------------------------------------------


  function RivalSteps<C>(rivals: seq<Rival>): seq<Step<C>> {
    if rivals == [] then [] else RivalSteps(rivals[..|rivals| - 1]) + [OtherAppends(rivals[|rivals| - 1])]
  }

  lemma DoNone<S, E, C, R>(agg: Aggregate<S, E, C, R>, codec: Codec<Snapshot<S>>, sys: System<S, E, C, R>)
    ensures DoAll(agg, codec, sys, []) == sys
  {
  }

  lemma {:induction false} RivalsInterfere<S, E, C, R>(
      agg: Aggregate<S, E, C, R>, codec: Codec<Snapshot<S>>, sys: System<S, E, C, R>, rivals: seq<Rival>)
    ensures var after := DoAll(agg, codec, sys, RivalSteps(rivals));
            && after.log == Interfere(sys.log, rivals)
            && after.clients == sys.clients && after.documents == sys.documents
  {
    hide TryAppend, DoAll, Next;
    if rivals == [] {
      DoNone(agg, codec, sys);
    } else {
      var n := |rivals| - 1;
      RivalsInterfere(agg, codec, sys, rivals[..n]);
      var last: Step<C> := OtherAppends(rivals[n]);
      DoAllConcat(agg, codec, sys, RivalSteps(rivals[..n]), [last]);
      DoOne(agg, codec, DoAll(agg, codec, sys, RivalSteps(rivals[..n])), last);
    }
  }

  /** One attempt: the client loads; if it wants to write, the rivals write and the client appends. */
  function AttemptSteps<S, E, C, R>(
      agg: Aggregate<S, E, C, R>, log: Log, i: nat, id: string, command: C, rivals: seq<Rival>): seq<Step<C>>
  {
    if Wants(agg, log, id, command) then [Advance(i)] + RivalSteps(rivals) + [Advance(i)] else [Advance(i)]
  }

  /** The client stands after the attempt as the retry loop does: before the next one, or done with its outcome. */
  ghost predicate AttemptedAs<S, E, C, R>(
      before: Client<S, E, C, R>, after: System<S, E, C, R>, i: nat, x: Executed<E, R>)
  {
    && after.log == x.log && i in after.clients
    && var c := after.clients[i];
       && c.id == before.id && c.command == before.command && c.mode == before.mode
       && if IsConflict(x.outcome) && before.attempts < before.mode.Retries()
          then c.pc == Start && c.attempts == before.attempts + 1
          else c.pc == Done(x.outcome) && c.attempts == before.attempts
  }

  lemma LoadNeverConflicts<S, E, C, R>(agg: Aggregate<S, E, C, R>, log: Log, id: string)
    ensures LoadState(agg, log, id).Err? ==> LoadState(agg, log, id).error == Serialization
  {
    DecodeErrs(agg.events.codec, Stream(log, agg.Key(id)));
  }

  lemma ConflictLeavesLog<S, E, C, R>(
      agg: Aggregate<S, E, C, R>, log: Log, id: string, version: nat, events: seq<E>)
    ensures var x := Commit(agg, log, id, version, events);
            IsConflict(x.outcome) ==> x.log == log
  {
  }

  lemma LoadStep<S, E, C, R>(
      agg: Aggregate<S, E, C, R>, codec: Codec<Snapshot<S>>, sys: System<S, E, C, R>, i: nat)
    requires i in sys.clients && sys.clients[i].pc.Start? && !sys.clients[i].mode.Snapshotting?
    ensures var c := sys.clients[i];
            var after := Do(agg, codec, sys, Advance(i));
            && after.log == sys.log && i in after.clients
            && if Wants(agg, sys.log, c.id, c.command) then
                 var l := LoadState(agg, sys.log, c.id).value;
                 after.clients[i]
                 == c.(pc := Deciding(l.state, l.version, agg.handle(l.state, c.command).value, |sys.history|))
               else
                 AttemptedAs(c, after, i, Attempt(agg, sys.log, c.id, c.command, []))
  {
    hide LoadState, Commit, StartingPoint;
    LoadNeverConflicts(agg, sys.log, sys.clients[i].id);
  }

  lemma AppendStep<S, E, C, R>(
      agg: Aggregate<S, E, C, R>, codec: Codec<Snapshot<S>>, sys: System<S, E, C, R>, i: nat)
    requires i in sys.clients && sys.clients[i].pc.Deciding? && !sys.clients[i].mode.Snapshotting?
    ensures var c := sys.clients[i];
            AttemptedAs(c, Do(agg, codec, sys, Advance(i)), i, Commit(agg, sys.log, c.id, c.pc.version, c.pc.events))
  {
    hide Commit;
    var c := sys.clients[i];
    ConflictLeavesLog(agg, sys.log, c.id, c.pc.version, c.pc.events);
  }

  lemma AttemptIsSteps<S, E, C, R>(
      agg: Aggregate<S, E, C, R>, codec: Codec<Snapshot<S>>, sys: System<S, E, C, R>, i: nat, rivals: seq<Rival>)
    requires i in sys.clients && sys.clients[i].pc.Start? && !sys.clients[i].mode.Snapshotting?
    ensures var c := sys.clients[i];
            AttemptedAs(c, DoAll(agg, codec, sys, AttemptSteps(agg, sys.log, i, c.id, c.command, rivals)), i,
                        Attempt(agg, sys.log, c.id, c.command, rivals))
  {
    hide Commit, Interfere, DoAll, RivalSteps, LoadState, Do;
    var c := sys.clients[i];
    var loaded := Do(agg, codec, sys, Advance(i));
    DoOne(agg, codec, sys, Advance(i));
    LoadStep(agg, codec, sys, i);
    if Wants(agg, sys.log, c.id, c.command) {
      var load: seq<Step<C>>, writes: seq<Step<C>> := [Advance(i)], RivalSteps(rivals);
      DoAllConcat(agg, codec, sys, load, writes);
      RivalsInterfere(agg, codec, loaded, rivals);
      var raced := DoAll(agg, codec, loaded, writes);
      DoAllConcat(agg, codec, sys, load + writes, [Advance(i)]);
      DoOne(agg, codec, raced, Advance(i));
      AppendStep(agg, codec, raced, i);
    }
  }

  /** The schedule of all attempts from the `from`-th on, rivals writing inside each attempt's window. */
  function RetrySteps<S, E, C, R>(
      agg: Aggregate<S, E, C, R>, log: Log, i: nat, id: string, command: C, max: nat,
      bursts: seq<seq<Rival>>, from: nat): seq<Step<C>>
    requires from <= max
    decreases max - from
  {
    var burst := BurstAt(bursts, from);
    var x := Attempt(agg, log, id, command, burst);
    AttemptSteps(agg, log, i, id, command, burst)
    + if IsConflict(x.outcome) && from < max then RetrySteps(agg, x.log, i, id, command, max, bursts, from + 1) else []
  }

  /** Scheduled so, a retrying client leaves the log, the outcome and the count of the imperative retry loop. */
  lemma {:induction false} RetryIsSteps<S, E, C, R>(
      agg: Aggregate<S, E, C, R>, codec: Codec<Snapshot<S>>, sys: System<S, E, C, R>, i: nat, bursts: seq<seq<Rival>>)
    requires i in sys.clients && sys.clients[i].pc.Start? && sys.clients[i].mode.Retrying?
    requires sys.clients[i].attempts <= sys.clients[i].mode.max
    ensures var c := sys.clients[i];
            var steps := RetrySteps(agg, sys.log, i, c.id, c.command, c.mode.max, bursts, c.attempts);
            var after := DoAll(agg, codec, sys, steps);
            var x := RetryFrom(agg, sys.log, c.id, c.command, c.mode.max, bursts, c.attempts);
            && after.log == x.log && i in after.clients
            && after.clients[i].pc == Done(x.outcome) && after.clients[i].attempts == x.retries
    decreases sys.clients[i].mode.max - sys.clients[i].attempts
  {
    hide Attempt, AttemptSteps, DoAll;
    var c := sys.clients[i];
    var burst := BurstAt(bursts, c.attempts);
    var x := Attempt(agg, sys.log, c.id, c.command, burst);
    var first := AttemptSteps(agg, sys.log, i, c.id, c.command, burst);
    var mid := DoAll(agg, codec, sys, first);
    AttemptIsSteps(agg, codec, sys, i, burst);
    if IsConflict(x.outcome) && c.attempts < c.mode.max {
      RetryIsSteps(agg, codec, mid, i, bursts);
      DoAllConcat(agg, codec, sys, first,
                  RetrySteps(agg, x.log, i, c.id, c.command, c.mode.max, bursts, c.attempts + 1));
    } else {
      assert first + [] == first;
    }
  }

  // ---------------------------------------------------------------------------
  // Snapshotting alone
  // ---------------------------------------------------------------------------


  function AdvanceBy<S, E, C, R>(
      agg: Aggregate<S, E, C, R>, codec: Codec<Snapshot<S>>, sys: System<S, E, C, R>, i: nat, n: nat)
    : System<S, E, C, R>
    decreases n
  {
    if n == 0 then sys else AdvanceBy(agg, codec, Do(agg, codec, sys, Advance(i)), i, n - 1)
  }

  ghost predicate EndedAs<S, E, C, R>(after: System<S, E, C, R>, i: nat, x: Snapshotted<E, R>) {
    && i in after.clients && after.clients[i].pc == Done(x.outcome)
    && after.log == x.log && after.documents == x.documents
  }

  lemma {:induction false} DoneStays<S, E, C, R>(
      agg: Aggregate<S, E, C, R>, codec: Codec<Snapshot<S>>, sys: System<S, E, C, R>, i: nat, n: nat)
    requires i in sys.clients && sys.clients[i].pc.Done?
    ensures AdvanceBy(agg, codec, sys, i, n) == sys
  {
    if n > 0 {
      DoneStays(agg, codec, sys, i, n - 1);
    }
  }

  lemma {:induction false} SavesAlone<S, E, C, R>(
      agg: Aggregate<S, E, C, R>, codec: Codec<Snapshot<S>>, sys: System<S, E, C, R>, i: nat, n: nat)
    requires i in sys.clients && sys.clients[i].pc.Saving? && n > 0
    ensures var c := sys.clients[i];
            var text := codec.encode(c.pc.snapshot);
            EndedAs(AdvanceBy(agg, codec, sys, i, n), i,
                    if text.None? then Snapshotted(sys.log, sys.documents, Err(Store(Serialization)))
                    else Snapshotted(sys.log, PutDocument(sys.documents, Collection(agg.kind), c.id, text.value),
                                     Ok(c.pc.recorded)))
  {
    hide PutDocument;
    DoneStays(agg, codec, Do(agg, codec, sys, Advance(i)), i, n - 1);
  }

  lemma {:induction false} CommitsAlone<S, E, C, R>(
      agg: Aggregate<S, E, C, R>, codec: Codec<Snapshot<S>>, sys: System<S, E, C, R>, i: nat, n: nat)
    requires i in sys.clients && sys.clients[i].pc.Deciding? && sys.clients[i].mode.Snapshotting? && n > 1
    ensures var c := sys.clients[i];
            var Deciding(state, version, events, _) := c.pc;
            EndedAs(AdvanceBy(agg, codec, sys, i, n), i,
                    SaveIfDue(agg, codec, sys.documents, c.id, c.mode.policy, Loaded(state, version),
                              Commit(agg, sys.log, c.id, version, events)))
  {
    hide PutDocument, Commit, Fold, Payloads;
    var c, next := sys.clients[i], Do(agg, codec, sys, Advance(i));
    ConflictLeavesLog(agg, sys.log, c.id, c.pc.version, c.pc.events);
    if next.clients[i].pc.Saving? {
      SavesAlone(agg, codec, next, i, n - 1);
    } else {
      DoneStays(agg, codec, next, i, n - 1);
    }
  }

  lemma NothingToSave<S, E, C, R>(
      agg: Aggregate<S, E, C, R>, codec: Codec<Snapshot<S>>, sys: System<S, E, C, R>, id: string, policy: Policy,
      loaded: Result<Loaded<S>, StoreError>)
    ensures loaded.Ok? ==>
              SaveIfDue(agg, codec, sys.documents, id, policy, loaded.value,
                        Commit(agg, sys.log, id, loaded.value.version, []))
              == Snapshotted(sys.log, sys.documents, Ok([]))
  {
  }

  lemma {:induction false} DecidesAlone<S, E, C, R>(
      agg: Aggregate<S, E, C, R>, codec: Codec<Snapshot<S>>, sys: System<S, E, C, R>, i: nat, n: nat)
    requires i in sys.clients && sys.clients[i].pc.Fetched? && sys.clients[i].mode.Snapshotting? && n > 2
    ensures var c := sys.clients[i];
            var after := AdvanceBy(agg, codec, sys, i, n);
            match LoadTail(agg, sys.log, c.id, c.pc.base, c.pc.from)
            case Err(e) => EndedAs(after, i, Snapshotted(sys.log, sys.documents, Err(Store(e))))
            case Ok(l) =>
              match agg.handle(l.state, c.command)
              case Err(rule) => EndedAs(after, i, Snapshotted(sys.log, sys.documents, Err(Rejected(rule))))
              case Ok(events) =>
                EndedAs(after, i, SaveIfDue(agg, codec, sys.documents, c.id, c.mode.policy, l,
                                            Commit(agg, sys.log, c.id, l.version, events)))
  {
    hide LoadTail, SaveIfDue, TryAppend;
    var c := sys.clients[i];
    var next := Do(agg, codec, sys, Advance(i));
    if next.clients[i].pc.Deciding? {
      CommitsAlone(agg, codec, next, i, n - 1);
    } else {
      DoneStays(agg, codec, next, i, n - 1);
      NothingToSave(agg, codec, sys, c.id, c.mode.policy, LoadTail(agg, sys.log, c.id, c.pc.base, c.pc.from));
    }
  }

  /** Advanced alone, a snapshotting client leaves the log, the documents and the outcome of the imperative call
      after at most four store calls, whatever the state of the cache. */
  lemma {:induction false} SnapshottingIsSteps<S, E, C, R>(
      agg: Aggregate<S, E, C, R>, codec: Codec<Snapshot<S>>, sys: System<S, E, C, R>, i: nat, n: nat)
    requires i in sys.clients && sys.clients[i].pc.Start? && sys.clients[i].mode.Snapshotting? && n >= 4
    ensures var c := sys.clients[i];
            EndedAs(AdvanceBy(agg, codec, sys, i, n), i,
                    ExecuteSnapshotting(agg, codec, sys.log, sys.documents, c.id, c.command, c.mode.policy))
  {
    hide LoadTail, StartingPoint, SaveIfDue, Commit, LoadState;
    var c := sys.clients[i];
    var next := Do(agg, codec, sys, Advance(i));
    if next.clients[i].pc.Fetched? {
      DecidesAlone(agg, codec, next, i, n - 1);
    } else {
      DoneStays(agg, codec, next, i, n - 1);
    }
  }
}
