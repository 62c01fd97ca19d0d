/** Every interleaving of the protocol is a sequential run of the commands: the invariant and its consequences. */
module Linearizability {
  import opened Events
  import opened EventLog
  import opened MemoryStore
  import opened Aggregates
  import opened Snapshots
  import opened Service
  import opened Protocol

  // ---------------------------------------------------------------------------
  // The invariant
  // ---------------------------------------------------------------------------

  /** Whatever state a client holds was the render of that many first events, and still is. */
  ghost predicate Informed<S, E, C, R>(agg: Aggregate<S, E, C, R>, log: Log, c: Client<S, E, C, R>) {
    match c.pc
    case Fetched(base, from) => Known(agg, log, c.id, from, base)
    case Deciding(state, version, events, _) =>
      && Known(agg, log, c.id, version, state)
      && |events| > 0 && agg.handle(state, c.command) == Ok(events)
    case Saving(snapshot, _) => Known(agg, log, c.id, snapshot.version, snapshot.state)
    case _ => true
  }

  /** What a finished client reports about the outcome its command had. Only a snapshot that could not be written
      makes the two differ. */
  ghost predicate Reports<E, R>(mode: Mode, reported: Outcome<E, R>, actual: Outcome<E, R>) {
    || reported == actual
    || (mode.Snapshotting? && actual.Ok? && |actual.value| > 0 && reported == Err(Store(Serialization)))
  }

  /** A client is in the history once it took effect and not before; and it took effect during its own call. */
  ghost predicate Placed<S, E, C, R>(history: seq<Entry<E, C, R>>, i: nat, c: Client<S, E, C, R>) {
    && c.born <= |history|
    && (c.entry.Some? ==>
          && c.born <= c.entry.value < |history| && c.LastLost() <= c.entry.value
          && history[c.entry.value].ByClient?
          && history[c.entry.value]
          == ByClient(i, c.id, c.command, history[c.entry.value].outcome))
    && match c.pc
       case Saving(_, recorded) =>
         && c.mode.Snapshotting? && c.entry.Some?
         && |recorded| > 0 && history[c.entry.value].outcome == Ok(recorded)
       case Done(outcome) =>
         if c.entry.Some? then Reports(c.mode, outcome, history[c.entry.value].outcome) else IsConflict(outcome)
       case _ => c.entry.None?
  }

  /** The stream grew between the load and the refused append. */
  ghost predicate Grew<S, E, C, R>(
      agg: Aggregate<S, E, C, R>, history: seq<Entry<E, C, R>>, key: StreamKey, w: Window)
  {
    && w.seen < w.at <= |history|
    && |Stream(Replay(agg, history[..w.seen]), key)| < |Stream(Replay(agg, history[..w.at]), key)|
  }

  /** The window opens after the one before it has closed, or after the client's start. */
  predicate IsInTurn(born: nat, lost: seq<Window>, j: nat)
    requires j < |lost|
  {
    (if j == 0 then born else lost[j - 1].at) <= lost[j].seen
  }

  /** Each window was lost to a write inside it; they follow one another, and all lie within the client's call. */
  ghost predicate LostInOrder<S, E, C, R>(
      agg: Aggregate<S, E, C, R>, history: seq<Entry<E, C, R>>, key: StreamKey, born: nat, lost: seq<Window>)
  {
    forall j | 0 <= j < |lost| :: Grew(agg, history, key, lost[j]) && IsInTurn(born, lost, j)
  }

  /** Every refused append is charged to a write to the stream between that attempt's own load and append. */
  ghost predicate Charged<S, E, C, R>(
      agg: Aggregate<S, E, C, R>, history: seq<Entry<E, C, R>>, c: Client<S, E, C, R>)
  {
    && c.attempts <= c.mode.Retries()
    && c.LastLost() <= |history|
    && LostInOrder(agg, history, agg.Key(c.id), c.born, c.lost)
    && match c.pc
       case Deciding(_, version, _, seen) =>
         && |c.lost| == c.attempts
         && c.LastLost() <= seen <= |history|
         && |Stream(Replay(agg, history[..seen]), agg.Key(c.id))| == version
       case Done(outcome) =>
         if IsConflict(outcome) then c.attempts == c.mode.Retries() && |c.lost| == c.attempts + 1
         else |c.lost| == c.attempts
       case _ => |c.lost| == c.attempts
  }

  ghost predicate ClientOk<S, E, C, R>(
      agg: Aggregate<S, E, C, R>, log: Log, history: seq<Entry<E, C, R>>, i: nat, c: Client<S, E, C, R>)
  {
    Informed(agg, log, c) && Placed(history, i, c) && Charged(agg, history, c)
  }

  /** The log is what the history's entries produce when run one after the other, each with its recorded outcome. */
  ghost predicate LogIsReplay<S, E, C, R>(agg: Aggregate<S, E, C, R>, log: Log, history: seq<Entry<E, C, R>>) {
    log == Replay(agg, history) && Legal(agg, history)
  }

  /** Each client's entry is its only one. */
  ghost predicate EntriesOwned<S, E, C, R>(
      clients: map<nat, Client<S, E, C, R>>, history: seq<Entry<E, C, R>>)
  {
    forall k | 0 <= k < |history| && history[k].ByClient? ::
      history[k].client in clients && clients[history[k].client].entry == Some(k)
  }

  ghost predicate Inv<S, E, C, R>(
      agg: Aggregate<S, E, C, R>, codec: Codec<Snapshot<S>>, sys: System<S, E, C, R>)
  {
    && LogIsReplay(agg, sys.log, sys.history)
    && SnapshotsAreSound(agg, codec, sys.log, sys.documents)
    && EntriesOwned(sys.clients, sys.history)
    && forall i | i in sys.clients :: ClientOk(agg, sys.log, sys.history, i, sys.clients[i])
  }

  // ---------------------------------------------------------------------------
  // What growth of the log and of the history leaves true
  // ---------------------------------------------------------------------------


  lemma LostStaysLost<S, E, C, R>(
      agg: Aggregate<S, E, C, R>, history: seq<Entry<E, C, R>>, extended: seq<Entry<E, C, R>>,
      key: StreamKey, born: nat, lost: seq<Window>)
    requires history <= extended && LostInOrder(agg, history, key, born, lost)
    ensures LostInOrder(agg, extended, key, born, lost)
  {
    hide Replay;
    forall j | 0 <= j < |lost|
      ensures Grew(agg, extended, key, lost[j]) && IsInTurn(born, lost, j)
    {
      assert Grew(agg, history, key, lost[j]) && IsInTurn(born, lost, j);
      assert extended[..lost[j].seen] == history[..lost[j].seen] && extended[..lost[j].at] == history[..lost[j].at];
    }
  }

  lemma LostTurn(born: nat, lost: seq<Window>, w: Window, j: nat)
    requires j <= |lost|
    ensures IsInTurn(born, lost + [w], j)
       <==> if j < |lost| then IsInTurn(born, lost, j)
            else (if lost == [] then born else lost[|lost| - 1].at) <= w.seen
  {
  }

  lemma LostOnceMore<S, E, C, R>(
      agg: Aggregate<S, E, C, R>, history: seq<Entry<E, C, R>>, key: StreamKey, born: nat, lost: seq<Window>, seen: nat)
    requires LostInOrder(agg, history, key, born, lost)
    requires (if lost == [] then born else lost[|lost| - 1].at) <= seen <= |history|
    requires |Stream(Replay(agg, history[..seen]), key)| < |Stream(Replay(agg, history), key)|
    ensures LostInOrder(agg, history, key, born, lost + [Window(seen, |history|)])
  {
    hide Replay, Stream, IsInTurn;
    assert history[..|history|] == history;
    var more := lost + [Window(seen, |history|)];
    forall j | 0 <= j < |more|
      ensures Grew(agg, history, key, more[j]) && IsInTurn(born, more, j)
    {
      LostTurn(born, lost, Window(seen, |history|), j);
      if j < |lost| {
        assert Grew(agg, history, key, lost[j]) && IsInTurn(born, lost, j);
      }
    }
  }

  lemma ClientStaysOk<S, E, C, R>(
      agg: Aggregate<S, E, C, R>, log: Log, longer: Log,
      history: seq<Entry<E, C, R>>, extended: seq<Entry<E, C, R>>, i: nat, c: Client<S, E, C, R>)
    requires log <= longer && history <= extended
    requires ClientOk(agg, log, history, i, c)
    ensures ClientOk(agg, longer, extended, i, c)
  {
    hide Replay, Known, LostInOrder;
    assert Informed(agg, longer, c) by {
      match c.pc
      case Fetched(base, from) => KnownStaysKnown(agg, log, longer, c.id, from, base);
      case Deciding(state, version, _, _) => KnownStaysKnown(agg, log, longer, c.id, version, state);
      case Saving(snapshot, _) => KnownStaysKnown(agg, log, longer, c.id, snapshot.version, snapshot.state);
      case _ =>
    }
    LostStaysLost(agg, history, extended, agg.Key(c.id), c.born, c.lost);
    if c.pc.Deciding? {
      assert extended[..c.pc.seen] == history[..c.pc.seen];
    }
  }

  /** A step that only moves one client. */
  lemma MoveKeepsInv<S, E, C, R>(
      agg: Aggregate<S, E, C, R>, codec: Codec<Snapshot<S>>, sys: System<S, E, C, R>,
      i: nat, c: Client<S, E, C, R>)
    requires Inv(agg, codec, sys) && i in sys.clients
    requires c.entry == sys.clients[i].entry && ClientOk(agg, sys.log, sys.history, i, c)
    ensures Inv(agg, codec, Move(sys, i, c))
  {
    hide ClientOk, LogIsReplay, SnapshotsAreSound;
  }

  lemma HistoryStep<S, E, C, R>(agg: Aggregate<S, E, C, R>, history: seq<Entry<E, C, R>>, entry: Entry<E, C, R>)
    ensures var before := Replay(agg, history);
            var after := Replay(agg, history + [entry]);
            && before <= after
            && (Legal(agg, history) ==>
                  (Legal(agg, history + [entry]) <==>
                     entry.ByClient? ==> entry.outcome == Execute(agg, before, entry.id, entry.command).outcome))
            && (entry.ByClient? ==> after == Execute(agg, before, entry.id, entry.command).log)
            && (entry.ByOther? ==>
                  after == TryAppend(before, entry.rival.key, entry.rival.expected, WireEvents(), entry.rival.wires).log)
  {
    hide Execute, TryAppend;
    assert (history + [entry])[..|history|] == history;
    ReplayExtends(agg, history + [entry]);
  }

  /** A step in which one client takes effect. */
  lemma EffectKeepsInv<S, E, C, R>(
      agg: Aggregate<S, E, C, R>, codec: Codec<Snapshot<S>>, sys: System<S, E, C, R>,
      i: nat, log: Log, outcome: Outcome<E, R>, pc: Pc<S, E, R>)
    requires Inv(agg, codec, sys) && i in sys.clients && sys.clients[i].entry.None?
    requires var c := sys.clients[i];
             var after := TakeEffect(sys, i, log, outcome, pc);
             && Execute(agg, sys.log, c.id, c.command) == Executed(log, outcome)
             && ClientOk(agg, log, after.history, i, after.clients[i])
    ensures Inv(agg, codec, TakeEffect(sys, i, log, outcome, pc))
  {
    hide Execute, Replay, Legal, SnapshotsAreSound, ClientOk;
    var c := sys.clients[i];
    var after := TakeEffect(sys, i, log, outcome, pc);
    HistoryStep(agg, sys.history, after.history[|sys.history|]);
    SoundnessSurvivesGrowth(agg, codec, sys.log, log, sys.documents);
    forall j | j in after.clients && j != i
      ensures ClientOk(agg, log, after.history, j, after.clients[j])
    {
      ClientStaysOk(agg, sys.log, log, sys.history, after.history, j, sys.clients[j]);
    }
    assert forall k | 0 <= k < |sys.history| && sys.history[k].ByClient? :: sys.history[k].client != i;
  }

  // ---------------------------------------------------------------------------
  // Each kind of step
  // ---------------------------------------------------------------------------

  lemma ExecuteNeverConflicts<S, E, C, R>(
      agg: Aggregate<S, E, C, R>, history: seq<Entry<E, C, R>>, id: string, command: C)
    ensures WellFormed(Replay(agg, history))
    ensures !IsConflict(Execute(agg, Replay(agg, history), id, command).outcome)
  {
    ReplayIsWellFormed(agg, history);
    ExecuteAlone(agg, Replay(agg, history), id, command);
  }

  /** After a load that leaves something to write: gone on to append. */
  lemma GoingOnKeepsInv<S, E, C, R>(
      agg: Aggregate<S, E, C, R>, codec: Codec<Snapshot<S>>, sys: System<S, E, C, R>, i: nat)
    requires Inv(agg, codec, sys) && i in sys.clients
    requires sys.clients[i].pc.Start? || sys.clients[i].pc.Fetched?
    requires Wants(agg, sys.log, sys.clients[i].id, sys.clients[i].command)
    ensures Inv(agg, codec, Decide(agg, sys, i, LoadState(agg, sys.log, sys.clients[i].id)))
  {
    hide Replay, Legal, SnapshotsAreSound, Known, LoadState, LostInOrder, WellFormed, EntriesOwned;
    var c, entries := sys.clients[i], sys.history;
    assert ClientOk(agg, sys.log, entries, i, c);
    var l := LoadState(agg, sys.log, c.id).value;
    KnownIsLoad(agg, sys.log, c.id, l.version, l.state);
    assert entries[..|entries|] == entries;
    MoveKeepsInv(agg, codec, sys, i,
                 c.(pc := Deciding(l.state, l.version, agg.handle(l.state, c.command).value, |entries|)));
  }

  /** A command with nothing to write is all done at its load. */
  lemma IdleIsExecute<S, E, C, R>(
      agg: Aggregate<S, E, C, R>, sys: System<S, E, C, R>, i: nat)
    requires i in sys.clients && !Wants(agg, sys.log, sys.clients[i].id, sys.clients[i].command)
    ensures var c := sys.clients[i];
            var x := Execute(agg, sys.log, c.id, c.command);
            && x.log == sys.log
            && Decide(agg, sys, i, LoadState(agg, sys.log, c.id))
            == TakeEffect(sys, i, sys.log, x.outcome, Done(x.outcome))
  {
    hide LoadState, TryAppend;
  }

  /** After a load that leaves nothing to write: taken effect at this load. */
  lemma EndingKeepsInv<S, E, C, R>(
      agg: Aggregate<S, E, C, R>, codec: Codec<Snapshot<S>>, sys: System<S, E, C, R>, i: nat)
    requires Inv(agg, codec, sys) && i in sys.clients
    requires sys.clients[i].pc.Start? || sys.clients[i].pc.Fetched?
    requires !Wants(agg, sys.log, sys.clients[i].id, sys.clients[i].command)
    ensures Inv(agg, codec, Decide(agg, sys, i, LoadState(agg, sys.log, sys.clients[i].id)))
  {
    hide Replay, Legal, SnapshotsAreSound, Known, LoadState, LostInOrder, WellFormed, EntriesOwned, Execute, Decide;
    var c, entries := sys.clients[i], sys.history;
    assert ClientOk(agg, sys.log, entries, i, c);
    var x := Execute(agg, sys.log, c.id, c.command);
    IdleIsExecute(agg, sys, i);
    var after := TakeEffect(sys, i, x.log, x.outcome, Done(x.outcome));
    ExecuteNeverConflicts(agg, entries, c.id, c.command);
    HistoryStep(agg, entries, after.history[|entries|]);
    LostStaysLost(agg, entries, after.history, agg.Key(c.id), c.born, c.lost);
    EffectKeepsInv(agg, codec, sys, i, x.log, x.outcome, Done(x.outcome));
  }

  /** After a load: gone on, or taken effect at this load. */
  lemma DecideKeepsInv<S, E, C, R>(
      agg: Aggregate<S, E, C, R>, codec: Codec<Snapshot<S>>, sys: System<S, E, C, R>, i: nat)
    requires Inv(agg, codec, sys) && i in sys.clients
    requires sys.clients[i].pc.Start? || sys.clients[i].pc.Fetched?
    ensures Inv(agg, codec, Decide(agg, sys, i, LoadState(agg, sys.log, sys.clients[i].id)))
  {
    hide Inv, LoadState;
    if Wants(agg, sys.log, sys.clients[i].id, sys.clients[i].command) {
      GoingOnKeepsInv(agg, codec, sys, i);
    } else {
      EndingKeepsInv(agg, codec, sys, i);
    }
  }

  lemma KnownIsBounded<S, E, C, R>(agg: Aggregate<S, E, C, R>, log: Log, id: string, version: nat, state: S)
    requires Known(agg, log, id, version, state)
    ensures version <= |Stream(log, agg.Key(id))|
  {
  }

  lemma CommittedIsKnown<S, E(!new), C, R>(
      agg: Aggregate<S, E, C, R>, log: Log, id: string, version: nat, state: S, events: seq<E>)
    requires WellFormed(log) && Known(agg, log, id, version, state) && |events| > 0
    requires Faithful(agg.events.codec)
    ensures var x := Commit(agg, log, id, version, events);
            x.outcome.Ok? ==>
              && |x.outcome.value| == |events|
              && Known(agg, x.log, id, x.outcome.value[|events| - 1].version,
                       Fold(agg.apply, state, Payloads(x.outcome.value)))
  {
    hide Known, Fold, Payloads, TryAppend, WellFormed, Faithful;
    AppendedIsKnown(agg, log, id, version, state, events);
  }

  /** An append that is refused adds its window. */
  lemma RefusedKeepsInv<S, E, C, R>(
      agg: Aggregate<S, E, C, R>, codec: Codec<Snapshot<S>>, sys: System<S, E, C, R>, i: nat)
    requires Inv(agg, codec, sys) && i in sys.clients && sys.clients[i].pc.Deciding?
    requires var c := sys.clients[i];
             IsConflict(Commit(agg, sys.log, c.id, c.pc.version, c.pc.events).outcome)
    ensures Inv(agg, codec, Next(agg, codec, sys, i))
  {
    hide Replay, Legal, SnapshotsAreSound, Known, Execute, Commit, Fold, Payloads, EntriesOwned,
         Faithful, WellFormed, Stream, LostInOrder, LoadState;
    var c, log, history := sys.clients[i], sys.log, sys.history;
    var Deciding(state, version, events, seen) := c.pc;
    assert ClientOk(agg, log, history, i, c);
    ReplayIsWellFormed(agg, history);
    var x := Commit(agg, log, c.id, version, events);
    KnownIsBounded(agg, log, c.id, version, state);
    RefusedMeansMoved(agg, log, c.id, version, events);
    LostOnceMore(agg, history, agg.Key(c.id), c.born, c.lost, seen);
    var lost := c.lost + [Window(seen, |history|)];
    MoveKeepsInv(agg, codec, sys, i,
                 if c.attempts < c.mode.Retries() then c.(attempts := c.attempts + 1, pc := Start, lost := lost)
                 else c.(pc := Done(x.outcome), lost := lost));
  }

  /** An append that is let through takes effect here. */
  lemma AcceptedKeepsInv<S, E(!new), C, R>(
      agg: Aggregate<S, E, C, R>, codec: Codec<Snapshot<S>>, sys: System<S, E, C, R>, i: nat)
    requires Inv(agg, codec, sys) && i in sys.clients && sys.clients[i].pc.Deciding?
    requires var c := sys.clients[i];
             !IsConflict(Commit(agg, sys.log, c.id, c.pc.version, c.pc.events).outcome)
    requires Faithful(agg.events.codec)
    ensures Inv(agg, codec, Next(agg, codec, sys, i))
  {
    hide Replay, Legal, SnapshotsAreSound, Known, Execute, Commit, Fold, Payloads, EntriesOwned,
         Faithful, WellFormed, Stream, LostInOrder, LoadState;
    var c, log, history := sys.clients[i], sys.log, sys.history;
    var Deciding(state, version, events, _) := c.pc;
    assert ClientOk(agg, log, history, i, c);
    ReplayIsWellFormed(agg, history);
    var x := Commit(agg, log, c.id, version, events);
    AppendIsExecute(agg, log, c.id, version, state, c.command, events);
    var pc := AfterCommit(agg, c, x.outcome);
    var after := TakeEffect(sys, i, x.log, x.outcome, pc);
    if pc.Saving? {
      CommittedIsKnown(agg, log, c.id, version, state, events);
    }
    LostStaysLost(agg, history, after.history, agg.Key(c.id), c.born, c.lost);
    EffectKeepsInv(agg, codec, sys, i, x.log, x.outcome, pc);
  }

  /** A save, however late, stores a state that was true of the stream and therefore still is. */
  lemma SaveKeepsInv<S(!new), E, C, R>(
      agg: Aggregate<S, E, C, R>, codec: Codec<Snapshot<S>>, sys: System<S, E, C, R>, i: nat)
    requires Inv(agg, codec, sys) && i in sys.clients && sys.clients[i].pc.Saving?
    requires Faithful(codec)
    ensures Inv(agg, codec, Next(agg, codec, sys, i))
  {
    hide Replay, Legal, SnapshotsAreSound, Known, EntriesOwned, LostInOrder;
    var c := sys.clients[i];
    var Saving(snapshot, recorded) := c.pc;
    assert ClientOk(agg, sys.log, sys.history, i, c);
    var text := codec.encode(snapshot);
    if text.None? {
      MoveKeepsInv(agg, codec, sys, i, c.(pc := Done(Err(Store(Serialization)))));
    } else {
      SavingKnownIsSound(agg, codec, sys.log, sys.documents, c.id, snapshot);
      var saved := sys.(documents := PutDocument(sys.documents, Collection(agg.kind), c.id, text.value));
      MoveKeepsInv(agg, codec, saved, i, c.(pc := Done(Ok(recorded))));
    }
  }

  lemma NextKeepsInv<S(!new), E(!new), C, R>(
      agg: Aggregate<S, E, C, R>, codec: Codec<Snapshot<S>>, sys: System<S, E, C, R>, i: nat)
    requires Inv(agg, codec, sys) && i in sys.clients
    requires Faithful(codec) && Faithful(agg.events.codec)
    ensures Inv(agg, codec, Next(agg, codec, sys, i))
  {
    hide Replay, Legal, SnapshotsAreSound, Known, EntriesOwned, LostInOrder, LoadState, LoadTail, Decide, Commit;
    var c := sys.clients[i];
    match c.pc
    case Start =>
      if c.mode.Snapshotting? {
        assert ClientOk(agg, sys.log, sys.history, i, c);
        StartIsKnown(agg, codec, sys.log, sys.documents, c.id);
        var start := StartingPoint(agg, codec, sys.documents, c.id).value;
        MoveKeepsInv(agg, codec, sys, i, c.(pc := Fetched(start.state, start.version)));
      } else {
        DecideKeepsInv(agg, codec, sys, i);
      }
    case Fetched(base, from) =>
      ReplayIsWellFormed(agg, sys.history);
      assert ClientOk(agg, sys.log, sys.history, i, c);
      TailLoadIsFullLoad(agg, sys.log, c.id, from, base);
      DecideKeepsInv(agg, codec, sys, i);
    case Deciding(_, version, events, _) =>
      if IsConflict(Commit(agg, sys.log, c.id, version, events).outcome) {
        RefusedKeepsInv(agg, codec, sys, i);
      } else {
        AcceptedKeepsInv(agg, codec, sys, i);
      }
    case Saving(_, _) => SaveKeepsInv(agg, codec, sys, i);
    case Done(_) =>
  }

  lemma OtherAppendKeepsInv<S, E, C, R>(
      agg: Aggregate<S, E, C, R>, codec: Codec<Snapshot<S>>, sys: System<S, E, C, R>, rival: Rival)
    requires Inv(agg, codec, sys)
    ensures Inv(agg, codec, Do(agg, codec, sys, OtherAppends(rival)))
  {
    hide Replay, Legal, SnapshotsAreSound, ClientOk, TryAppend;
    var after := Do(agg, codec, sys, OtherAppends(rival));
    HistoryStep(agg, sys.history, ByOther(rival));
    SoundnessSurvivesGrowth(agg, codec, sys.log, after.log, sys.documents);
    forall j | j in sys.clients
      ensures ClientOk(agg, after.log, after.history, j, sys.clients[j])
    {
      ClientStaysOk(agg, sys.log, after.log, sys.history, after.history, j, sys.clients[j]);
    }
  }

  lemma StepKeepsInv<S(!new), E(!new), C, R>(
      agg: Aggregate<S, E, C, R>, codec: Codec<Snapshot<S>>, sys: System<S, E, C, R>, step: Step<C>)
    requires Inv(agg, codec, sys)
    requires Faithful(codec) && Faithful(agg.events.codec)
    ensures Inv(agg, codec, Do(agg, codec, sys, step))
  {
    hide Replay, Legal, SnapshotsAreSound, Next;
    match step
    case Spawn(i, id, command, mode) =>
      var c := Client(id, command, mode, 0, Start, |sys.history|, None, []);
      assert ClientOk(agg, sys.log, sys.history, i, c);
    case Advance(i) =>
      if i in sys.clients {
        NextKeepsInv(agg, codec, sys, i);
      }
    case OtherAppends(rival) => OtherAppendKeepsInv(agg, codec, sys, rival);
    case OtherSaves(collection, key, text) =>
      UnrelatedDocumentsKeepSoundness(agg, codec, sys.log, sys.documents, collection, key, text);
    case OtherDrops(collection, key) =>
      UnrelatedDocumentsKeepSoundness(agg, codec, sys.log, sys.documents, collection, key, "");
  }

  lemma EmptyIsInv<S, E, C, R>(agg: Aggregate<S, E, C, R>, codec: Codec<Snapshot<S>>)
    ensures Inv<S, E, C, R>(agg, codec, Empty())
  {
  }

  /** The invariant holds in every reachable state. */
  lemma {:induction false} InvHolds<S(!new), E(!new), C, R>(
      agg: Aggregate<S, E, C, R>, codec: Codec<Snapshot<S>>, steps: seq<Step<C>>)
    requires Faithful(codec) && Faithful(agg.events.codec)
    ensures Inv(agg, codec, Run(agg, codec, steps))
  {
    hide Inv, Do;
    if |steps| == 0 {
      EmptyIsInv(agg, codec);
    } else {
      var n := |steps| - 1;
      InvHolds(agg, codec, steps[..n]);
      StepKeepsInv(agg, codec, Run(agg, codec, steps[..n]), steps[n]);
    }
  }
}
