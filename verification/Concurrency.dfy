/** What callers can rely on, in every interleaving: sequential meaning, real-time order, one commit at most,
    sound snapshots, and a bound on lost races. */
module Concurrency {
  import opened Events
  import opened EventLog
  import opened MemoryStore
  import opened Aggregates
  import opened Snapshots
  import opened Service
  import opened Protocol
  import opened Linearizability

  // ---------------------------------------------------------------------------
  // Linearizability
  // ---------------------------------------------------------------------------

  /** Client i's command is entry k of the history, that is its only entry, and i's report is that entry's outcome. */
  ghost predicate TookEffectAt<S, E, C, R>(sys: System<S, E, C, R>, i: nat, k: nat, reported: Outcome<E, R>)
    requires i in sys.clients
  {
    var c := sys.clients[i];
    && c.born <= k < |sys.history|
    && sys.history[k].ByClient?
    && sys.history[k].client == i && sys.history[k].id == c.id && sys.history[k].command == c.command
    && Reports(c.mode, reported, sys.history[k].outcome)
    && forall other | 0 <= other < |sys.history| && sys.history[other].ByClient? && sys.history[other].client == i ::
         other == k
  }

  ghost predicate NeverTookEffect<S, E, C, R>(sys: System<S, E, C, R>, i: nat) {
    forall k | 0 <= k < |sys.history| && sys.history[k].ByClient? :: sys.history[k].client != i
  }

  /** A finished client is in the history exactly once, with the outcome it reported; unless it reported a conflict,
      and then, and only then, it is not there at all. */
  ghost predicate FinishedIsPlaced<S, E, C, R>(sys: System<S, E, C, R>, i: nat)
    requires i in sys.clients && sys.clients[i].pc.Done?
  {
    var c := sys.clients[i];
    && (IsConflict(c.pc.outcome) ==> NeverTookEffect(sys, i))
    && (!IsConflict(c.pc.outcome) ==> c.entry.Some? && TookEffectAt(sys, i, c.entry.value, c.pc.outcome))
  }

  /** In every reachable state there is one sequential program in which every finished client has its place, whose run
      gives the whole log, and in which every command has the outcome it has alone. */
  lemma {:induction false} RunsAreSequential<S(!new), E(!new), C, R>(
      agg: Aggregate<S, E, C, R>, codec: Codec<Snapshot<S>>, steps: seq<Step<C>>)
    requires Faithful(codec) && Faithful(agg.events.codec)
    ensures var sys := Run(agg, codec, steps);
            && (forall i | i in sys.clients && sys.clients[i].pc.Done? :: FinishedIsPlaced(sys, i))
            && LogIsReplay(agg, sys.log, sys.history)
  {
    hide Replay, Legal, SnapshotsAreSound, Run, Informed, Charged;
    InvHolds(agg, codec, steps);
    var sys := Run(agg, codec, steps);
    forall i | i in sys.clients && sys.clients[i].pc.Done?
      ensures FinishedIsPlaced(sys, i)
    {
      var c := sys.clients[i];
      assert ClientOk(agg, sys.log, sys.history, i, c);
      if c.entry.Some? {
        LegalAt(agg, sys.history, c.entry.value);
        ExecuteNeverConflicts(agg, sys.history[..c.entry.value], c.id, c.command);
      }
    }
  }

  /** What later steps cannot undo: the history only grows, finished and effective clients stay so, and a client that
      starts later takes effect later. */
  ghost predicate Persists<S, E, C, R>(sys: System<S, E, C, R>, later: System<S, E, C, R>) {
    && sys.history <= later.history
    && (forall i | i in sys.clients ::
          && i in later.clients && later.clients[i].born == sys.clients[i].born
          && (sys.clients[i].entry.Some? ==> later.clients[i].entry == sys.clients[i].entry)
          && (sys.clients[i].pc.Done? ==> later.clients[i] == sys.clients[i]))
    && (forall j | j in later.clients && j !in sys.clients :: later.clients[j].born >= |sys.history|)
  }

  /** A client that took effect has at most its snapshot left to save. */
  ghost predicate EffectIsFinal<S, E, C, R>(sys: System<S, E, C, R>) {
    forall i | i in sys.clients && sys.clients[i].entry.Some? :: sys.clients[i].pc.Saving? || sys.clients[i].pc.Done?
  }

  lemma MovePersists<S, E, C, R>(sys: System<S, E, C, R>, i: nat, c: Client<S, E, C, R>, documents: Documents)
    requires i in sys.clients && !sys.clients[i].pc.Done?
    requires c.entry == sys.clients[i].entry && c.born == sys.clients[i].born
    ensures Persists(sys, Move(sys, i, c).(documents := documents))
  {
  }

  lemma StandingStillPersists<S, E, C, R>(sys: System<S, E, C, R>)
    ensures Persists(sys, sys)
  {
  }

  lemma EffectPersists<S, E, C, R>(
      sys: System<S, E, C, R>, i: nat, log: Log, outcome: Outcome<E, R>, pc: Pc<S, E, R>)
    requires i in sys.clients && !sys.clients[i].pc.Done? && sys.clients[i].entry.None?
    ensures Persists(sys, TakeEffect(sys, i, log, outcome, pc))
  {
  }

  lemma DecidePersists<S, E, C, R>(
      agg: Aggregate<S, E, C, R>, sys: System<S, E, C, R>, i: nat, loaded: Result<Loaded<S>, StoreError>)
    requires i in sys.clients && !sys.clients[i].pc.Done? && sys.clients[i].entry.None?
    ensures Persists(sys, Decide(agg, sys, i, loaded))
  {
    hide Persists;
    var c := sys.clients[i];
    if loaded.Ok? && agg.handle(loaded.value.state, c.command).Ok? {
      var l, events := loaded.value, agg.handle(loaded.value.state, c.command).value;
      MovePersists(sys, i, c.(pc := Deciding(l.state, l.version, events, |sys.history|)), sys.documents);
      EffectPersists(sys, i, sys.log, Ok([]), Done(Ok([])));
    } else if loaded.Ok? {
      var rejected := Err(Rejected(agg.handle(loaded.value.state, c.command).error));
      EffectPersists(sys, i, sys.log, rejected, Done(rejected));
    } else {
      EffectPersists(sys, i, sys.log, Err(Store(loaded.error)), Done(Err(Store(loaded.error))));
    }
  }

  lemma NextPersists<S, E, C, R>(
      agg: Aggregate<S, E, C, R>, codec: Codec<Snapshot<S>>, sys: System<S, E, C, R>, i: nat)
    requires EffectIsFinal(sys) && i in sys.clients
    ensures Persists(sys, Next(agg, codec, sys, i))
  {
    hide Commit, LoadState, LoadTail, StartingPoint, AfterCommit, Persists, TakeEffect, Decide;
    var c, documents := sys.clients[i], sys.documents;
    match c.pc
    case Start =>
      DecidePersists(agg, sys, i, LoadState(agg, sys.log, c.id));
      var start := StartingPoint(agg, codec, documents, c.id);
      if start.Err? {
        MovePersists(sys, i, c.(pc := Done(Err(Store(start.error)))), documents);
      } else {
        MovePersists(sys, i, c.(pc := Fetched(start.value.state, start.value.version)), documents);
      }
    case Fetched(base, from) => DecidePersists(agg, sys, i, LoadTail(agg, sys.log, c.id, base, from));
    case Deciding(_, version, events, seen) =>
      var x := Commit(agg, sys.log, c.id, version, events);
      var lost := c.lost + [Window(seen, |sys.history|)];
      EffectPersists(sys, i, x.log, x.outcome, AfterCommit(agg, c, x.outcome));
      MovePersists(sys, i, c.(attempts := c.attempts + 1, pc := Start, lost := lost), documents);
      MovePersists(sys, i, c.(pc := Done(x.outcome), lost := lost), documents);
    case Saving(snapshot, recorded) =>
      var text := codec.encode(snapshot);
      MovePersists(sys, i, c.(pc := Done(Err(Store(Serialization)))), documents);
      if text.Some? {
        MovePersists(sys, i, c.(pc := Done(Ok(recorded))),
                     PutDocument(documents, Collection(agg.kind), c.id, text.value));
      }
    case Done(_) => StandingStillPersists(sys);
  }

  lemma DoPersists<S, E, C, R>(
      agg: Aggregate<S, E, C, R>, codec: Codec<Snapshot<S>>, sys: System<S, E, C, R>, step: Step<C>)
    requires EffectIsFinal(sys)
    ensures Persists(sys, Do(agg, codec, sys, step))
  {
    hide Next, TryAppend, EffectIsFinal;
    if step.Advance? && step.client in sys.clients {
      NextPersists(agg, codec, sys, step.client);
    }
  }

  lemma RunPush<S, E, C, R>(
      agg: Aggregate<S, E, C, R>, codec: Codec<Snapshot<S>>, steps: seq<Step<C>>, step: Step<C>)
    ensures Run(agg, codec, steps + [step]) == Do(agg, codec, Run(agg, codec, steps), step)
  {
    assert (steps + [step])[..|steps|] == steps;
  }

  lemma {:induction false} RunPersists<S(!new), E(!new), C, R>(
      agg: Aggregate<S, E, C, R>, codec: Codec<Snapshot<S>>, steps: seq<Step<C>>, more: seq<Step<C>>)
    requires Faithful(codec) && Faithful(agg.events.codec)
    ensures Persists(Run(agg, codec, steps), Run(agg, codec, steps + more))
  {
    hide Run, Do, SnapshotsAreSound, LogIsReplay, Informed, Charged;
    if |more| == 0 {
      assert steps + more == steps;
    } else {
      var n := |more| - 1;
      RunPersists(agg, codec, steps, more[..n]);
      InvHolds(agg, codec, steps + more[..n]);
      var mid := Run(agg, codec, steps + more[..n]);
      assert EffectIsFinal(mid) by {
        forall i | i in mid.clients && mid.clients[i].entry.Some?
          ensures mid.clients[i].pc.Saving? || mid.clients[i].pc.Done?
        {
          assert ClientOk(agg, mid.log, mid.history, i, mid.clients[i]);
        }
      }
      DoPersists(agg, codec, mid, more[n]);
      RunPush(agg, codec, steps + more[..n], more[n]);
      assert steps + more == steps + more[..n] + [more[n]];
    }
  }

  /** The sequential order respects real time: a command that took effect before another was even issued comes first. */
  lemma {:induction false} OrderRespectsRealTime<S(!new), E(!new), C, R>(
      agg: Aggregate<S, E, C, R>, codec: Codec<Snapshot<S>>, steps: seq<Step<C>>, more: seq<Step<C>>, i: nat, j: nat)
    requires Faithful(codec) && Faithful(agg.events.codec)
    requires var sys, later := Run(agg, codec, steps), Run(agg, codec, steps + more);
             && i in sys.clients && sys.clients[i].entry.Some?
             && j !in sys.clients && j in later.clients && later.clients[j].entry.Some?
    ensures var sys, later := Run(agg, codec, steps), Run(agg, codec, steps + more);
            && i in later.clients && later.clients[i].entry == sys.clients[i].entry
            && later.clients[i].entry.value < later.clients[j].entry.value
  {
    hide Run, SnapshotsAreSound, LogIsReplay, Informed, Charged;
    RunPersists(agg, codec, steps, more);
    InvHolds(agg, codec, steps);
    InvHolds(agg, codec, steps + more);
    var sys, later := Run(agg, codec, steps), Run(agg, codec, steps + more);
    assert ClientOk(agg, sys.log, sys.history, i, sys.clients[i]);
    assert ClientOk(agg, later.log, later.history, j, later.clients[j]);
  }

  // ---------------------------------------------------------------------------
  // One commit at most
  // ---------------------------------------------------------------------------

  /** A client that reports events has appended exactly those, once, decided from the stream right before them, and
      they are still there. It took at most one append more than the retries it was allowed. */
  lemma {:induction false} ReportedEventsWereCommitted<S(!new), E(!new), C, R>(
      agg: Aggregate<S, E, C, R>, codec: Codec<Snapshot<S>>, steps: seq<Step<C>>, i: nat)
    requires Faithful(codec) && Faithful(agg.events.codec)
    requires var sys := Run(agg, codec, steps);
             i in sys.clients && sys.clients[i].pc.Done? && sys.clients[i].pc.outcome.Ok?
    ensures var sys := Run(agg, codec, steps);
            var c := sys.clients[i];
            var key, recorded := agg.Key(c.id), c.pc.outcome.value;
            && c.attempts <= c.mode.Retries()
            && c.entry.Some? && TookEffectAt(sys, i, c.entry.value, c.pc.outcome)
            && var before := Replay(agg, sys.history[..c.entry.value]);
               var after := Replay(agg, sys.history[..c.entry.value + 1]);
               var loaded := LoadState(agg, before, c.id);
               && before <= after <= sys.log && |after| == |before| + |recorded|
               && loaded.Ok? && agg.handle(loaded.value.state, c.command) == Ok(Payloads(recorded))
               && Stream(before, key) <= Stream(after, key) <= Stream(sys.log, key)
               && DecodeAll(agg.events.codec, Stream(after, key)[|Stream(before, key)|..]) == Ok(recorded)
  {
    hide Replay, Legal, Run, Execute, LoadState, DecodeAll, Select, Informed;
    RunsAreSequential(agg, codec, steps);
    InvHolds(agg, codec, steps);
    var sys := Run(agg, codec, steps);
    var c := sys.clients[i];
    var h, k := sys.history, c.entry.value;
    assert c.attempts <= c.mode.Retries() by {
      assert ClientOk(agg, sys.log, h, i, c);
    }
    var before, after := Replay(agg, h[..k]), Replay(agg, h[..k + 1]);
    LegalAt(agg, h, k);
    assert h[..k + 1][..k] == h[..k];
    ReplayGrows(agg, h[..k + 1], k);
    ReplayGrows(agg, h, k + 1);
    ReplayIsWellFormed(agg, h[..k]);
    ExecuteWrites(agg, before, c.id, c.command);
    SelectGrows(after, sys.log, OfStream(agg.Key(c.id)), 0);
  }

  // ---------------------------------------------------------------------------
  // Snapshots
  // ---------------------------------------------------------------------------

  /** In every interleaving, late saves included, each stored snapshot is the render of that many first events; so
      the fast path would return what a full load returns now, and so will every client that has fetched a snapshot
      but not yet read the tail. */
  lemma {:induction false} SnapshotsAreTransparent<S(!new), E(!new), C, R>(
      agg: Aggregate<S, E, C, R>, codec: Codec<Snapshot<S>>, steps: seq<Step<C>>)
    requires Faithful(codec) && Faithful(agg.events.codec)
    ensures var sys := Run(agg, codec, steps);
            && (forall id :: LoadSnapshotted(agg, codec, sys.log, sys.documents, id) == LoadState(agg, sys.log, id))
            && (forall i | i in sys.clients && sys.clients[i].pc.Fetched? ::
                  LoadTail(agg, sys.log, sys.clients[i].id, sys.clients[i].pc.base, sys.clients[i].pc.from)
                  == LoadState(agg, sys.log, sys.clients[i].id))
            && SnapshotsAreSound(agg, codec, sys.log, sys.documents)
  {
    hide Replay, Legal, Run, SnapshotsAreSound, LoadSnapshotted, LoadTail, LoadState, Known;
    InvHolds(agg, codec, steps);
    var sys := Run(agg, codec, steps);
    ReplayIsWellFormed(agg, sys.history);
    forall id
      ensures LoadSnapshotted(agg, codec, sys.log, sys.documents, id) == LoadState(agg, sys.log, id)
    {
      SnapshotLoadIsFullLoad(agg, codec, sys.log, sys.documents, id);
    }
    forall i | i in sys.clients && sys.clients[i].pc.Fetched?
      ensures LoadTail(agg, sys.log, sys.clients[i].id, sys.clients[i].pc.base, sys.clients[i].pc.from)
           == LoadState(agg, sys.log, sys.clients[i].id)
    {
      var c := sys.clients[i];
      assert ClientOk(agg, sys.log, sys.history, i, c);
      TailLoadIsFullLoad(agg, sys.log, c.id, c.pc.from, c.pc.base);
    }
  }

  // ---------------------------------------------------------------------------
  // Lost races
  // ---------------------------------------------------------------------------

  /** How many entries of a history wrote to a stream. */
  function Writes<S, E, C, R>(agg: Aggregate<S, E, C, R>, history: seq<Entry<E, C, R>>, key: StreamKey): nat {
    if |history| == 0 then 0
    else
      var n := |history| - 1;
      Writes(agg, history[..n], key)
      + if |Stream(Replay(agg, history), key)| > |Stream(Replay(agg, history[..n]), key)| then 1 else 0
  }

  lemma {:induction false} WritesGrow<S, E, C, R>(
      agg: Aggregate<S, E, C, R>, history: seq<Entry<E, C, R>>, k: nat, key: StreamKey)
    requires k <= |history|
    ensures Writes(agg, history[..k], key) <= Writes(agg, history, key)
    ensures |Stream(Replay(agg, history[..k]), key)| < |Stream(Replay(agg, history), key)| ==>
              Writes(agg, history[..k], key) < Writes(agg, history, key)
  {
    hide Replay, Select;
    if k < |history| {
      var n := |history| - 1;
      WritesGrow(agg, history[..n], k, key);
      assert history[..n][..k] == history[..k];
    } else {
      assert history[..k] == history;
    }
  }

  /** How often anybody who is not a client appended to a stream. */
  function ForeignAppends<E, C, R>(history: seq<Entry<E, C, R>>, key: StreamKey): nat {
    if |history| == 0 then 0
    else
      var n := |history| - 1;
      ForeignAppends(history[..n], key) + if history[n].ByOther? && history[n].rival.key == key then 1 else 0
  }

  lemma {:induction false} ForeignAppendsSplit<E, C, R>(history: seq<Entry<E, C, R>>, k: nat, key: StreamKey)
    requires k <= |history|
    ensures ForeignAppends(history, key) == ForeignAppends(history[..k], key) + ForeignAppends(history[k..], key)
  {
    if k < |history| {
      var n := |history| - 1;
      ForeignAppendsSplit(history[..n], k, key);
      assert history[..n][..k] == history[..k] && history[..n][k..] == history[k..][..n - k];
    } else {
      assert history[..k] == history;
    }
  }

  lemma ForeignAppendsGrow<E, C, R>(history: seq<Entry<E, C, R>>, from: nat, upto: nat, key: StreamKey)
    requires from <= upto <= |history|
    ensures ForeignAppends(history[from..upto], key) <= ForeignAppends(history[from..], key)
  {
    ForeignAppendsSplit(history[from..], upto - from, key);
    assert history[from..][..upto - from] == history[from..upto];
  }

  /** The clients of an instance that took effect at an entry in from..upto. */
  function AuthorsBetween<S, E, C, R>(sys: System<S, E, C, R>, id: string, from: nat, upto: nat): set<nat> {
    set j | j in sys.clients && sys.clients[j].id == id
            && sys.clients[j].entry.Some? && from <= sys.clients[j].entry.value < upto
  }

  /** The other clients of client i's instance that took effect there. */
  function RivalsBetween<S, E, C, R>(sys: System<S, E, C, R>, i: nat, from: nat, upto: nat): set<nat>
    requires i in sys.clients
  {
    AuthorsBetween(sys, sys.clients[i].id, from, upto) - {i}
  }

  lemma {:induction false} SubsetSize<T>(a: set<T>, b: set<T>)
    requires a <= b
    ensures |a| <= |b|
  {
    if a != {} {
      var x :| x in a;
      SubsetSize(a - {x}, b - {x});
    }
  }

  /** A write to the stream is an entry that aims at it. */
  lemma WriterAims<S, E, C, R>(agg: Aggregate<S, E, C, R>, history: seq<Entry<E, C, R>>, key: StreamKey)
    requires |history| > 0
    ensures Writes(agg, history, key) <= Writes(agg, history[..|history| - 1], key)
                                         + if TargetOf(agg, history[|history| - 1]) == key then 1 else 0
  {
    hide Replay, Select, WellFormed;
    ReplayExtends(agg, history);
  }

  lemma ForeignAppendsLast<E, C, R>(history: seq<Entry<E, C, R>>, key: StreamKey)
    requires |history| > 0
    ensures var last := history[|history| - 1];
            ForeignAppends(history, key)
            == ForeignAppends(history[..|history| - 1], key) + if last.ByOther? && last.rival.key == key then 1 else 0
  {
  }

  /** An entry of a client adds that client to the authors. */
  lemma AuthorAdded<S, E, C, R>(
      agg: Aggregate<S, E, C, R>, codec: Codec<Snapshot<S>>, sys: System<S, E, C, R>, id: string, from: nat, k: nat)
    requires Inv(agg, codec, sys) && from <= k < |sys.history|
    ensures var entry := sys.history[k];
            |AuthorsBetween(sys, id, from, k + 1)|
            >= |AuthorsBetween(sys, id, from, k)| + if entry.ByClient? && entry.id == id then 1 else 0
  {
    hide LogIsReplay, SnapshotsAreSound, Informed, Charged;
    var before, after := AuthorsBetween(sys, id, from, k), AuthorsBetween(sys, id, from, k + 1);
    SubsetSize(before, after);
    if sys.history[k].ByClient? && sys.history[k].id == id {
      var j := sys.history[k].client;
      assert ClientOk(agg, sys.log, sys.history, j, sys.clients[j]);
      SubsetSize(before + {j}, after);
    }
  }

  lemma {:induction false} WritesHaveAuthors<S, E, C, R>(
      agg: Aggregate<S, E, C, R>, codec: Codec<Snapshot<S>>, sys: System<S, E, C, R>, id: string, from: nat, n: nat)
    requires Inv(agg, codec, sys) && from <= n <= |sys.history|
    ensures Writes(agg, sys.history[..n], agg.Key(id)) + ForeignAppends(sys.history[..from], agg.Key(id))
         <= Writes(agg, sys.history[..from], agg.Key(id))
            + |AuthorsBetween(sys, id, from, n)| + ForeignAppends(sys.history[..n], agg.Key(id))
  {
    hide Inv, Writes, ForeignAppends, AuthorsBetween;
    if from < n {
      var h, k := sys.history[..n], n - 1;
      WritesHaveAuthors(agg, codec, sys, id, from, k);
      assert h[..k] == sys.history[..k] && h[k] == sys.history[k];
      WriterAims(agg, h, agg.Key(id));
      ForeignAppendsLast(h, agg.Key(id));
      AuthorAdded(agg, codec, sys, id, from, k);
    }
  }

  lemma EarlierLost<S, E, C, R>(
      agg: Aggregate<S, E, C, R>, history: seq<Entry<E, C, R>>, key: StreamKey, born: nat, lost: seq<Window>, n: nat)
    requires LostInOrder(agg, history, key, born, lost) && n <= |lost|
    ensures LostInOrder(agg, history, key, born, lost[..n])
  {
    hide Grew;
    forall j | 0 <= j < n
      ensures Grew(agg, history, key, lost[..n][j]) && IsInTurn(born, lost[..n], j)
    {
      assert Grew(agg, history, key, lost[j]) && IsInTurn(born, lost, j);
      assert lost[..n][j] == lost[j] && (j > 0 ==> lost[..n][j - 1] == lost[j - 1]);
    }
  }

  lemma LastLostGrew<S, E, C, R>(
      agg: Aggregate<S, E, C, R>, history: seq<Entry<E, C, R>>, key: StreamKey, born: nat, lost: seq<Window>)
    requires LostInOrder(agg, history, key, born, lost) && lost != []
    ensures Grew(agg, history, key, lost[|lost| - 1]) && IsInTurn(born, lost, |lost| - 1)
  {
  }

  /** Windows that follow one another hold one write each at least. */
  lemma {:induction false} LostWindowsHoldWrites<S, E, C, R>(
      agg: Aggregate<S, E, C, R>, history: seq<Entry<E, C, R>>, key: StreamKey, born: nat, lost: seq<Window>)
    requires born <= |history| && LostInOrder(agg, history, key, born, lost)
    ensures var last := if lost == [] then born else lost[|lost| - 1].at;
            && born <= last <= |history|
            && Writes(agg, history[..born], key) + |lost| <= Writes(agg, history[..last], key)
  {
    hide Replay, Stream, Writes, LostInOrder;
    if lost != [] {
      var n := |lost| - 1;
      assert LostInOrder(agg, history, key, born, lost[..n]) by {
        EarlierLost(agg, history, key, born, lost, n);
      }
      LostWindowsHoldWrites(agg, history, key, born, lost[..n]);
      var before := if n == 0 then born else lost[n - 1].at;
      var Window(seen, at) := lost[n];
      LastLostGrew(agg, history, key, born, lost);
      assert before == if lost[..n] == [] then born else lost[..n][n - 1].at;
      WritesGrow(agg, history[..seen], before, key);
      assert history[..seen][..before] == history[..before];
      WritesGrow(agg, history[..at], seen, key);
      assert history[..at][..seen] == history[..seen];
    }
  }

  /** Entry k wrote to client i's stream and is not client i's. */
  ghost predicate IsRivalWrite<S, E, C, R>(agg: Aggregate<S, E, C, R>, sys: System<S, E, C, R>, i: nat, k: nat)
    requires i in sys.clients && k < |sys.history|
  {
    var key, entry := agg.Key(sys.clients[i].id), sys.history[k];
    && TargetOf(agg, entry) == key
    && (entry.ByClient? ==> entry.client != i)
    && |Stream(Replay(agg, sys.history[..k]), key)| < |Stream(Replay(agg, sys.history[..k + 1]), key)|
  }

  /** Client i's j-th window lies after the one before it, or after the client's start, and somebody else wrote to the
      client's stream within it. */
  ghost predicate LostToRival<S, E, C, R>(agg: Aggregate<S, E, C, R>, sys: System<S, E, C, R>, i: nat, j: nat)
    requires i in sys.clients && j < |sys.clients[i].lost|
  {
    var c := sys.clients[i];
    var w := c.lost[j];
    && IsInTurn(c.born, c.lost, j) && w.seen < w.at <= |sys.history|
    && exists k :: w.seen <= k < w.at && IsRivalWrite(agg, sys, i, k)
  }

  /** Where a stream has grown, some entry made it grow. */
  lemma {:induction false} GrowthHasEntry<S, E, C, R>(
      agg: Aggregate<S, E, C, R>, history: seq<Entry<E, C, R>>, key: StreamKey, w: Window) returns (k: nat)
    requires Grew(agg, history, key, w)
    ensures w.seen <= k < w.at && TargetOf(agg, history[k]) == key
    ensures |Stream(Replay(agg, history[..k]), key)| < |Stream(Replay(agg, history[..k + 1]), key)|
    decreases w.at
  {
    hide Replay, Select, WellFormed;
    k := w.at - 1;
    if |Stream(Replay(agg, history[..k]), key)| == |Stream(Replay(agg, history[..w.at]), key)| {
      k := GrowthHasEntry(agg, history, key, Window(w.seen, k));
    } else {
      assert history[..w.at][..k] == history[..k];
      ReplayExtends(agg, history[..w.at]);
    }
  }

  lemma {:induction false} WindowsEndInTime<S, E, C, R>(
      agg: Aggregate<S, E, C, R>, history: seq<Entry<E, C, R>>, c: Client<S, E, C, R>, j: nat)
    requires LostInOrder(agg, history, agg.Key(c.id), c.born, c.lost) && j < |c.lost|
    ensures c.lost[j].at <= c.LastLost()
    decreases |c.lost| - j
  {
    hide Replay, Stream;
    if j + 1 < |c.lost| {
      WindowsEndInTime(agg, history, c, j + 1);
      assert Grew(agg, history, agg.Key(c.id), c.lost[j + 1]) && IsInTurn(c.born, c.lost, j + 1);
    }
  }

  lemma LostWindowHasRival<S, E, C, R>(
      agg: Aggregate<S, E, C, R>, codec: Codec<Snapshot<S>>, sys: System<S, E, C, R>, i: nat, j: nat)
    requires Inv(agg, codec, sys) && i in sys.clients && j < |sys.clients[i].lost|
    ensures LostToRival(agg, sys, i, j)
  {
    hide Replay, LogIsReplay, SnapshotsAreSound, Informed, Stream;
    var c, h := sys.clients[i], sys.history;
    assert ClientOk(agg, sys.log, h, i, c);
    assert Grew(agg, h, agg.Key(c.id), c.lost[j]);
    var k := GrowthHasEntry(agg, h, agg.Key(c.id), c.lost[j]);
    WindowsEndInTime(agg, h, c, j);
    assert IsRivalWrite(agg, sys, i, k);
  }

  /** Every refused append of every client, finished or not, has its own window, between that attempt's load and its
      append; the windows lie one after the other within the client's call and before it took effect; and inside
      each of them somebody else wrote to the stream. */
  lemma {:induction false} ConflictsAreCharged<S(!new), E(!new), C, R>(
      agg: Aggregate<S, E, C, R>, codec: Codec<Snapshot<S>>, steps: seq<Step<C>>, i: nat)
    requires Faithful(codec) && Faithful(agg.events.codec)
    requires i in Run(agg, codec, steps).clients
    ensures var sys := Run(agg, codec, steps);
            var c := sys.clients[i];
            && |c.lost| == c.attempts + (if c.pc.Done? && IsConflict(c.pc.outcome) then 1 else 0)
            && c.attempts <= c.mode.Retries()
            && (c.entry.Some? ==> c.LastLost() <= c.entry.value)
            && forall j | 0 <= j < |c.lost| :: LostToRival(agg, sys, i, j)
  {
    hide Run, LogIsReplay, SnapshotsAreSound, Informed, LostInOrder, Stream, LostToRival;
    InvHolds(agg, codec, steps);
    var sys := Run(agg, codec, steps);
    var c := sys.clients[i];
    assert ClientOk(agg, sys.log, sys.history, i, c);
    forall j | 0 <= j < |c.lost|
      ensures LostToRival(agg, sys, i, j)
    {
      LostWindowHasRival(agg, codec, sys, i, j);
    }
  }

  /** A client gives up with a conflict only after every allowed retry, and after as many writes by others, between
      its start and its last refused append, as it made attempts. */
  lemma {:induction false} ConflictNeedsRivals<S(!new), E(!new), C, R>(
      agg: Aggregate<S, E, C, R>, codec: Codec<Snapshot<S>>, steps: seq<Step<C>>, i: nat)
    requires Faithful(codec) && Faithful(agg.events.codec)
    requires var sys := Run(agg, codec, steps);
             i in sys.clients && sys.clients[i].pc.Done? && IsConflict(sys.clients[i].pc.outcome)
    ensures var sys := Run(agg, codec, steps);
            var c := sys.clients[i];
            var last := c.LastLost();
            && c.attempts == c.mode.Retries() && c.born <= last <= |sys.history|
            && c.mode.Retries() + 1
               <= |RivalsBetween(sys, i, c.born, last)| + ForeignAppends(sys.history[c.born..last], agg.Key(c.id))
  {
    hide Replay, Run, LogIsReplay, SnapshotsAreSound, Writes, ForeignAppends, LostInOrder, Stream, Informed;
    InvHolds(agg, codec, steps);
    var sys := Run(agg, codec, steps);
    var c, h := sys.clients[i], sys.history;
    var key, last := agg.Key(c.id), c.LastLost();
    assert ClientOk(agg, sys.log, h, i, c);
    LostWindowsHoldWrites(agg, h, key, c.born, c.lost);
    WritesHaveAuthors(agg, codec, sys, c.id, c.born, last);
    ForeignAppendsSplit(h[..last], c.born, key);
    assert h[..last][..c.born] == h[..c.born] && h[..last][c.born..] == h[c.born..last];
    assert AuthorsBetween(sys, c.id, c.born, last) == RivalsBetween(sys, i, c.born, last);
  }

  /** Retry progress: a client that may retry at least as often as other clients of its stream have taken effect since
      it started, nobody else having written there since, does not end with a conflict. */
  lemma {:induction false} EnoughRetriesNeverConflict<S(!new), E(!new), C, R>(
      agg: Aggregate<S, E, C, R>, codec: Codec<Snapshot<S>>, steps: seq<Step<C>>, i: nat)
    requires Faithful(codec) && Faithful(agg.events.codec)
    requires var sys := Run(agg, codec, steps);
             && i in sys.clients && sys.clients[i].pc.Done? && sys.clients[i].born <= |sys.history|
             && sys.clients[i].mode.Retrying?
             && ForeignAppends(sys.history[sys.clients[i].born..], agg.Key(sys.clients[i].id)) == 0
             && sys.clients[i].mode.max >= |RivalsBetween(sys, i, sys.clients[i].born, |sys.history|)|
    ensures !IsConflict(Run(agg, codec, steps).clients[i].pc.outcome)
  {
    hide Run, ForeignAppends;
    var sys := Run(agg, codec, steps);
    var c, h := sys.clients[i], sys.history;
    if IsConflict(c.pc.outcome) {
      ConflictNeedsRivals(agg, codec, steps, i);
      ForeignAppendsGrow(h, c.born, c.LastLost(), agg.Key(c.id));
      SubsetSize(RivalsBetween(sys, i, c.born, c.LastLost()), RivalsBetween(sys, i, c.born, |h|));
    }
  }

  // ---------------------------------------------------------------------------
  // The bound is exact
  // ---------------------------------------------------------------------------

  /** Whatever the state, the command writes something that can be stored. */
  ghost predicate AlwaysWrites<S(!new), E, C, R>(agg: Aggregate<S, E, C, R>, command: C) {
    forall state: S ::
      var decided := agg.handle(state, command);
      decided.Ok? && |decided.value| > 0 && Encodable(agg.events, decided.value)
  }

  /** Client 0 loads; client k is issued, loads and commits; client 0's append comes too late. */
  function LosingRound<C>(id: string, command: C, k: nat): seq<Step<C>> {
    [Advance(0), Spawn(k, id, command, Once), Advance(k), Advance(k), Advance(0)]
  }

  function LosingRun<C>(id: string, command: C, max: nat, rounds: nat): seq<Step<C>> {
    if rounds == 0 then [Spawn(0, id, command, Retrying(max))]
    else LosingRun(id, command, max, rounds - 1) + LosingRound(id, command, rounds)
  }

  /** Client 0 stands before its next attempt, having lost `rounds` of them to as many rivals. */
  ghost predicate LostSoFar<S, E, C, R>(
      agg: Aggregate<S, E, C, R>, sys: System<S, E, C, R>, id: string, command: C, max: nat, rounds: nat)
  {
    && WellFormed(sys.log) && LoadState(agg, sys.log, id).Ok?
    && (forall j: nat :: j in sys.clients <==> j <= rounds)
    && (forall j | j in sys.clients :: sys.clients[j].id == id)
    && var c := sys.clients[0];
       && c.command == command && c.mode == Retrying(max)
       && if rounds <= max then c.attempts == rounds && c.pc == Start
          else c.pc.Done? && IsConflict(c.pc.outcome)
  }

  /** Both clients decide on the same load; the first append wins and the second is refused. */
  lemma TwoOnOneLoad<S(!new), E(!new), C, R>(agg: Aggregate<S, E, C, R>, log: Log, id: string, command: C)
    requires WellFormed(log) && LoadState(agg, log, id).Ok?
    requires AlwaysWrites(agg, command) && Faithful(agg.events.codec)
    ensures var l := LoadState(agg, log, id).value;
            var events := agg.handle(l.state, command).value;
            var x := Commit(agg, log, id, l.version, events);
            && x.outcome.Ok? && WellFormed(x.log) && LoadState(agg, x.log, id).Ok?
            && IsConflict(Commit(agg, x.log, id, l.version, events).outcome)
  {
    hide Select, DecodeAll, Fold, Pushed, Records, EncodablePrefix, MaxVersion, WellFormed;
    var l := LoadState(agg, log, id).value;
    var events := agg.handle(l.state, command).value;
    var x := Commit(agg, log, id, l.version, events);
    KnownIsLoad(agg, log, id, l.version, l.state);
    AppendOutcome(log, agg.Key(id), ExpectedAfter(l.version), agg.events, events);
    AppendKeepsLog(log, agg.Key(id), ExpectedAfter(l.version), agg.events, events);
    AppendedIsKnown(agg, log, id, l.version, l.state, events);
    KnownIsLoad(agg, x.log, id, l.version + |events|, Fold(agg.apply, l.state, events));
    RefusedMeansMoved(agg, x.log, id, l.version, events);
  }

  lemma DoFive<S, E, C, R>(
      agg: Aggregate<S, E, C, R>, codec: Codec<Snapshot<S>>, sys: System<S, E, C, R>, steps: seq<Step<C>>)
    requires |steps| == 5
    ensures DoAll(agg, codec, sys, steps)
         == Do(agg, codec, Do(agg, codec, Do(agg, codec, Do(agg, codec, Do(agg, codec, sys,
              steps[0]), steps[1]), steps[2]), steps[3]), steps[4])
  {
    hide Do;
    var s1 := Do(agg, codec, sys, steps[0]);
    var s2 := Do(agg, codec, s1, steps[1]);
    var s3 := Do(agg, codec, s2, steps[2]);
    var s4 := Do(agg, codec, s3, steps[3]);
    assert steps[1..][1..] == steps[2..] && steps[2..][1..] == steps[3..] && steps[3..][1..] == steps[4..];
    assert DoAll(agg, codec, s4, steps[4..]) == Do(agg, codec, s4, steps[4]);
    assert DoAll(agg, codec, s3, steps[3..]) == DoAll(agg, codec, s4, steps[4..]);
    assert DoAll(agg, codec, s2, steps[2..]) == DoAll(agg, codec, s3, steps[3..]);
    assert DoAll(agg, codec, s1, steps[1..]) == DoAll(agg, codec, s2, steps[2..]);
  }

  lemma RoundIsLost<S(!new), E(!new), C, R>(
      agg: Aggregate<S, E, C, R>, codec: Codec<Snapshot<S>>, sys: System<S, E, C, R>,
      id: string, command: C, max: nat, rounds: nat)
    requires AlwaysWrites(agg, command) && Faithful(agg.events.codec)
    requires rounds <= max && LostSoFar(agg, sys, id, command, max, rounds)
    ensures LostSoFar(agg, DoAll(agg, codec, sys, LosingRound(id, command, rounds + 1)), id, command, max, rounds + 1)
  {
    hide LoadState, Commit, WellFormed, StartingPoint, LoadTail, TryAppend;
    var k := rounds + 1;
    TwoOnOneLoad(agg, sys.log, id, command);
    var s1 := Do(agg, codec, sys, Advance(0));
    var s2 := Do(agg, codec, s1, Spawn(k, id, command, Once));
    var s3 := Do(agg, codec, s2, Advance(k));
    var s4 := Do(agg, codec, s3, Advance(k));
    var s5 := Do(agg, codec, s4, Advance(0));
    DoFive(agg, codec, sys, LosingRound(id, command, k));
  }

  lemma {:induction false} RunConcat<S, E, C, R>(
      agg: Aggregate<S, E, C, R>, codec: Codec<Snapshot<S>>, steps: seq<Step<C>>, more: seq<Step<C>>)
    ensures Run(agg, codec, steps + more) == DoAll(agg, codec, Run(agg, codec, steps), more)
    decreases |more|
  {
    hide Do, Run;
    if |more| == 0 {
      assert steps + more == steps;
    } else {
      RunPush(agg, codec, steps, more[0]);
      RunConcat(agg, codec, steps + [more[0]], more[1..]);
      assert steps + more == steps + [more[0]] + more[1..];
    }
  }

  lemma FirstSpawn<S, E, C, R>(
      agg: Aggregate<S, E, C, R>, codec: Codec<Snapshot<S>>, id: string, command: C, max: nat)
    ensures LostSoFar(agg, Run(agg, codec, LosingRun(id, command, max, 0)), id, command, max, 0)
  {
    var steps := LosingRun(id, command, max, 0);
    assert Run(agg, codec, steps[..0]) == Empty();
    var sys := Run(agg, codec, steps);
    assert sys.clients == map[0 := Client(id, command, Retrying(max), 0, Start, 0, None, [])];
    NothingIsKnown(agg, [], id);
    KnownIsLoad(agg, [], id, 0, agg.initial);
  }

  /** One rival more than retries is too many: some interleaving with max + 1 rivals ends in a conflict. */
  lemma {:induction false} TooFewRetriesCanConflict<S(!new), E(!new), C, R>(
      agg: Aggregate<S, E, C, R>, codec: Codec<Snapshot<S>>, id: string, command: C, max: nat, rounds: nat)
    requires AlwaysWrites(agg, command) && Faithful(agg.events.codec)
    requires rounds <= max + 1
    ensures LostSoFar(agg, Run(agg, codec, LosingRun(id, command, max, rounds)), id, command, max, rounds)
  {
    hide LostSoFar, Do;
    if rounds == 0 {
      FirstSpawn(agg, codec, id, command, max);
    } else {
      TooFewRetriesCanConflict(agg, codec, id, command, max, rounds - 1);
      RunConcat(agg, codec, LosingRun(id, command, max, rounds - 1), LosingRound(id, command, rounds));
      RoundIsLost(agg, codec, Run(agg, codec, LosingRun(id, command, max, rounds - 1)), id, command, max, rounds - 1);
    }
  }
}
