/** The service as a concurrent protocol: any number of clients of one store, interleaved at every store call. */
module Protocol {
  import opened Events
  import opened EventLog
  import opened MemoryStore
  import opened Aggregates
  import opened Snapshots
  import opened Service

  /** Which entry point a client called. */
  datatype Mode = Once | Retrying(max: nat) | Snapshotting(policy: Policy) {
    /** How many refused appends it survives. */
    function Retries(): nat {
      if Retrying? then max else 0
    }
  }

  /** Where a client stands between two store calls, with what it holds in its local variables. */
  datatype Pc<+S, +E, +R> =
    | Start
    | Fetched(base: S, from: nat)
    | Deciding(state: S, version: nat, events: seq<E>, seen: nat)
    | Saving(snapshot: Snapshot<S>, recorded: seq<Recorded<E>>)
    | Done(outcome: Outcome<E, R>)

  /** The window of one refused append: how long the history was at its load and at its append. */
  datatype Window = Window(seen: nat, at: nat)

  /** `born`, `entry`, `lost` and the `seen` of a decision are bookkeeping: how long the history was when the client
      started, at which place of it the client took effect, the windows of its refused appends, and how long it was
      at the client's last load. */
  datatype Client<+S, +E, +C, +R> = Client(
    id: string, command: C, mode: Mode, attempts: nat, pc: Pc<S, E, R>, born: nat, entry: Option<nat>,
    lost: seq<Window>)
  {
    /** Where the client's last refused append was, or where it started. */
    function LastLost(): nat {
      if lost == [] then born else lost[|lost| - 1].at
    }
  }

  /** What has taken effect so far, in order. */
  datatype Entry<+E, +C, +R> =
    | ByClient(client: nat, id: string, command: C, outcome: Outcome<E, R>)
    | ByOther(rival: Rival)

  datatype System<+S, +E, +C, +R> = System(
    log: Log, documents: Documents, clients: map<nat, Client<S, E, C, R>>, history: seq<Entry<E, C, R>>)

  function Empty<S, E, C, R>(): System<S, E, C, R> {
    System([], map[], map[], [])
  }

  /** A client calls the service, a client does its next store call, or anybody else writes. */
  datatype Step<+C> =
    | Spawn(client: nat, id: string, command: C, mode: Mode)
    | Advance(client: nat)
    | OtherAppends(rival: Rival)
    | OtherSaves(collection: string, key: string, text: string)
    | OtherDrops(collection: string, key: string)

  function Move<S, E, C, R>(sys: System<S, E, C, R>, i: nat, c: Client<S, E, C, R>): System<S, E, C, R> {
    sys.(clients := sys.clients[i := c])
  }

  /** The client takes effect here and now: its command enters the history with the outcome it will report. */
  function TakeEffect<S, E, C, R>(
      sys: System<S, E, C, R>, i: nat, log: Log, outcome: Outcome<E, R>, pc: Pc<S, E, R>): System<S, E, C, R>
    requires i in sys.clients
  {
    var c := sys.clients[i];
    Move(sys, i, c.(pc := pc, entry := Some(|sys.history|)))
    .(log := log, history := sys.history + [ByClient(i, c.id, c.command, outcome)])
  }

  /** What a client does with what it loaded: fail, be rejected, be done with nothing to write, or go on to append. */
  function Decide<S, E, C, R>(
      agg: Aggregate<S, E, C, R>, sys: System<S, E, C, R>, i: nat, loaded: Result<Loaded<S>, StoreError>)
    : System<S, E, C, R>
    requires i in sys.clients
  {
    var c := sys.clients[i];
    match loaded
    case Err(e) => TakeEffect(sys, i, sys.log, Err(Store(e)), Done(Err(Store(e))))
    case Ok(l) =>
      match agg.handle(l.state, c.command)
      case Err(rule) => TakeEffect(sys, i, sys.log, Err(Rejected(rule)), Done(Err(Rejected(rule))))
      case Ok(events) =>
        if |events| == 0 then TakeEffect(sys, i, sys.log, Ok([]), Done(Ok([])))
        else Move(sys, i, c.(pc := Deciding(l.state, l.version, events, |sys.history|)))
  }

  function AfterCommit<S, E, C, R>(
      agg: Aggregate<S, E, C, R>, c: Client<S, E, C, R>, outcome: Outcome<E, R>): Pc<S, E, R>
    requires c.pc.Deciding?
  {
    if c.mode.Snapshotting? && outcome.Ok? && |outcome.value| > 0 then
      var last := outcome.value[|outcome.value| - 1].version;
      if c.mode.policy.IsDue(c.pc.version, last) then
        Saving(Snapshot(last, Fold(agg.apply, c.pc.state, Payloads(outcome.value))), outcome.value)
      else Done(outcome)
    else Done(outcome)
  }

  /** The next store call of one client. */
  function Next<S, E, C, R>(
      agg: Aggregate<S, E, C, R>, codec: Codec<Snapshot<S>>, sys: System<S, E, C, R>, i: nat): System<S, E, C, R>
    requires i in sys.clients
  {
    var c := sys.clients[i];
    match c.pc
    case Start =>
      if c.mode.Snapshotting? then
        match StartingPoint(agg, codec, sys.documents, c.id)
        case Err(e) => Move(sys, i, c.(pc := Done(Err(Store(e)))))
        case Ok(start) => Move(sys, i, c.(pc := Fetched(start.state, start.version)))
      else Decide(agg, sys, i, LoadState(agg, sys.log, c.id))
    case Fetched(base, from) => Decide(agg, sys, i, LoadTail(agg, sys.log, c.id, base, from))
    case Deciding(state, version, events, seen) =>
      var x := Commit(agg, sys.log, c.id, version, events);
      var lost := c.lost + [Window(seen, |sys.history|)];
      if !IsConflict(x.outcome) then
        TakeEffect(sys, i, x.log, x.outcome, AfterCommit(agg, c, x.outcome))
      else if c.attempts < c.mode.Retries() then
        Move(sys, i, c.(attempts := c.attempts + 1, pc := Start, lost := lost))
      else
        Move(sys, i, c.(pc := Done(x.outcome), lost := lost))
    case Saving(snapshot, recorded) =>
      var text := codec.encode(snapshot);
      if text.None? then Move(sys, i, c.(pc := Done(Err(Store(Serialization)))))
      else
        Move(sys, i, c.(pc := Done(Ok(recorded))))
        .(documents := PutDocument(sys.documents, Collection(agg.kind), c.id, text.value))
    case Done(_) => sys
  }

  /** One step; a step that is not possible changes nothing. Snapshots are saved by this service only. */
  function Do<S, E, C, R>(
      agg: Aggregate<S, E, C, R>, codec: Codec<Snapshot<S>>, sys: System<S, E, C, R>, step: Step<C>)
    : System<S, E, C, R>
  {
    match step
    case Spawn(i, id, command, mode) =>
      if i in sys.clients then sys
      else sys.(clients := sys.clients[i := Client(id, command, mode, 0, Start, |sys.history|, None, [])])
    case Advance(i) =>
      if i in sys.clients then Next(agg, codec, sys, i) else sys
    case OtherAppends(rival) =>
      sys.(log := TryAppend(sys.log, rival.key, rival.expected, WireEvents(), rival.wires).log,
           history := sys.history + [ByOther(rival)])
    case OtherSaves(collection, key, text) =>
      if collection == Collection(agg.kind) then sys
      else sys.(documents := PutDocument(sys.documents, collection, key, text))
    case OtherDrops(collection, key) =>
      sys.(documents := DropDocument(sys.documents, collection, key))
  }

  /** Every interleaving of any number of clients and other writers is a list of steps. */
  function Run<S, E, C, R>(agg: Aggregate<S, E, C, R>, codec: Codec<Snapshot<S>>, steps: seq<Step<C>>)
    : System<S, E, C, R>
  {
    if |steps| == 0 then Empty()
    else Do(agg, codec, Run(agg, codec, steps[..|steps| - 1]), steps[|steps| - 1])
  }

  /** More steps from any state. */
  function DoAll<S, E, C, R>(
      agg: Aggregate<S, E, C, R>, codec: Codec<Snapshot<S>>, sys: System<S, E, C, R>, steps: seq<Step<C>>)
    : System<S, E, C, R>
    decreases |steps|
  {
    if |steps| == 0 then sys else DoAll(agg, codec, Do(agg, codec, sys, steps[0]), steps[1..])
  }

  // ---------------------------------------------------------------------------
  // Histories as sequential programs
  // ---------------------------------------------------------------------------

  /** The log that results when the entries of a history are run one after the other, each alone. */
  function Replay<S, E, C, R>(agg: Aggregate<S, E, C, R>, history: seq<Entry<E, C, R>>): Log {
    if |history| == 0 then []
    else
      var n := |history| - 1;
      var before := Replay(agg, history[..n]);
      match history[n]
      case ByClient(_, id, command, _) => Execute(agg, before, id, command).log
      case ByOther(rival) => TryAppend(before, rival.key, rival.expected, WireEvents(), rival.wires).log
  }

  /** Every outcome the history records is the one its command has when run alone at that place. */
  ghost predicate Legal<S, E, C, R>(agg: Aggregate<S, E, C, R>, history: seq<Entry<E, C, R>>) {
    |history| > 0 ==>
      var n := |history| - 1;
      && Legal(agg, history[..n])
      && (history[n].ByClient? ==>
            history[n].outcome == Execute(agg, Replay(agg, history[..n]), history[n].id, history[n].command).outcome)
  }

  /** Read entry by entry. */
  lemma {:induction false} LegalAt<S, E, C, R>(agg: Aggregate<S, E, C, R>, history: seq<Entry<E, C, R>>, k: nat)
    requires Legal(agg, history) && k < |history| && history[k].ByClient?
    ensures Execute(agg, Replay(agg, history[..k]), history[k].id, history[k].command)
         == Executed(Replay(agg, history[..k + 1]), history[k].outcome)
  {
    hide Execute, TryAppend;
    var n := |history| - 1;
    if k < n {
      LegalAt(agg, history[..n], k);
      assert history[..n][..k] == history[..k] && history[..n][..k + 1] == history[..k + 1];
    } else {
      assert history[..k + 1] == history;
    }
  }

  lemma EmptyIsWellFormed()
    ensures WellFormed([])
  {
  }

  function TargetOf<S, E, C, R>(agg: Aggregate<S, E, C, R>, entry: Entry<E, C, R>): StreamKey {
    match entry
    case ByClient(_, id, _, _) => agg.Key(id)
    case ByOther(rival) => rival.key
  }

  /** One entry extends one stream only. */
  lemma {:induction false} ReplayExtends<S, E, C, R>(agg: Aggregate<S, E, C, R>, history: seq<Entry<E, C, R>>)
    requires |history| > 0
    ensures var n := |history| - 1;
            Continues(Replay(agg, history[..n]), Replay(agg, history), TargetOf(agg, history[n]))
    decreases |history|, 0
  {
    hide WellFormed, Execute, TryAppend, Select;
    var n := |history| - 1;
    var before := Replay(agg, history[..n]);
    assert WellFormed(before) by {
      if n > 0 {
        ReplayExtends(agg, history[..n]);
      } else {
        EmptyIsWellFormed();
      }
    }
    match history[n]
    case ByClient(_, id, command, _) => ExecuteAlone(agg, before, id, command);
    case ByOther(rival) => AppendKeepsLog(before, rival.key, rival.expected, WireEvents(), rival.wires);
  }

  lemma {:induction false} ReplayIsWellFormed<S, E, C, R>(agg: Aggregate<S, E, C, R>, history: seq<Entry<E, C, R>>)
    ensures WellFormed(Replay(agg, history))
  {
    if |history| > 0 {
      ReplayExtends(agg, history);
    }
  }

  lemma {:induction false} ReplayGrows<S, E, C, R>(
      agg: Aggregate<S, E, C, R>, history: seq<Entry<E, C, R>>, k: nat)
    requires k <= |history|
    ensures Replay(agg, history[..k]) <= Replay(agg, history)
  {
    hide Execute, TryAppend, WellFormed, Select, Replay;
    if k < |history| {
      var n := |history| - 1;
      ReplayGrows(agg, history[..n], k);
      assert history[..n][..k] == history[..k];
      ReplayExtends(agg, history);
    } else {
      assert history[..k] == history;
    }
  }
}
