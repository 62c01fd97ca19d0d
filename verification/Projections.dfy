/** Read models: replaying the log into a view, catching a stored view up, and racing callers that do so. */
module Projections {
  import opened Events
  import opened EventLog
  import opened MemoryStore
  import opened Aggregates
  import opened Service

  /** A read model folds recorded events and never decides anything. */
  datatype View<!V, !E> = View(initial: V, apply: (V, Recorded<E>) -> V, events: EventType<E>)

  /** A view and the global position of the last event folded into it, 0 for none. */
  datatype Projection<+V> = Projection(view: V, position: nat)

  function LastPosition(ls: seq<Located>): nat {
    if ls == [] then 0 else ls[|ls| - 1].position
  }

  /** The definition: fold every matching event of the log into a fresh view. */
  function Replayed<V, E>(view: View<V, E>, log: Log): Result<Projection<V>, StoreError> {
    var found := Select(log, Named(view.events.names), 0);
    match DecodeAll(view.events.codec, found)
    case Err(e) => Err(e)
    case Ok(rs) => Ok(Projection(Fold(view.apply, view.initial, rs), LastPosition(found)))
  }

  /** A projection agrees with the log up to its own position. */
  ghost predicate Reflects<V, E>(view: View<V, E>, log: Log, p: Projection<V>) {
    p.position <= |log| && Replayed(view, log[..p.position]) == Ok(p)
  }

  lemma FreshReflects<V, E>(view: View<V, E>, log: Log)
    ensures Reflects(view, log, Projection(view.initial, 0))
  {
  }

  lemma ReflectsStays<V, E>(view: View<V, E>, log: Log, longer: Log, p: Projection<V>)
    requires log <= longer && Reflects(view, log, p)
    ensures Reflects(view, longer, p)
  {
    assert longer[..p.position] == log[..p.position];
  }

  /** The prefix of the log a projection covers, and what is left, split the matching events in two. */
  lemma CoveredThenRest<V, E>(view: View<V, E>, log: Log, p: Projection<V>)
    requires Reflects(view, log, p)
    ensures var q := Named(view.events.names);
            var covered, rest := Select(log[..p.position], q, 0), Select(log, q, p.position);
            && Select(log, q, 0) == covered + rest
            && DecodeAll(view.events.codec, covered).Ok?
            && p == Projection(Fold(view.apply, view.initial, DecodeAll(view.events.codec, covered).value),
                               LastPosition(covered))
  {
    SelectSplit(log, Named(view.events.names), 0, p.position);
  }

  /** Folding one page of the rest gives a projection that reflects the log again, further on. */
  lemma PageAdvances<V, E>(view: View<V, E>, log: Log, p: Projection<V>, limit: nat)
    requires Reflects(view, log, p)
    requires var page := Page(log, view.events.names, p.position, limit);
             page != [] && DecodeAll(view.events.codec, page).Ok?
    ensures var page := Page(log, view.events.names, p.position, limit);
            var rs := DecodeAll(view.events.codec, page).value;
            && |rs| == |page| && rs[|rs| - 1].position == LastPosition(page)
            && p.position < LastPosition(page) <= |log|
            && Reflects(view, log, Projection(Fold(view.apply, p.view, rs), LastPosition(page)))
  {
    hide Select, DecodeAll, Fold, Page;
    var names, codec := view.events.names, view.events.codec;
    var page := Page(log, names, p.position, limit);
    var last := LastPosition(page);
    PageThenRest(log, names, p.position, limit);
    DecodeAllShape(codec, page);
    var upTo := log[..last];
    assert upTo[..p.position] == log[..p.position];
    SelectSplit(upTo, Named(names), 0, p.position);
    var covered := Select(log[..p.position], Named(names), 0);
    DecodeAllConcat(codec, covered, page);
    FoldConcat(view.apply, view.initial, DecodeAll(codec, covered).value, DecodeAll(codec, page).value);
  }

  /** What reading on from any projection comes to, whether or not it agrees with the log: the matching events beyond
      its position folded onto its view. */
  function Continued<V, E>(view: View<V, E>, log: Log, p: Projection<V>): Result<Projection<V>, StoreError> {
    var rest := Select(log, Named(view.events.names), p.position);
    match DecodeAll(view.events.codec, rest)
    case Err(e) => Err(e)
    case Ok(rs) => Ok(Projection(Fold(view.apply, p.view, rs), if rest == [] then p.position else LastPosition(rest)))
  }

  /** From a projection that reflects the log it comes to the full replay. */
  lemma ContinuedIsReplayed<V, E>(view: View<V, E>, log: Log, p: Projection<V>)
    requires Reflects(view, log, p)
    ensures Continued(view, log, p) == Replayed(view, log)
  {
    hide Select, DecodeAll, Fold;
    var q, codec := Named(view.events.names), view.events.codec;
    CoveredThenRest(view, log, p);
    var covered, rest := Select(log[..p.position], q, 0), Select(log, q, p.position);
    DecodeAllConcat(codec, covered, rest);
    DecodeErrs(codec, rest);
    if DecodeAll(codec, rest).Ok? {
      DecodeAllShape(codec, rest);
      FoldConcat(view.apply, view.initial, DecodeAll(codec, covered).value, DecodeAll(codec, rest).value);
      assert rest == [] ==> covered + rest == covered;
    }
  }

  /** With nothing left to read it comes to itself. */
  lemma EndContinues<V, E>(view: View<V, E>, log: Log, p: Projection<V>, limit: nat)
    requires Page(log, view.events.names, p.position, limit) == []
    ensures Continued(view, log, p) == Ok(p)
  {
    hide Select;
    var rest := Select(log, Named(view.events.names), p.position);
    assert |rest| == |Page(log, view.events.names, p.position, limit)|;
  }

  /** An undecodable page makes reading on fail. */
  lemma BadPageContinues<V, E>(view: View<V, E>, log: Log, p: Projection<V>, limit: nat)
    requires DecodeAll(view.events.codec, Page(log, view.events.names, p.position, limit)).Err?
    ensures Continued(view, log, p) == Err(Serialization)
  {
    hide Select, DecodeAll, Fold;
    var rest := Select(log, Named(view.events.names), p.position);
    var page := Page(log, view.events.names, p.position, limit);
    assert rest == page + rest[|page|..];
    DecodeAllConcat(view.events.codec, page, rest[|page|..]);
  }

  /** Folding a page and reading on from there comes to the same. */
  lemma PageContinues<V, E>(view: View<V, E>, log: Log, p: Projection<V>, limit: nat)
    requires var page := Page(log, view.events.names, p.position, limit);
             page != [] && DecodeAll(view.events.codec, page).Ok?
    ensures var page := Page(log, view.events.names, p.position, limit);
            var rs := DecodeAll(view.events.codec, page).value;
            && |rs| == |page| && rs[|rs| - 1].position == LastPosition(page)
            && p.position < LastPosition(page) <= |log|
            && Continued(view, log, p)
            == Continued(view, log, Projection(Fold(view.apply, p.view, rs), LastPosition(page)))
  {
    hide Select, DecodeAll, Fold, Page;
    var names, codec := view.events.names, view.events.codec;
    var page := Page(log, names, p.position, limit);
    var rest := Select(log, Named(names), LastPosition(page));
    PageThenRest(log, names, p.position, limit);
    DecodeAllShape(codec, page);
    DecodeAllConcat(codec, page, rest);
    DecodeErrs(codec, rest);
    if DecodeAll(codec, rest).Ok? {
      FoldConcat(view.apply, p.view, DecodeAll(codec, page).value, DecodeAll(codec, rest).value);
      assert rest == [] ==> page + rest == page;
    }
  }

  /** With nothing left to read a projection that reflects the log is the full replay. */
  lemma CaughtUpIsReplayed<V, E>(view: View<V, E>, log: Log, p: Projection<V>, limit: nat)
    requires Reflects(view, log, p) && Page(log, view.events.names, p.position, limit) == []
    ensures Replayed(view, log) == Ok(p)
  {
    ContinuedIsReplayed(view, log, p);
    EndContinues(view, log, p, limit);
  }

  /** An undecodable page makes the full replay fail as well. */
  lemma BadPageFailsReplay<V, E>(view: View<V, E>, log: Log, p: Projection<V>, limit: nat)
    requires Reflects(view, log, p)
    requires DecodeAll(view.events.codec, Page(log, view.events.names, p.position, limit)).Err?
    ensures Replayed(view, log) == Err(Serialization)
  {
    ContinuedIsReplayed(view, log, p);
    BadPageContinues(view, log, p, limit);
  }

  /** How many events a catch-up pulls from the log per round trip. */
  const DEFAULT_BATCH: nat := 256

  function EventsLeft(log: Log, position: nat): nat {
    if position < |log| then |log| - position else 0
  }

  lemma FoldStarts<S, E>(apply: (S, E) -> S, state: S, events: seq<E>)
    ensures Fold(apply, state, events[..0]) == state
  {
  }

  lemma FoldPush<S, E>(apply: (S, E) -> S, state: S, events: seq<E>, i: nat)
    requires i < |events|
    ensures Fold(apply, state, events[..i + 1]) == apply(Fold(apply, state, events[..i]), events[i])
  {
    assert events[..i + 1][..i] == events[..i];
  }

  /** Fold page after page onto a projection until the log has no more. */
  method FoldPages<V, E>(store: MemoryStore, view: View<V, E>, from: Projection<V>, batch: nat)
    returns (result: Result<Projection<V>, StoreError>, changed: bool)
    ensures result == Continued(view, store.log, from)
    ensures result.Ok? ==> (changed <==> result.value.position != from.position)
  {
    hide Select, DecodeAll, Page, Continued, Fold;
    var projection := from;
    changed := false;
    while true
      invariant Continued(view, store.log, projection) == Continued(view, store.log, from)
      invariant from.position <= projection.position
      invariant changed <==> projection.position != from.position
      decreases EventsLeft(store.log, projection.position)
    {
      var page := store.ReadAll(projection.position, batch, view.events);
      if page.Err? {
        BadPageContinues(view, store.log, projection, batch);
        DecodeErrs(view.events.codec, Page(store.log, view.events.names, projection.position, batch));
        return Err(page.error), changed;
      }
      DecodeAllShape(view.events.codec, Page(store.log, view.events.names, projection.position, batch));
      if |page.value| == 0 {
        EndContinues(view, store.log, projection, batch);
        return Ok(projection), changed;
      }
      PageContinues(view, store.log, projection, batch);
      ghost var before := projection;
      FoldStarts(view.apply, before.view, page.value);
      for i := 0 to |page.value|
        invariant projection.view == Fold(view.apply, before.view, page.value[..i])
        invariant i > 0 ==> projection.position == page.value[i - 1].position
        invariant i > 0 ==> changed
      {
        FoldPush(view.apply, before.view, page.value, i);
        projection := Projection(view.apply(projection.view, page.value[i]), page.value[i].position);
        changed := true;
      }
      assert page.value[..|page.value|] == page.value;
    }
  }

  lemma PositionInLog<V, E>(view: View<V, E>, log: Log, p: Projection<V>)
    requires Reflects(view, log, p)
    ensures p.position <= |log|
  {
  }

  /** Rebuild a view from scratch. */
  method ReplayView<V, E>(store: MemoryStore, view: View<V, E>, batch: nat := DEFAULT_BATCH)
    returns (result: Result<Projection<V>, StoreError>)
    ensures result == Replayed(view, store.log)
  {
    FreshReflects(view, store.log);
    ContinuedIsReplayed(view, store.log, Projection(view.initial, 0));
    var changed;
    result, changed := FoldPages(store, view, Projection(view.initial, 0), batch);
  }

  /** The stored projection, or a fresh one. */
  function HeldProjection<V, E>(
      view: View<V, E>, codec: Codec<Projection<V>>, documents: Documents, collection: string, key: string)
    : Result<Projection<V>, StoreError>
  {
    match FetchDocument(documents, collection, key, codec)
    case Err(e) => Err(e)
    case Ok(None) => Ok(Projection(view.initial, 0))
    case Ok(Some(p)) => Ok(p)
  }

  ghost predicate HeldIsSound<V, E>(
      view: View<V, E>, codec: Codec<Projection<V>>, log: Log, documents: Documents, collection: string, key: string)
  {
    var held := HeldProjection(view, codec, documents, collection, key);
    held.Ok? && Reflects(view, log, held.value)
  }

  datatype CaughtUp<+V> = CaughtUp(documents: Documents, result: Result<Projection<V>, StoreError>)

  /** Save a projection that has been read to the end, if it moved. */
  function SavedIfMoved<V>(
      codec: Codec<Projection<V>>, documents: Documents, collection: string, key: string, p: Projection<V>, moved: bool)
    : CaughtUp<V>
  {
    if !moved then CaughtUp(documents, Ok(p))
    else
      var text := codec.encode(p);
      if text.None? then CaughtUp(documents, Err(Serialization))
      else CaughtUp(PutDocument(documents, collection, key, text.value), Ok(p))
  }

  /** One catch-up with nobody in between. */
  function CatchUp<V, E>(
      view: View<V, E>, codec: Codec<Projection<V>>, log: Log, documents: Documents, collection: string, key: string)
    : CaughtUp<V>
  {
    match HeldProjection(view, codec, documents, collection, key)
    case Err(e) => CaughtUp(documents, Err(e))
    case Ok(held) =>
      match Continued(view, log, held)
      case Err(e) => CaughtUp(documents, Err(e))
      case Ok(p) => SavedIfMoved(codec, documents, collection, key, p, p.position != held.position)
  }

  /** Bring a stored view up to date, whatever is stored and whatever the batch size; save it exactly when it moved. */
  method CatchUpView<V, E>(
      store: MemoryStore, view: View<V, E>, codec: Codec<Projection<V>>, collection: string, key: string,
      batch: nat := DEFAULT_BATCH)
    returns (result: Result<Projection<V>, StoreError>)
    modifies store`documents
    ensures CatchUp(view, codec, store.log, old(store.documents), collection, key)
         == CaughtUp(store.documents, result)
  {
    hide Continued;
    var fetched := store.Fetch(collection, key, codec);
    if fetched.Err? {
      return Err(fetched.error);
    }
    var projection := if fetched.value.Some? then fetched.value.value else Projection(view.initial, 0);
    var changed;
    result, changed := FoldPages(store, view, projection, batch);
    if result.Ok? && changed {
      var saved := store.Save(collection, key, codec, result.value);
      if saved.Err? {
        result := Err(saved.error);
      }
    }
  }

  /** Reading on that does not move changes nothing. */
  lemma ContinuedStays<V, E>(view: View<V, E>, log: Log, p: Projection<V>)
    ensures var after := Continued(view, log, p);
            after.Ok? ==> p.position <= after.value.position && (after.value.position == p.position ==> after.value == p)
  {
    SelectSound(log, Named(view.events.names), p.position);
    var rest := Select(log, Named(view.events.names), p.position);
    if rest != [] {
      assert rest[|rest| - 1] in rest;
    }
  }

  lemma ReplayedReflects<V, E>(view: View<V, E>, log: Log, p: Projection<V>)
    requires Replayed(view, log) == Ok(p)
    ensures Reflects(view, log, p)
  {
    var q := Named(view.events.names);
    var found := Select(log, q, 0);
    if found != [] {
      SelectCut(log, q, 0, |found| - 1);
      assert found[..|found|] == found;
    }
  }

  /** From a sound stored view, however far it had got, a catch-up returns the full replay, fails exactly when that
      fails or the moved view cannot be written, writes nothing unless the view moved, and leaves a sound view stored,
      at the end if it succeeded. */
  lemma CatchUpIsReplay<V(!new), E>(
      view: View<V, E>, codec: Codec<Projection<V>>, log: Log, documents: Documents, collection: string, key: string)
    requires Faithful(codec) && HeldIsSound(view, codec, log, documents, collection, key)
    ensures var x := CatchUp(view, codec, log, documents, collection, key);
            var held, replayed := HeldProjection(view, codec, documents, collection, key).value, Replayed(view, log);
            && (x.result.Ok? <==>
                  replayed.Ok? && (replayed.value.position != held.position ==> codec.encode(replayed.value).Some?))
            && (x.result.Ok? ==>
                  && x.result == replayed
                  && HeldProjection(view, codec, x.documents, collection, key) == replayed)
            && (x.result.Err? || replayed.value.position == held.position ==> x.documents == documents)
            && HeldIsSound(view, codec, log, x.documents, collection, key)
  {
    hide Replayed, Reflects, Continued;
    var held := HeldProjection(view, codec, documents, collection, key).value;
    ContinuedIsReplayed(view, log, held);
    var continued := Continued(view, log, held);
    if continued.Ok? {
      var p := continued.value;
      ContinuedStays(view, log, held);
      ReplayedReflects(view, log, p);
      if codec.encode(p).Some? {
        DocumentsAreIndependent(documents, collection, key, codec.encode(p).value, collection, key);
      }
    }
  }

  // ---------------------------------------------------------------------------
  // Racing callers
  // ---------------------------------------------------------------------------

  /** Between two store calls of one catch-up. `seen` is the length of the log at its last, empty, read. */
  datatype CallerPc<+V> =
    | Start
    | Reading(p: Projection<V>, changed: bool)
    | Saving(p: Projection<V>, seen: nat)
    | Done(result: Result<Projection<V>, StoreError>, seen: nat)

  /** `born` is the length of the log when the call was made. */
  datatype Caller<+V> = Caller(pc: CallerPc<V>, born: nat)

  datatype Race<+V> = Race(log: Log, documents: Documents, callers: map<nat, Caller<V>>)

  /** What one projection is about: its view, codec, document and batch size. */
  datatype Setup<!V, !E> = Setup(
    view: View<V, E>, codec: Codec<Projection<V>>, collection: string, key: string, batch: nat)

  datatype RaceStep =
    | Call(caller: nat)
    | Advance(caller: nat)
    | Append(rival: Rival)
    | SaveElsewhere(collection: string, key: string, text: string)
    | Drop(collection: string, key: string)

  function Goes<V>(race: Race<V>, i: nat, pc: CallerPc<V>): Race<V>
    requires i in race.callers
  {
    race.(callers := race.callers[i := race.callers[i].(pc := pc)])
  }

  function NextCall<V, E>(setup: Setup<V, E>, race: Race<V>, i: nat): Race<V>
    requires i in race.callers
  {
    var c, view := race.callers[i], setup.view;
    match c.pc
    case Start =>
      (match HeldProjection(view, setup.codec, race.documents, setup.collection, setup.key)
       case Err(e) => Goes(race, i, Done(Err(e), |race.log|))
       case Ok(p) => Goes(race, i, Reading(p, false)))
    case Reading(p, changed) =>
      var page := Page(race.log, view.events.names, p.position, setup.batch);
      (match DecodeAll(view.events.codec, page)
       case Err(e) => Goes(race, i, Done(Err(e), |race.log|))
       case Ok(rs) =>
         if page != [] then Goes(race, i, Reading(Projection(Fold(view.apply, p.view, rs), LastPosition(page)), true))
         else if changed then Goes(race, i, Saving(p, |race.log|))
         else Goes(race, i, Done(Ok(p), |race.log|)))
    case Saving(p, seen) =>
      var text := setup.codec.encode(p);
      if text.None? then Goes(race, i, Done(Err(Serialization), seen))
      else
        Goes(race, i, Done(Ok(p), seen))
        .(documents := PutDocument(race.documents, setup.collection, setup.key, text.value))
    case Done(_, _) => race
  }

  function DoRace<V, E>(setup: Setup<V, E>, race: Race<V>, step: RaceStep): Race<V> {
    match step
    case Call(i) =>
      if i in race.callers then race
      else race.(callers := race.callers[i := Caller(Start, |race.log|)])
    case Advance(i) =>
      if i in race.callers then NextCall(setup, race, i) else race
    case Append(rival) =>
      race.(log := TryAppend(race.log, rival.key, rival.expected, WireEvents(), rival.wires).log)
    case SaveElsewhere(collection, key, text) =>
      if (collection, key) == (setup.collection, setup.key) then race
      else race.(documents := PutDocument(race.documents, collection, key, text))
    case Drop(collection, key) => race.(documents := DropDocument(race.documents, collection, key))
  }

  function RunRace<V, E>(setup: Setup<V, E>, steps: seq<RaceStep>): Race<V> {
    if steps == [] then Race([], map[], map[])
    else DoRace(setup, RunRace(setup, steps[..|steps| - 1]), steps[|steps| - 1])
  }

  /** A caller that has read to the end held the full replay of the log as it was then, during its own call. */
  ghost predicate WasCurrent<V, E>(setup: Setup<V, E>, log: Log, born: nat, p: Projection<V>, seen: nat) {
    born <= seen <= |log| && Replayed(setup.view, log[..seen]) == Ok(p)
  }

  ghost predicate CallerOk<V, E>(setup: Setup<V, E>, log: Log, c: Caller<V>) {
    && c.born <= |log|
    && match c.pc
       case Start => true
       case Reading(p, _) => Reflects(setup.view, log, p)
       case Saving(p, seen) => Reflects(setup.view, log, p) && WasCurrent(setup, log, c.born, p, seen)
       case Done(Ok(p), seen) => Reflects(setup.view, log, p) && WasCurrent(setup, log, c.born, p, seen)
       case Done(Err(_), _) => true
  }

  ghost predicate RaceInv<V, E>(setup: Setup<V, E>, race: Race<V>) {
    && WellFormed(race.log)
    && HeldIsSound(setup.view, setup.codec, race.log, race.documents, setup.collection, setup.key)
    && forall i | i in race.callers :: CallerOk(setup, race.log, race.callers[i])
  }

  lemma CallerStaysOk<V, E>(setup: Setup<V, E>, log: Log, longer: Log, c: Caller<V>)
    requires log <= longer && CallerOk(setup, log, c)
    ensures CallerOk(setup, longer, c)
  {
    hide Replayed;
    match c.pc
    case Start =>
    case Reading(p, _) => ReflectsStays(setup.view, log, longer, p);
    case Saving(p, seen) =>
      ReflectsStays(setup.view, log, longer, p);
      assert longer[..seen] == log[..seen];
    case Done(Ok(p), seen) =>
      ReflectsStays(setup.view, log, longer, p);
      assert longer[..seen] == log[..seen];
    case Done(Err(_), _) =>
  }

  lemma GoesKeepsInv<V, E>(setup: Setup<V, E>, race: Race<V>, i: nat, pc: CallerPc<V>, documents: Documents)
    requires RaceInv(setup, race) && i in race.callers
    requires CallerOk(setup, race.log, race.callers[i].(pc := pc))
    requires HeldIsSound(setup.view, setup.codec, race.log, documents, setup.collection, setup.key)
    ensures RaceInv(setup, Goes(race, i, pc).(documents := documents))
  {
    hide CallerOk, HeldIsSound, WellFormed;
  }

  lemma InvParts<V, E>(setup: Setup<V, E>, race: Race<V>, i: nat)
    requires RaceInv(setup, race) && i in race.callers
    ensures WellFormed(race.log) && CallerOk(setup, race.log, race.callers[i])
    ensures HeldIsSound(setup.view, setup.codec, race.log, race.documents, setup.collection, setup.key)
  {
  }

  lemma NextCallKeepsInv<V(!new), E>(setup: Setup<V, E>, race: Race<V>, i: nat)
    requires RaceInv(setup, race) && i in race.callers && Faithful(setup.codec)
    ensures RaceInv(setup, NextCall(setup, race, i))
  {
    hide Replayed, Reflects, Page, DecodeAll, Fold, WellFormed, RaceInv;
    var c, view, log, documents := race.callers[i], setup.view, race.log, race.documents;
    assert WellFormed(log) && CallerOk(setup, log, c)
        && HeldIsSound(view, setup.codec, log, documents, setup.collection, setup.key) by {
      InvParts(setup, race, i);
    }
    match c.pc
    case Start =>
      var held := HeldProjection(view, setup.codec, documents, setup.collection, setup.key).value;
      GoesKeepsInv(setup, race, i, Reading(held, false), documents);
    case Reading(p, changed) =>
      var page := Page(log, view.events.names, p.position, setup.batch);
      var decoded := DecodeAll(view.events.codec, page);
      if decoded.Err? {
        GoesKeepsInv(setup, race, i, Done(Err(decoded.error), |log|), documents);
      } else if page != [] {
        PageAdvances(view, log, p, setup.batch);
        var further := Projection(Fold(view.apply, p.view, decoded.value), LastPosition(page));
        GoesKeepsInv(setup, race, i, Reading(further, true), documents);
      } else {
        CaughtUpIsReplayed(view, log, p, setup.batch);
        assert log[..|log|] == log;
        GoesKeepsInv(setup, race, i, if changed then Saving(p, |log|) else Done(Ok(p), |log|), documents);
      }
    case Saving(p, seen) =>
      var text := setup.codec.encode(p);
      if text.None? {
        GoesKeepsInv(setup, race, i, Done(Err(Serialization), seen), documents);
      } else {
        var saved := PutDocument(documents, setup.collection, setup.key, text.value);
        DocumentsAreIndependent(documents, setup.collection, setup.key, text.value, setup.collection, setup.key);
        GoesKeepsInv(setup, race, i, Done(Ok(p), seen), saved);
      }
    case Done(_, _) =>
  }

  lemma BornOk<V, E>(setup: Setup<V, E>, log: Log)
    ensures CallerOk(setup, log, Caller(Start, |log|))
  {
  }

  lemma RaceStepKeepsInv<V(!new), E>(setup: Setup<V, E>, race: Race<V>, step: RaceStep)
    requires RaceInv(setup, race) && Faithful(setup.codec)
    ensures RaceInv(setup, DoRace(setup, race, step))
  {
    hide Replayed, Reflects, WellFormed, TryAppend, CallerOk, NextCall;
    var log, documents := race.log, race.documents;
    match step
    case Call(i) => assert CallerOk(setup, log, Caller(Start, |log|)) by { BornOk(setup, log); }
    case Advance(i) =>
      if i in race.callers {
        NextCallKeepsInv(setup, race, i);
      }
    case Append(rival) =>
      AppendKeepsLog(log, rival.key, rival.expected, WireEvents(), rival.wires);
      var longer := TryAppend(log, rival.key, rival.expected, WireEvents(), rival.wires).log;
      ReflectsStays(setup.view, log, longer,
                    HeldProjection(setup.view, setup.codec, documents, setup.collection, setup.key).value);
      forall i | i in race.callers
        ensures CallerOk(setup, longer, race.callers[i])
      {
        CallerStaysOk(setup, log, longer, race.callers[i]);
      }
    case SaveElsewhere(collection, key, text) =>
      DocumentsAreIndependent(documents, collection, key, text, setup.collection, setup.key);
    case Drop(collection, key) =>
      DocumentsAreIndependent(documents, collection, key, "", setup.collection, setup.key);
      FreshReflects(setup.view, log);
  }

  /** In every interleaving of catch-ups and appends, stale saves included, the stored projection is the fold of the
      matching events up to its own position; and every call that returned a projection returned the full replay
      of the log as it stood at some moment of that call. */
  lemma {:induction false} RacingCatchUpsAreSound<V(!new), E>(setup: Setup<V, E>, steps: seq<RaceStep>)
    requires Faithful(setup.codec)
    ensures var race := RunRace(setup, steps);
            && WellFormed(race.log)
            && HeldIsSound(setup.view, setup.codec, race.log, race.documents, setup.collection, setup.key)
            && forall i | i in race.callers && race.callers[i].pc.Done? && race.callers[i].pc.result.Ok? ::
                 WasCurrent(setup, race.log, race.callers[i].born, race.callers[i].pc.result.value, race.callers[i].pc.seen)
    ensures RaceInv(setup, RunRace(setup, steps))
  {
    if steps == [] {
      FreshReflects(setup.view, []);
    } else {
      hide Replayed, Reflects, WellFormed, DoRace;
      RacingCatchUpsAreSound(setup, steps[..|steps| - 1]);
      RaceStepKeepsInv(setup, RunRace(setup, steps[..|steps| - 1]), steps[|steps| - 1]);
      var race := RunRace(setup, steps);
      assert forall i | i in race.callers :: CallerOk(setup, race.log, race.callers[i]);
    }
  }

  // ---------------------------------------------------------------------------
  // One caller alone
  // ---------------------------------------------------------------------------


  function AdvanceBy<V, E>(setup: Setup<V, E>, race: Race<V>, i: nat, n: nat): Race<V>
    decreases n
  {
    if n == 0 then race else AdvanceBy(setup, DoRace(setup, race, Advance(i)), i, n - 1)
  }

  lemma {:induction false} DoneStays<V, E>(setup: Setup<V, E>, race: Race<V>, i: nat, n: nat)
    requires i in race.callers && race.callers[i].pc.Done?
    ensures AdvanceBy(setup, race, i, n) == race
  {
    if n > 0 {
      DoneStays(setup, race, i, n - 1);
    }
  }

  /** Caller i is done with this result and left these documents. */
  ghost predicate EndedAs<V>(race: Race<V>, after: Race<V>, i: nat, x: CaughtUp<V>) {
    && after.log == race.log && after.documents == x.documents
    && i in after.callers && after.callers[i].pc.Done? && after.callers[i].pc.result == x.result
  }

  lemma {:induction false} SavesAlone<V, E>(setup: Setup<V, E>, race: Race<V>, i: nat, n: nat)
    requires i in race.callers && race.callers[i].pc.Saving? && n >= 1
    ensures EndedAs(race, AdvanceBy(setup, race, i, n), i,
                    SavedIfMoved(setup.codec, race.documents, setup.collection, setup.key, race.callers[i].pc.p, true))
  {
    DoneStays(setup, DoRace(setup, race, Advance(i)), i, n - 1);
  }

  lemma {:induction false} ReadsAlone<V, E>(setup: Setup<V, E>, race: Race<V>, i: nat, n: nat)
    requires i in race.callers && race.callers[i].pc.Reading?
    requires n >= EventsLeft(race.log, race.callers[i].pc.p.position) + 2
    ensures var Reading(p, changed) := race.callers[i].pc;
            var after := AdvanceBy(setup, race, i, n);
            match Continued(setup.view, race.log, p)
            case Err(e) => EndedAs(race, after, i, CaughtUp(race.documents, Err(e)))
            case Ok(end) =>
              EndedAs(race, after, i,
                SavedIfMoved(setup.codec, race.documents, setup.collection, setup.key, end,
                             changed || end.position != p.position))
    decreases n
  {
    hide Continued, Select, DecodeAll, Page, Fold, DecodeAll;
    var Reading(p, changed) := race.callers[i].pc;
    var view, log := setup.view, race.log;
    var page := Page(log, view.events.names, p.position, setup.batch);
    var next := DoRace(setup, race, Advance(i));
    var decoded := DecodeAll(view.events.codec, page);
    if decoded.Err? {
      BadPageContinues(view, log, p, setup.batch);
      DecodeErrs(view.events.codec, page);
      DoneStays(setup, next, i, n - 1);
    } else if page != [] {
      PageContinues(view, log, p, setup.batch);
      ReadsAlone(setup, next, i, n - 1);
      ContinuedStays(view, log, next.callers[i].pc.p);
    } else {
      EndContinues(view, log, p, setup.batch);
      if changed {
        SavesAlone(setup, next, i, n - 1);
      } else {
        DoneStays(setup, next, i, n - 1);
      }
    }
  }

  /** A caller that advances alone ends, after no more steps than the log has events and three more, with the result
      and the documents of the imperative catch-up. */
  lemma {:induction false} AloneIsCatchUp<V, E>(setup: Setup<V, E>, race: Race<V>, i: nat, n: nat)
    requires i in race.callers && race.callers[i].pc.Start? && n >= |race.log| + 3
    ensures EndedAs(race, AdvanceBy(setup, race, i, n), i,
                    CatchUp(setup.view, setup.codec, race.log, race.documents, setup.collection, setup.key))
  {
    hide Continued;
    var next := DoRace(setup, race, Advance(i));
    if next.callers[i].pc.Done? {
      DoneStays(setup, next, i, n - 1);
    } else {
      ReadsAlone(setup, next, i, n - 1);
    }
  }
}
