/** Checkpointed delivery: the checkpoint document, and the pump as one caller sees it. */
module Subscriptions {
  import opened Events
  import opened EventLog
  import opened MemoryStore

  const CHECKPOINTS := "__checkpoint"

  /** What a subscription is: the events it follows, the name its checkpoint is kept under, and its page size. */
  datatype Subscription<!E> = Subscription(
    events: EventType<E>, name: string, codec: Codec<nat>, batch: nat)
  {
    function Matching(): Query {
      Named(events.names)
    }
  }

  /** The stored position, 0 when the subscription has never run. */
  function Checkpoint<E>(sub: Subscription<E>, documents: Documents): Result<nat, StoreError> {
    match FetchDocument(documents, CHECKPOINTS, sub.name, sub.codec)
    case Err(e) => Err(e)
    case Ok(None) => Ok(0)
    case Ok(Some(position)) => Ok(position)
  }

  function Saved<E>(sub: Subscription<E>, documents: Documents, position: nat): Documents
    requires sub.codec.encode(position).Some?
  {
    PutDocument(documents, CHECKPOINTS, sub.name, sub.codec.encode(position).value)
  }

  method LoadCheckpoint<E>(store: MemoryStore, sub: Subscription<E>) returns (position: Result<nat, StoreError>)
    ensures position == Checkpoint(sub, store.documents)
  {
    var fetched := store.Fetch(CHECKPOINTS, sub.name, sub.codec);
    if fetched.Err? {
      return Err(fetched.error);
    }
    return Ok(if fetched.value.Some? then fetched.value.value else 0);
  }

  method SaveCheckpoint<E>(store: MemoryStore, sub: Subscription<E>, position: nat)
    returns (result: Result<(), StoreError>)
    modifies store`documents
    ensures result == if sub.codec.encode(position).None? then Err(Serialization) else Ok(())
    ensures store.documents
         == if result.Err? then old(store.documents) else Saved(sub, old(store.documents), position)
  {
    result := store.Save(CHECKPOINTS, sub.name, sub.codec, position);
  }

  // ---------------------------------------------------------------------------
  // The pump as one caller sees it
  // ---------------------------------------------------------------------------

  /** The callback: it is handed events one by one, and which of its invocations fail is up to the environment. */
  class Handler<E> {
    var invoked: seq<Recorded<E>>
    const fails: (nat, Recorded<E>) -> bool

    constructor (fails: (nat, Recorded<E>) -> bool)
      ensures invoked == [] && this.fails == fails
    {
      invoked, this.fails := [], fails;
    }

    method Handle(event: Recorded<E>) returns (result: Result<(), StoreError>)
      modifies this
      ensures invoked == old(invoked) + [event]
      ensures result == if fails(|old(invoked)|, event) then Err(Serialization) else Ok(())
    {
      result := if fails(|invoked|, event) then Err(Serialization) else Ok(());
      invoked := invoked + [event];
    }
  }

  function Reached(due: seq<Located>, n: nat, start: nat): nat
    requires n <= |due|
  {
    if n == 0 then start else due[n - 1].position
  }

  /** No document but this subscription's checkpoint differs. */
  ghost predicate OnlyCheckpointMoved<E>(sub: Subscription<E>, before: Documents, after: Documents) {
    forall collection, key | (collection, key) != (CHECKPOINTS, sub.name) ::
      GetDocument(after, collection, key) == GetDocument(before, collection, key)
  }

  /** A run that started at `start` has handed over `delivered`, decoded from the first events that were due, has
      processed the first `n` of them without a failure, and its checkpoint stands at the last of those. */
  ghost predicate RunState<E>(
      sub: Subscription<E>, log: Log, start: nat, before: Documents, documents: Documents,
      n: nat, delivered: seq<Recorded<E>>, earlier: nat, fails: (nat, Recorded<E>) -> bool)
  {
    var due := Select(log, sub.Matching(), start);
    && n <= |delivered| <= |due|
    && Checkpoint(sub, documents) == Ok(Reached(due, n, start))
    && OnlyCheckpointMoved(sub, before, documents)
    && DecodeAll(sub.events.codec, due[..|delivered|]) == Ok(delivered)
    && forall j | 0 <= j < n :: !fails(earlier + j, delivered[j])
  }

  /** How a run ended: the documents it left, what it handed over, how many of those it processed, and its result. */
  datatype Pumped<+E> = Pumped(
    documents: Documents, delivered: seq<Recorded<E>>, processed: nat, result: Result<nat, StoreError>)

  /** What is left of a page lies beyond the position, in order, and in the log. */
  ghost predicate IsAhead<E>(log: Log, position: nat, page: seq<Recorded<E>>) {
    && (forall k | 0 <= k < |page| :: position < page[k].position <= |log|)
    && forall j, k | 0 <= j < k < |page| :: page[j].position < page[k].position
  }

  lemma PageIsAhead<E>(sub: Subscription<E>, log: Log, position: nat)
    ensures var page := DecodeAll(sub.events.codec, Page(log, sub.events.names, position, sub.batch));
            page.Ok? ==> IsAhead(log, position, page.value)
  {
    var page := Page(log, sub.events.names, position, sub.batch);
    SelectSound(log, sub.Matching(), position);
    DecodeAllShape(sub.events.codec, page);
    assert forall l <- page :: l in Select(log, sub.Matching(), position);
  }

  /** One run, from the rest of a page on: hand over its events one by one, saving the checkpoint after each; then
      read the next page, and end when it is empty. A failure anywhere ends the run at once. */
  ghost function PumpFrom<E>(
      sub: Subscription<E>, log: Log, fails: (nat, Recorded<E>) -> bool, earlier: nat, documents: Documents,
      position: nat, page: seq<Recorded<E>>, delivered: seq<Recorded<E>>, processed: nat)
    : Pumped<E>
    requires IsAhead(log, position, page)
    decreases if position < |log| then |log| - position else 0, if |page| == 0 then 1 else 0
  {
    if |page| > 0 then
      var handed := delivered + [page[0]];
      if fails(earlier + |delivered|, page[0]) || sub.codec.encode(page[0].position).None? then
        Pumped(documents, handed, processed, Err(Serialization))
      else
        PumpFrom(sub, log, fails, earlier, Saved(sub, documents, page[0].position),
                 page[0].position, page[1..], handed, processed + 1)
    else
      PageIsAhead(sub, log, position);
      match DecodeAll(sub.events.codec, Page(log, sub.events.names, position, sub.batch))
      case Err(e) => Pumped(documents, delivered, processed, Err(e))
      case Ok(next) =>
        if |next| == 0 then Pumped(documents, delivered, processed, Ok(processed))
        else PumpFrom(sub, log, fails, earlier, documents, position, next, delivered, processed)
  }

  /** One run with nobody in between, from the stored checkpoint. */
  ghost function PumpAlone<E>(
      sub: Subscription<E>, log: Log, fails: (nat, Recorded<E>) -> bool, earlier: nat, documents: Documents): Pumped<E>
  {
    match Checkpoint(sub, documents)
    case Err(e) => Pumped(documents, [], 0, Err(e))
    case Ok(start) => PumpFrom(sub, log, fails, earlier, documents, start, [], [], 0)
  }

  lemma NothingAhead<E>(log: Log, position: nat)
    ensures IsAhead<E>(log, position, [])
  {
  }

  lemma HeadIsAhead<E>(log: Log, position: nat, page: seq<Recorded<E>>, k: nat)
    requires k < |page| && IsAhead(log, position, page[k..])
    ensures page[k..][0] == page[k] && page[k..][1..] == page[k + 1..]
    ensures position < page[k].position <= |log|
    ensures IsAhead(log, page[k].position, page[k + 1..])
  {
    assert page[k..][0] == page[k];
    assert page[k + 1..] == page[k..][1..];
  }

  lemma InvokedSoFar<T>(invoked: seq<T>, delivered: seq<T>)
    ensures invoked <= invoked + delivered && (invoked + delivered)[|invoked|..] == delivered
  {
  }

  lemma InvokedOnceMore<T>(invoked: seq<T>, delivered: seq<T>, event: T)
    ensures invoked + delivered + [event] == invoked + (delivered + [event])
  {
  }

  /** Unfolded once, with no event in hand: read a page. */
  lemma PumpReads<E>(
      sub: Subscription<E>, log: Log, fails: (nat, Recorded<E>) -> bool, earlier: nat, documents: Documents,
      position: nat, delivered: seq<Recorded<E>>, processed: nat)
    ensures IsAhead<E>(log, position, [])
    ensures var page := DecodeAll(sub.events.codec, Page(log, sub.events.names, position, sub.batch));
            && (page.Ok? ==> IsAhead(log, position, page.value))
            && PumpFrom(sub, log, fails, earlier, documents, position, [], delivered, processed)
            == if page.Err? then Pumped(documents, delivered, processed, Err(page.error))
               else if |page.value| == 0 then Pumped(documents, delivered, processed, Ok(processed))
               else PumpFrom(sub, log, fails, earlier, documents, position, page.value, delivered, processed)
  {
    hide Page, DecodeAll;
    PageIsAhead(sub, log, position);
  }

  /** Unfolded once, with the k-th event of a page in hand: hand it over. */
  lemma PumpHands<E>(
      sub: Subscription<E>, log: Log, fails: (nat, Recorded<E>) -> bool, earlier: nat, documents: Documents,
      position: nat, page: seq<Recorded<E>>, k: nat, delivered: seq<Recorded<E>>, processed: nat)
    requires k < |page| && IsAhead(log, position, page[k..])
    ensures position < page[k].position <= |log| && IsAhead(log, page[k].position, page[k + 1..])
    ensures var handed := delivered + [page[k]];
            PumpFrom(sub, log, fails, earlier, documents, position, page[k..], delivered, processed)
            == if fails(earlier + |delivered|, page[k]) || sub.codec.encode(page[k].position).None?
               then Pumped(documents, handed, processed, Err(Serialization))
               else PumpFrom(sub, log, fails, earlier, Saved(sub, documents, page[k].position),
                             page[k].position, page[k + 1..], handed, processed + 1)
  {
    hide Page, DecodeAll, IsAhead;
    HeadIsAhead(log, position, page, k);
  }

  /** Walk the log from the stored checkpoint, hand over each event, and advance the checkpoint after each. */
  method Pump<E>(store: MemoryStore, sub: Subscription<E>, handler: Handler<E>)
    returns (result: Result<nat, StoreError>, processed: nat)
    modifies store`documents, handler
    ensures old(handler.invoked) <= handler.invoked
    ensures PumpAlone(sub, store.log, handler.fails, |old(handler.invoked)|, old(store.documents))
         == Pumped(store.documents, handler.invoked[|old(handler.invoked)|..], processed, result)
  {
    hide Checkpoint, Saved, DecodeAll, Page, IsAhead, PumpFrom, ToRecorded;
    var loaded := LoadCheckpoint(store, sub);
    processed := 0;
    ghost var invoked, delivered: seq<Recorded<E>> := handler.invoked, [];
    InvokedSoFar(invoked, delivered);
    if loaded.Err? {
      return Err(loaded.error), processed;
    }
    var position: nat := loaded.value;
    ghost var run := PumpAlone(sub, store.log, handler.fails, |invoked|, store.documents);
    NothingAhead<E>(store.log, position);
    while true
      invariant handler.invoked == invoked + delivered
      invariant IsAhead<E>(store.log, position, [])
      invariant run == PumpFrom(sub, store.log, handler.fails, |invoked|, store.documents,
                                position, [], delivered, processed)
      decreases if position < |store.log| then |store.log| - position else 0
    {
      InvokedSoFar(invoked, delivered);
      PumpReads(sub, store.log, handler.fails, |invoked|, store.documents, position, delivered, processed);
      var page := store.ReadAll(position, sub.batch, sub.events);
      if page.Err? {
        return Err(page.error), processed;
      }
      if |page.value| == 0 {
        return Ok(processed), processed;
      }
      ghost var base := position;
      assert page.value[0..] == page.value;
      for k := 0 to |page.value|
        invariant handler.invoked == invoked + delivered
        invariant IsAhead(store.log, position, page.value[k..])
        invariant if k == 0 then position == base else base < position <= |store.log|
        invariant run == PumpFrom(sub, store.log, handler.fails, |invoked|, store.documents,
                                  position, page.value[k..], delivered, processed)
      {
        var event := page.value[k];
        PumpHands(sub, store.log, handler.fails, |invoked|, store.documents, position, page.value, k, delivered,
                  processed);
        var handled := handler.Handle(event);
        InvokedOnceMore(invoked, delivered, event);
        delivered := delivered + [event];
        InvokedSoFar(invoked, delivered);
        if handled.Err? {
          return Err(handled.error), processed;
        }
        var saved := SaveCheckpoint(store, sub, event.position);
        if saved.Err? {
          return Err(saved.error), processed;
        }
        position := event.position;
        processed := processed + 1;
      }
      assert page.value[|page.value|..] == [];
    }
  }

  // ---------------------------------------------------------------------------
  // What a run amounts to
  // ---------------------------------------------------------------------------

  /** Whether n is a multiple of the page size; a batch size of 0 reads single events. */
  predicate AreWholePages(n: nat, batch: nat) {
    var size := if batch == 0 then 1 else batch;
    n == 0 || (n >= size && AreWholePages(n - size, batch))
  }

  /** Why a run ended early: the event handed over last failed or its checkpoint could not be saved; or, all those
      handed over being full pages, the next page does not decode. */
  ghost predicate WasInterrupted<E>(
      sub: Subscription<E>, log: Log, start: nat, n: nat, delivered: seq<Recorded<E>>,
      earlier: nat, fails: (nat, Recorded<E>) -> bool)
  {
    var due := Select(log, sub.Matching(), start);
    if |delivered| == n then
      && n <= |due|
      && AreWholePages(n, sub.batch)
      && DecodeAll(sub.events.codec, Page(log, sub.events.names, Reached(due, n, start), sub.batch)).Err?
    else
      && |delivered| == n + 1
      && (fails(earlier + n, delivered[n]) || sub.codec.encode(delivered[n].position).None?)
  }

  /** The run is in the state of a run; if completed it has processed everything that was due, and if not it was
      interrupted. */
  ghost predicate EndsWell<E>(
      sub: Subscription<E>, log: Log, start: nat, before: Documents, earlier: nat,
      fails: (nat, Recorded<E>) -> bool, x: Pumped<E>)
  {
    && RunState(sub, log, start, before, x.documents, x.processed, x.delivered, earlier, fails)
    && match x.result
       case Ok(n) => n == x.processed == |x.delivered| == |Select(log, sub.Matching(), start)|
       case Err(_) => WasInterrupted(sub, log, start, x.processed, x.delivered, earlier, fails)
  }

  lemma NothingDecoded<E>(codec: Codec<E>, due: seq<Located>)
    ensures DecodeAll(codec, due[..0]) == Ok([])
  {
  }

  lemma RunStarts<E>(
      sub: Subscription<E>, log: Log, documents: Documents, earlier: nat, fails: (nat, Recorded<E>) -> bool)
    requires Checkpoint(sub, documents).Ok?
    ensures var start := Checkpoint(sub, documents).value;
            && RunState(sub, log, start, documents, documents, 0, [], earlier, fails)
            && Reached(Select(log, sub.Matching(), start), 0, start) == start
  {
    NothingDecoded(sub.events.codec, Select(log, sub.Matching(), Checkpoint(sub, documents).value));
  }

  /** `event` is the `n`-th due event, decoded. */
  ghost predicate IsDue<E>(sub: Subscription<E>, log: Log, start: nat, n: nat, event: Recorded<E>) {
    var due := Select(log, sub.Matching(), start);
    && n < |due|
    && sub.events.codec.decode(due[n].stored.payload) == Some(event.payload)
    && event == ToRecorded(due[n], event.payload)
  }

  /** Handing over the next due event. */
  lemma Delivers<E>(
      sub: Subscription<E>, log: Log, start: nat, before: Documents, documents: Documents,
      n: nat, delivered: seq<Recorded<E>>, earlier: nat, fails: (nat, Recorded<E>) -> bool, event: Recorded<E>)
    requires RunState(sub, log, start, before, documents, n, delivered, earlier, fails) && |delivered| == n
    requires IsDue(sub, log, start, n, event)
    ensures RunState(sub, log, start, before, documents, n, delivered + [event], earlier, fails)
  {
    hide Select, DecodeAll, Checkpoint, OnlyCheckpointMoved;
    var due := Select(log, sub.Matching(), start);
    assert due[..n + 1] == due[..n] + [due[n]];
    DecodeAllPush(sub.events.codec, due[..n], due[n], event.payload);
  }

  lemma CheckpointMoves<E>(sub: Subscription<E>, documents: Documents, position: nat)
    requires Faithful(sub.codec) && sub.codec.encode(position).Some?
    ensures Checkpoint(sub, Saved(sub, documents, position)) == Ok(position)
    ensures forall collection, key | (collection, key) != (CHECKPOINTS, sub.name) ::
              GetDocument(Saved(sub, documents, position), collection, key) == GetDocument(documents, collection, key)
  {
    var text := sub.codec.encode(position).value;
    forall collection, key
      ensures GetDocument(Saved(sub, documents, position), CHECKPOINTS, sub.name) == Some(text)
      ensures (collection, key) != (CHECKPOINTS, sub.name) ==>
                GetDocument(Saved(sub, documents, position), collection, key) == GetDocument(documents, collection, key)
    {
      DocumentsAreIndependent(documents, CHECKPOINTS, sub.name, text, collection, key);
    }
  }

  /** Saving the checkpoint of the event just handed over. */
  lemma Acknowledges<E>(
      sub: Subscription<E>, log: Log, start: nat, before: Documents, documents: Documents,
      n: nat, delivered: seq<Recorded<E>>, earlier: nat, fails: (nat, Recorded<E>) -> bool)
    requires RunState(sub, log, start, before, documents, n, delivered, earlier, fails) && |delivered| == n + 1
    requires !fails(earlier + n, delivered[n]) && Faithful(sub.codec)
    requires sub.codec.encode(delivered[n].position).Some?
    ensures RunState(sub, log, start, before, Saved(sub, documents, delivered[n].position),
                     n + 1, delivered, earlier, fails)
  {
    hide Select, DecodeAll, Checkpoint;
    var due := Select(log, sub.Matching(), start);
    DecodeAllShape(sub.events.codec, due[..n + 1]);
    CheckpointMoves(sub, documents, delivered[n].position);
  }

  /** The page read after `n` processed events holds the next ones that are due. */
  lemma DuePage<E>(log: Log, sub: Subscription<E>, start: nat, n: nat, rs: seq<Recorded<E>>)
    requires var due := Select(log, sub.Matching(), start);
             && n <= |due|
             && DecodeAll(sub.events.codec, Page(log, sub.events.names, Reached(due, n, start), sub.batch)) == Ok(rs)
    ensures var due := Select(log, sub.Matching(), start);
            && n + |rs| <= |due|
            && (|rs| == 0 ==> n == |due|)
            && (|rs| == (if sub.batch == 0 then 1 else sub.batch) || n + |rs| == |due|)
            && forall k | 0 <= k < |rs| ::
                 IsDue(sub, log, start, n + k, rs[k]) && rs[k].position == Reached(due, n + k + 1, start)
  {
    hide Select, DecodeAll;
    var due := Select(log, sub.Matching(), start);
    var page := Page(log, sub.events.names, Reached(due, n, start), sub.batch);
    DecodeAllShape(sub.events.codec, page);
    if n > 0 {
      SelectCut(log, sub.Matching(), start, n - 1);
    }
    assert Select(log, sub.Matching(), Reached(due, n, start)) == due[n..];
  }

  lemma OnlyFullPagesFail<E>(sub: Subscription<E>, log: Log, start: nat, n: nat)
    requires var due := Select(log, sub.Matching(), start);
             && n <= |due|
             && DecodeAll(sub.events.codec, Page(log, sub.events.names, Reached(due, n, start), sub.batch)).Err?
    ensures n < |Select(log, sub.Matching(), start)|
  {
    hide Select;
    var due := Select(log, sub.Matching(), start);
    if n == |due| && n > 0 {
      SelectCut(log, sub.Matching(), start, n - 1);
    }
  }

  /** From any point of a run on: it goes on to keep the state of a run, and ends for a reason. */
  lemma {:induction false} PumpKeepsRun<E>(
      sub: Subscription<E>, log: Log, fails: (nat, Recorded<E>) -> bool, earlier: nat,
      start: nat, before: Documents, documents: Documents,
      position: nat, page: seq<Recorded<E>>, delivered: seq<Recorded<E>>, processed: nat)
    requires Faithful(sub.codec) && IsAhead(log, position, page) && |delivered| == processed
    requires RunState(sub, log, start, before, documents, processed, delivered, earlier, fails)
    requires var due := Select(log, sub.Matching(), start);
             && processed + |page| <= |due| && position == Reached(due, processed, start)
             && (AreWholePages(processed + |page|, sub.batch) || processed + |page| == |due|)
    requires forall k | 0 <= k < |page| :: IsDue(sub, log, start, processed + k, page[k])
    ensures EndsWell(sub, log, start, before, earlier, fails,
                     PumpFrom(sub, log, fails, earlier, documents, position, page, delivered, processed))
    decreases if position < |log| then |log| - position else 0, if |page| == 0 then 1 else 0
  {
    hide RunState, Select, DecodeAll, Checkpoint, Saved, Page;
    var due := Select(log, sub.Matching(), start);
    if |page| > 0 {
      assert IsDue(sub, log, start, processed, page[0]);
      Delivers(sub, log, start, before, documents, processed, delivered, earlier, fails, page[0]);
      if !fails(earlier + processed, page[0]) && sub.codec.encode(page[0].position).Some? {
        var handed := delivered + [page[0]];
        Acknowledges(sub, log, start, before, documents, processed, handed, earlier, fails);
        forall k | 0 <= k < |page| - 1
          ensures IsDue(sub, log, start, processed + 1 + k, page[1..][k])
        {
          assert IsDue(sub, log, start, processed + (k + 1), page[k + 1]);
        }
        PumpKeepsRun(sub, log, fails, earlier, start, before, Saved(sub, documents, page[0].position),
                     page[0].position, page[1..], handed, processed + 1);
      }
    } else {
      PageIsAhead(sub, log, position);
      var next := DecodeAll(sub.events.codec, Page(log, sub.events.names, position, sub.batch));
      if next.Err? {
        OnlyFullPagesFail(sub, log, start, processed);
      } else {
        DuePage(log, sub, start, processed, next.value);
        if |next.value| > 0 {
          PumpKeepsRun(sub, log, fails, earlier, start, before, documents, position, next.value, delivered, processed);
        }
      }
    }
  }

  /** A completed run has handed over every matching event beyond the old checkpoint, in order, once, and its
      checkpoint stands at the last one. An interrupted one has processed the first few of them, has handed over one
      more at most, and its checkpoint stands at the last one processed; and it was interrupted only because a handler
      failed, a checkpoint could not be written, or a page did not decode. */
  lemma {:induction false} PumpDelivers<E>(
      sub: Subscription<E>, log: Log, fails: (nat, Recorded<E>) -> bool, earlier: nat, documents: Documents)
    requires Faithful(sub.codec)
    ensures var x := PumpAlone(sub, log, fails, earlier, documents);
            match Checkpoint(sub, documents)
            case Err(e) => x == Pumped(documents, [], 0, Err(e))
            case Ok(start) => EndsWell(sub, log, start, documents, earlier, fails, x)
  {
    hide RunState, Select, PumpFrom, EndsWell, Checkpoint;
    var loaded := Checkpoint(sub, documents);
    if loaded.Ok? {
      RunStarts(sub, log, documents, earlier, fails);
      NothingAhead<E>(log, loaded.value);
      PumpKeepsRun(sub, log, fails, earlier, loaded.value, documents, documents, loaded.value, [], [], 0);
    }
  }
}
