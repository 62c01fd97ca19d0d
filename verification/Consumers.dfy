/** Any number of consumers of one subscription, stepping between store calls, failing and crashing anywhere. */
module Consumers {
  import opened Events
  import opened EventLog
  import opened MemoryStore
  import opened Service
  import opened Subscriptions

  /** Where a consumer stands. `Holding` is about to hand over the head of its batch; `Acking` has done so and is
      about to save the checkpoint. */
  datatype Pc =
    | Start
    | Reading(position: nat)
    | Holding(position: nat, batch: seq<Located>)
    | Acking(position: nat, rest: seq<Located>)
    | Done(position: nat)
    | Stopped

  /** `started` is the checkpoint it loaded; `processed` is what it will report; `handed` are the positions it has
      handed to the handler. */
  datatype Consumer = Consumer(pc: Pc, started: nat, processed: nat, handed: seq<nat>)

  /** `handled` are the positions some consumer handled without failure, `deliveries` every invocation of the
      handler in order, `interrupted` the number of runs that ended before they were done. */
  datatype World = World(
    log: Log, documents: Documents, consumers: map<nat, Consumer>,
    handled: set<nat>, deliveries: seq<nat>, interrupted: nat)

  datatype Step =
    | Subscribe(consumer: nat)
    | Advance(consumer: nat)
    | HandlerFails(consumer: nat)
    | Crash(consumer: nat)
    | Append(rival: Rival)
    | SaveElsewhere(collection: string, key: string, text: string)
    | DropElsewhere(collection: string, key: string)

  /** The handler is invoked. */
  function HandOver(w: World, i: nat, position: nat): World
    requires i in w.consumers
  {
    var c := w.consumers[i];
    w.(consumers := w.consumers[i := c.(handed := c.handed + [position])], deliveries := w.deliveries + [position])
  }

  function Goes(w: World, i: nat, pc: Pc): World
    requires i in w.consumers
  {
    w.(consumers := w.consumers[i := w.consumers[i].(pc := pc)])
  }

  predicate HasEnded(c: Consumer) {
    c.pc.Done? || c.pc.Stopped?
  }

  /** A run ends before it is done. */
  function Stop(w: World, i: nat): World
    requires i in w.consumers
  {
    if HasEnded(w.consumers[i]) then w else Goes(w, i, Stopped).(interrupted := w.interrupted + 1)
  }

  function Next<E>(sub: Subscription<E>, w: World, i: nat): World
    requires i in w.consumers
  {
    var c := w.consumers[i];
    match c.pc
    case Start =>
      (match Checkpoint(sub, w.documents)
       case Err(_) => Stop(w, i)
       case Ok(position) => w.(consumers := w.consumers[i := Consumer(Reading(position), position, 0, [])]))
    case Reading(position) =>
      var page := Page(w.log, sub.events.names, position, sub.batch);
      if DecodeAll(sub.events.codec, page).Err? then Stop(w, i)
      else if page == [] then Goes(w, i, Done(position))
      else Goes(w, i, Holding(position, page))
    case Holding(position, batch) =>
      if batch == [] then Goes(w, i, Reading(position))
      else
        Goes(HandOver(w, i, batch[0].position), i, Acking(batch[0].position, batch[1..]))
        .(handled := w.handled + {batch[0].position})
    case Acking(position, rest) =>
      if sub.codec.encode(position).None? then Stop(w, i)
      else
        w.(consumers := w.consumers[i := c.(pc := Holding(position, rest), processed := c.processed + 1)],
           documents := Saved(sub, w.documents, position))
    case Done(_) => w
    case Stopped => w
  }

  function Do<E>(sub: Subscription<E>, w: World, step: Step): World {
    match step
    case Subscribe(i) =>
      if i in w.consumers then w else w.(consumers := w.consumers[i := Consumer(Start, 0, 0, [])])
    case Advance(i) => if i in w.consumers then Next(sub, w, i) else w
    case HandlerFails(i) =>
      if i in w.consumers && w.consumers[i].pc.Holding? && w.consumers[i].pc.batch != [] then
        Stop(HandOver(w, i, w.consumers[i].pc.batch[0].position), i)
      else w
    case Crash(i) => if i in w.consumers then Stop(w, i) else w
    case Append(rival) =>
      w.(log := TryAppend(w.log, rival.key, rival.expected, WireEvents(), rival.wires).log)
    case SaveElsewhere(collection, key, text) =>
      if (collection, key) == (CHECKPOINTS, sub.name) then w
      else w.(documents := PutDocument(w.documents, collection, key, text))
    case DropElsewhere(collection, key) =>
      if (collection, key) == (CHECKPOINTS, sub.name) then w
      else w.(documents := DropDocument(w.documents, collection, key))
  }

  function Run<E>(sub: Subscription<E>, steps: seq<Step>): World {
    if steps == [] then World([], map[], map[], {}, [], 0)
    else Do(sub, Run(sub, steps[..|steps| - 1]), steps[|steps| - 1])
  }

  // ---------------------------------------------------------------------------
  // At least once
  // ---------------------------------------------------------------------------

  /** Every matching event up to `position` has been handled. */
  ghost predicate Covered<E>(sub: Subscription<E>, log: Log, handled: set<nat>, position: nat) {
    && position <= |log|
    && forall p | 0 < p <= position && Matches(sub.Matching(), log[p - 1]) :: p in handled
  }

  function Positions(ls: seq<Located>): seq<nat> {
    seq(|ls|, i requires 0 <= i < |ls| => ls[i].position)
  }

  /** Everything up to `position` is handled, the batch is what comes next, and what the consumer has handed over are
      the matching events from where it started up to `position`. */
  ghost predicate Follows<E>(
      sub: Subscription<E>, log: Log, handled: set<nat>, c: Consumer, position: nat, batch: seq<Located>)
  {
    && Covered(sub, log, handled, position)
    && batch <= Select(log, sub.Matching(), position)
    && c.started <= position
    && c.handed == Positions(Select(log[..position], sub.Matching(), c.started))
  }

  /** A consumer hands over the matching events from where it started, in order, with no gap and no repeat, and at most
      the last of them is not acknowledged. */
  ghost predicate HandsInOrder<E>(sub: Subscription<E>, log: Log, c: Consumer) {
    && c.handed <= Positions(Select(log, sub.Matching(), c.started))
    && c.processed <= |c.handed| <= c.processed + 1
  }

  ghost predicate ConsumerOk<E>(sub: Subscription<E>, log: Log, handled: set<nat>, c: Consumer) {
    match c.pc
    case Start => c.handed == [] && c.processed == 0
    case Reading(position) => Follows(sub, log, handled, c, position, []) && c.processed == |c.handed|
    case Holding(position, batch) => Follows(sub, log, handled, c, position, batch) && c.processed == |c.handed|
    case Acking(position, rest) => Follows(sub, log, handled, c, position, rest) && c.processed + 1 == |c.handed|
    case Done(position) => Follows(sub, log, handled, c, position, []) && c.processed == |c.handed|
    case Stopped => HandsInOrder(sub, log, c)
  }

  ghost predicate CheckpointOk<E>(sub: Subscription<E>, log: Log, documents: Documents, handled: set<nat>) {
    && Checkpoint(sub, documents).Ok?
    && Covered(sub, log, handled, Checkpoint(sub, documents).value)
  }

  ghost predicate Inv<E>(sub: Subscription<E>, w: World) {
    && WellFormed(w.log)
    && CheckpointOk(sub, w.log, w.documents, w.handled)
    && forall i | i in w.consumers :: ConsumerOk(sub, w.log, w.handled, w.consumers[i])
  }

  lemma CoveredStays<E>(
      sub: Subscription<E>, log: Log, longer: Log, handled: set<nat>, more: set<nat>, position: nat)
    requires log <= longer && handled <= more && Covered(sub, log, handled, position)
    ensures Covered(sub, longer, more, position)
  {
    assert longer[..|log|] == log;
  }

  lemma CoveredIsInLog<E>(sub: Subscription<E>, log: Log, handled: set<nat>, position: nat)
    requires Covered(sub, log, handled, position)
    ensures position <= |log|
  {
  }

  lemma PositionsGrow(log: Log, longer: Log, q: Query, after: nat)
    requires log <= longer
    ensures Positions(Select(log, q, after)) <= Positions(Select(longer, q, after))
  {
    hide Select;
    SelectGrows(log, longer, q, after);
  }

  lemma ConsumerStaysOk<E>(
      sub: Subscription<E>, log: Log, longer: Log, handled: set<nat>, more: set<nat>, c: Consumer)
    requires log <= longer && handled <= more && ConsumerOk(sub, log, handled, c)
    ensures ConsumerOk(sub, longer, more, c)
  {
    hide Select, Covered, Positions;
    if c.pc.Stopped? {
      PositionsGrow(log, longer, sub.Matching(), c.started);
    } else if !c.pc.Start? {
      CoveredStays(sub, log, longer, handled, more, c.pc.position);
      SelectGrows(log, longer, sub.Matching(), c.pc.position);
      CoveredIsInLog(sub, log, handled, c.pc.position);
      assert longer[..c.pc.position] == log[..c.pc.position];
    }
  }

  /** A consumer that is on its way hands over in order. */
  lemma FollowingIsInOrder<E>(
      sub: Subscription<E>, log: Log, handled: set<nat>, c: Consumer, position: nat, batch: seq<Located>)
    requires Follows(sub, log, handled, c, position, batch)
    ensures c.handed <= Positions(Select(log, sub.Matching(), c.started))
  {
    hide Select, Positions;
    PositionsGrow(log[..position], log, sub.Matching(), c.started);
  }

  lemma OkIsInOrder<E>(sub: Subscription<E>, log: Log, handled: set<nat>, c: Consumer)
    requires ConsumerOk(sub, log, handled, c) && !c.pc.Start?
    ensures HandsInOrder(sub, log, c)
  {
    hide Follows, Positions, Select;
    match c.pc
    case Reading(position) => FollowingIsInOrder(sub, log, handled, c, position, []);
    case Holding(position, batch) => FollowingIsInOrder(sub, log, handled, c, position, batch);
    case Acking(position, rest) => FollowingIsInOrder(sub, log, handled, c, position, rest);
    case Done(position) => FollowingIsInOrder(sub, log, handled, c, position, []);
    case Stopped =>
  }

  /** Handing over the next matching event moves the consumer up to it, and the covered prefix too if it is handled. */
  lemma NextIsCovered<E>(
      sub: Subscription<E>, log: Log, handled: set<nat>, c: Consumer, position: nat, batch: seq<Located>)
    requires Follows(sub, log, handled, c, position, batch) && batch != []
    ensures var next := batch[0].position;
            && position < next
            && Follows(sub, log, handled + {next}, c.(handed := c.handed + [next]), next, batch[1..])
  {
    hide Select;
    var q := sub.Matching();
    var due, next := Select(log, q, position), batch[0].position;
    SelectCut(log, q, position, 0);
    assert due[..1] == [due[0]];
    forall p | 0 < p <= next && Matches(q, log[p - 1])
      ensures p in handled + {next}
    {
      if p > position {
        SelectComplete(log[..next], q, position, p);
        assert log[..next][p - 1] == log[p - 1];
      }
    }
    SelectSplit(log[..next], q, c.started, position);
    assert log[..next][..position] == log[..position];
  }

  lemma GoesKeepsInv<E>(sub: Subscription<E>, w: World, i: nat, c: Consumer, after: World)
    requires Inv(sub, w) && i in w.consumers
    requires after.log == w.log && w.handled <= after.handled && after.consumers == w.consumers[i := c]
    requires ConsumerOk(sub, w.log, after.handled, c)
    requires CheckpointOk(sub, w.log, after.documents, after.handled)
    ensures Inv(sub, after)
  {
    hide WellFormed, CheckpointOk, ConsumerOk;
    forall j | j in after.consumers
      ensures ConsumerOk(sub, after.log, after.handled, after.consumers[j])
    {
      if j != i {
        ConsumerStaysOk(sub, w.log, after.log, w.handled, after.handled, w.consumers[j]);
      }
    }
  }

  lemma StoppedIsOk<E>(sub: Subscription<E>, log: Log, handled: set<nat>, c: Consumer)
    requires ConsumerOk(sub, log, handled, c)
    ensures ConsumerOk(sub, log, handled, c.(pc := Stopped))
  {
    hide Select, Follows;
    if !c.pc.Start? {
      OkIsInOrder(sub, log, handled, c);
    }
  }

  lemma StopKeepsInv<E>(sub: Subscription<E>, w: World, i: nat)
    requires Inv(sub, w) && i in w.consumers
    ensures Inv(sub, Stop(w, i))
  {
    hide WellFormed, CheckpointOk, ConsumerOk, Select;
    var c := w.consumers[i];
    if !HasEnded(c) {
      assert ConsumerOk(sub, w.log, w.handled, c);
      StoppedIsOk(sub, w.log, w.handled, c);
      GoesKeepsInv(sub, w, i, c.(pc := Stopped), Stop(w, i));
    }
  }

  /** A hand-over that fails ends the run with one more event handed over than processed. */
  lemma FailureKeepsInv<E>(sub: Subscription<E>, w: World, i: nat)
    requires Inv(sub, w) && i in w.consumers
    ensures Inv(sub, Do(sub, w, HandlerFails(i)))
  {
    hide WellFormed, CheckpointOk, Select, Covered;
    var c := w.consumers[i];
    if c.pc.Holding? && c.pc.batch != [] {
      var after := Do(sub, w, HandlerFails(i));
      var next := c.pc.batch[0].position;
      NextIsCovered(sub, w.log, w.handled, c, c.pc.position, c.pc.batch);
      FollowingIsInOrder(sub, w.log, w.handled + {next}, c.(handed := c.handed + [next]), next, c.pc.batch[1..]);
      GoesKeepsInv(sub, w, i, c.(pc := Stopped, handed := c.handed + [next]), after);
    }
  }

  lemma InvParts<E>(sub: Subscription<E>, w: World, i: nat)
    requires Inv(sub, w)
    ensures WellFormed(w.log) && CheckpointOk(sub, w.log, w.documents, w.handled)
    ensures i in w.consumers ==> ConsumerOk(sub, w.log, w.handled, w.consumers[i])
  {
  }

  lemma NextKeepsInv<E>(sub: Subscription<E>, w: World, i: nat)
    requires Inv(sub, w) && i in w.consumers && Faithful(sub.codec)
    ensures Inv(sub, Next(sub, w, i))
  {
    hide Select, WellFormed, Checkpoint, Covered, DecodeAll, Inv;
    var c, log, handled, documents := w.consumers[i], w.log, w.handled, w.documents;
    InvParts(sub, w, i);
    StopKeepsInv(sub, w, i);
    var after := Next(sub, w, i);
    match c.pc
    case Start =>
      var position := Checkpoint(sub, documents).value;
      CoveredIsInLog(sub, log, handled, position);
      SelectBeyond(log[..position], sub.Matching(), position);
      GoesKeepsInv(sub, w, i, Consumer(Reading(position), position, 0, []), after);
    case Reading(position) =>
      var page := Page(log, sub.events.names, position, sub.batch);
      if DecodeAll(sub.events.codec, page).Ok? {
        GoesKeepsInv(sub, w, i, c.(pc := if page == [] then Done(position) else Holding(position, page)), after);
      }
    case Holding(position, batch) =>
      if batch == [] {
        GoesKeepsInv(sub, w, i, c.(pc := Reading(position)), after);
      } else {
        NextIsCovered(sub, log, handled, c, position, batch);
        CoveredStays(sub, log, log, handled, after.handled, Checkpoint(sub, documents).value);
        GoesKeepsInv(sub, w, i, after.consumers[i], after);
      }
    case Acking(position, rest) =>
      if sub.codec.encode(position).Some? {
        CheckpointMoves(sub, documents, position);
        GoesKeepsInv(sub, w, i, c.(pc := Holding(position, rest), processed := c.processed + 1), after);
      }
    case Done(_) =>
    case Stopped =>
  }

  lemma StepKeepsInv<E>(sub: Subscription<E>, w: World, step: Step)
    requires Inv(sub, w) && Faithful(sub.codec)
    ensures Inv(sub, Do(sub, w, step))
  {
    hide Select, WellFormed, Follows, Covered, TryAppend, Next, Stop;
    match step
    case Subscribe(i) =>
    case Advance(i) => if i in w.consumers { NextKeepsInv(sub, w, i); }
    case HandlerFails(i) => if i in w.consumers { FailureKeepsInv(sub, w, i); }
    case Crash(i) => if i in w.consumers { StopKeepsInv(sub, w, i); }
    case Append(rival) =>
      var longer := TryAppend(w.log, rival.key, rival.expected, WireEvents(), rival.wires).log;
      AppendKeepsLog(w.log, rival.key, rival.expected, WireEvents(), rival.wires);
      CoveredStays(sub, w.log, longer, w.handled, w.handled, Checkpoint(sub, w.documents).value);
      forall i | i in w.consumers
        ensures ConsumerOk(sub, longer, w.handled, w.consumers[i])
      {
        ConsumerStaysOk(sub, w.log, longer, w.handled, w.handled, w.consumers[i]);
      }
    case SaveElsewhere(collection, key, text) =>
      DocumentsAreIndependent(w.documents, collection, key, text, CHECKPOINTS, sub.name);
    case DropElsewhere(collection, key) =>
      DocumentsAreIndependent(w.documents, collection, key, "", CHECKPOINTS, sub.name);
  }

  lemma {:induction false} InvHolds<E>(sub: Subscription<E>, steps: seq<Step>)
    requires Faithful(sub.codec)
    ensures Inv(sub, Run(sub, steps))
  {
    hide Do;
    if steps != [] {
      InvHolds(sub, steps[..|steps| - 1]);
      StepKeepsInv(sub, Run(sub, steps[..|steps| - 1]), steps[|steps| - 1]);
    }
  }

  /** At least once: whatever fails, crashes or overtakes, and even when a slow consumer moves the checkpoint back,
      no matching event at or below the stored checkpoint is unhandled. Every consumer, completed or not, hands over
      in order and without repeats; and every completed one reports the number of matching events between the
      checkpoint it loaded and the position it reached. */
  lemma {:induction false} NothingBelowCheckpointIsLost<E>(sub: Subscription<E>, steps: seq<Step>)
    requires Faithful(sub.codec)
    ensures var w := Run(sub, steps);
            && Checkpoint(sub, w.documents).Ok?
            && Checkpoint(sub, w.documents).value <= |w.log|
            && (forall p | 0 < p <= Checkpoint(sub, w.documents).value && Matches(sub.Matching(), w.log[p - 1]) ::
                  p in w.handled)
            && (forall i | i in w.consumers && !w.consumers[i].pc.Start? :: HandsInOrder(sub, w.log, w.consumers[i]))
            && (forall i | i in w.consumers && w.consumers[i].pc.Done? ::
                  var c := w.consumers[i];
                  && c.started <= c.pc.position <= |w.log|
                  && c.processed == |Select(w.log[..c.pc.position], sub.Matching(), c.started)|)
  {
    hide Run, Select, WellFormed, HandsInOrder;
    InvHolds(sub, steps);
    var w := Run(sub, steps);
    forall i | i in w.consumers && !w.consumers[i].pc.Start?
      ensures HandsInOrder(sub, w.log, w.consumers[i])
    {
      assert ConsumerOk(sub, w.log, w.handled, w.consumers[i]);
      OkIsInOrder(sub, w.log, w.handled, w.consumers[i]);
    }
    forall i | i in w.consumers && w.consumers[i].pc.Done?
      ensures var c := w.consumers[i];
              && c.started <= c.pc.position <= |w.log|
              && c.processed == |Select(w.log[..c.pc.position], sub.Matching(), c.started)|
    {
      assert ConsumerOk(sub, w.log, w.handled, w.consumers[i]);
    }
  }

  // ---------------------------------------------------------------------------
  // In order, one consumer at a time
  // ---------------------------------------------------------------------------

  /** The next run is started only when every earlier one has ended. */
  predicate Solo<E>(sub: Subscription<E>, steps: seq<Step>) {
    steps != [] ==>
      var n := |steps| - 1;
      && Solo(sub, steps[..n])
      && (steps[n].Subscribe? ==>
            var w := Run(sub, steps[..n]);
            forall i | i in w.consumers :: HasEnded(w.consumers[i]))
  }

  /** A trace with adjacent repeats removed. */
  function Collapse(trace: seq<nat>): seq<nat> {
    if trace == [] then []
    else
      var n := |trace| - 1;
      if n > 0 && trace[n] == trace[n - 1] then Collapse(trace[..n]) else Collapse(trace[..n]) + [trace[n]]
  }

  lemma {:induction false} CollapseLast(trace: seq<nat>)
    ensures |Collapse(trace)| <= |trace|
    ensures trace != [] ==> Collapse(trace) != [] && Collapse(trace)[|Collapse(trace)| - 1] == trace[|trace| - 1]
  {
    if trace != [] {
      CollapseLast(trace[..|trace| - 1]);
    }
  }

  lemma CollapsePush(trace: seq<nat>, p: nat)
    ensures Collapse(trace + [p])
         == if trace != [] && trace[|trace| - 1] == p then Collapse(trace) else Collapse(trace) + [p]
  {
    assert (trace + [p])[..|trace|] == trace;
  }

  /** The positions of the matching events up to the checkpoint. */
  ghost function Acked<E>(sub: Subscription<E>, log: Log, checkpoint: nat): seq<nat>
    requires checkpoint <= |log|
  {
    Positions(Select(log[..checkpoint], sub.Matching(), 0))
  }

  /** `p` is the first matching event beyond the checkpoint. */
  ghost predicate IsNext<E>(sub: Subscription<E>, log: Log, checkpoint: nat, p: nat) {
    var due := Select(log, sub.Matching(), checkpoint);
    due != [] && due[0].position == p
  }

  /** The trace so far is the acknowledged events, or those and the next one. */
  ghost predicate InOrder<E>(sub: Subscription<E>, log: Log, checkpoint: nat, trace: seq<nat>)
    requires checkpoint <= |log|
  {
    var acked := Acked(sub, log, checkpoint);
    || Collapse(trace) == acked
    || exists p :: IsNext(sub, log, checkpoint, p) && Collapse(trace) == acked + [p]
  }

  /** The acknowledged positions stay what they were, and so does the next one. */
  lemma OrderStays<E>(sub: Subscription<E>, log: Log, longer: Log, checkpoint: nat, p: nat)
    requires log <= longer && checkpoint <= |log|
    ensures Acked(sub, longer, checkpoint) == Acked(sub, log, checkpoint)
    ensures IsNext(sub, log, checkpoint, p) ==> IsNext(sub, longer, checkpoint, p)
  {
    hide Select;
    assert longer[..checkpoint] == log[..checkpoint];
    SelectGrows(log, longer, sub.Matching(), checkpoint);
  }

  /** Acknowledging the next event appends it to the acknowledged positions. */
  lemma AckExtends<E>(sub: Subscription<E>, log: Log, checkpoint: nat, p: nat)
    requires checkpoint <= |log| && IsNext(sub, log, checkpoint, p)
    ensures checkpoint < p <= |log|
    ensures Acked(sub, log, p) == Acked(sub, log, checkpoint) + [p]
    ensures forall a <- Acked(sub, log, checkpoint) :: a <= checkpoint
  {
    hide Select;
    var q := sub.Matching();
    var due := Select(log, q, checkpoint);
    SelectCut(log, q, checkpoint, 0);
    assert due[..1] == [due[0]];
    SelectSplit(log[..p], q, 0, checkpoint);
    assert log[..p][..checkpoint] == log[..checkpoint];
    SelectSound(log[..checkpoint], q, 0);
    var acked := Acked(sub, log, checkpoint);
    forall a | a in acked
      ensures a <= checkpoint
    {
      var k :| 0 <= k < |acked| && acked[k] == a;
      assert Select(log[..checkpoint], q, 0)[k] in Select(log[..checkpoint], q, 0);
    }
  }

  /** Handing over the next event keeps the order, and repeats an earlier hand-over only if that one was in doubt. */
  lemma DeliveryKeepsOrder<E>(sub: Subscription<E>, log: Log, checkpoint: nat, trace: seq<nat>, p: nat)
    requires checkpoint <= |log| && InOrder(sub, log, checkpoint, trace) && IsNext(sub, log, checkpoint, p)
    ensures Collapse(trace + [p]) == Acked(sub, log, checkpoint) + [p]
    ensures |Collapse(trace + [p])|
         == |Collapse(trace)| + if Collapse(trace) == Acked(sub, log, checkpoint) then 1 else 0
  {
    hide Select, Collapse, Positions;
    AckExtends(sub, log, checkpoint, p);
    CollapsePush(trace, p);
    CollapseLast(trace);
    var acked := Acked(sub, log, checkpoint);
    if Collapse(trace) == acked && trace != [] {
      assert trace[|trace| - 1] in acked;
    }
  }

  ghost predicate SomeoneIsAcking(w: World) {
    exists i :: i in w.consumers && w.consumers[i].pc.Acking?
  }

  /** The last hand-over was neither acknowledged nor is about to be. */
  ghost predicate InDoubt<E>(sub: Subscription<E>, w: World, checkpoint: nat)
    requires checkpoint <= |w.log|
  {
    Collapse(w.deliveries) != Acked(sub, w.log, checkpoint) && !SomeoneIsAcking(w)
  }

  /** What a run relies on when it is the only one. */
  ghost predicate SoloConsumer<E>(sub: Subscription<E>, log: Log, trace: seq<nat>, checkpoint: nat, c: Consumer)
    requires checkpoint <= |log|
  {
    match c.pc
    case Reading(position) => position == checkpoint
    case Holding(position, _) => position == checkpoint
    case Acking(position, _) =>
      IsNext(sub, log, checkpoint, position) && Collapse(trace) == Acked(sub, log, checkpoint) + [position]
    case _ => true
  }

  ghost predicate AtMostOneRuns(w: World) {
    forall i, j | i in w.consumers && j in w.consumers && !HasEnded(w.consumers[i]) && !HasEnded(w.consumers[j]) ::
      i == j
  }

  ghost predicate SoloInv<E>(sub: Subscription<E>, w: World) {
    && Inv(sub, w)
    && AtMostOneRuns(w)
    && var checkpoint := Checkpoint(sub, w.documents).value;
       && checkpoint <= |w.log|
       && InOrder(sub, w.log, checkpoint, w.deliveries)
       && (forall i | i in w.consumers :: SoloConsumer(sub, w.log, w.deliveries, checkpoint, w.consumers[i]))
       && |w.deliveries| + (if InDoubt(sub, w, checkpoint) then 1 else 0)
          <= |Collapse(w.deliveries)| + w.interrupted
  }

  /** A step of the one running consumer. */
  lemma SoloStep<E>(sub: Subscription<E>, w: World, i: nat, after: World)
    requires SoloInv(sub, w) && i in w.consumers && !HasEnded(w.consumers[i])
    requires i in after.consumers && after.consumers == w.consumers[i := after.consumers[i]]
    requires after.log == w.log && Inv(sub, after)
    requires var checkpoint := Checkpoint(sub, after.documents).value;
             && checkpoint <= |w.log|
             && InOrder(sub, w.log, checkpoint, after.deliveries)
             && SoloConsumer(sub, w.log, after.deliveries, checkpoint, after.consumers[i])
             && |after.deliveries|
                + (if Collapse(after.deliveries) != Acked(sub, w.log, checkpoint) && !after.consumers[i].pc.Acking?
                   then 1 else 0)
                <= |Collapse(after.deliveries)| + after.interrupted
    ensures SoloInv(sub, after)
  {
    hide Inv, InOrder, Collapse, Acked, IsNext, Checkpoint;
    if after.consumers[i].pc.Acking? {
      assert SomeoneIsAcking(after);
    }
  }

  /** Who is running decides whether anybody is acknowledging. */
  lemma SoloBudget<E>(sub: Subscription<E>, w: World, i: nat)
    requires SoloInv(sub, w) && i in w.consumers && !HasEnded(w.consumers[i])
    ensures var checkpoint := Checkpoint(sub, w.documents).value;
            && Checkpoint(sub, w.documents).Ok? && checkpoint <= |w.log|
            && InOrder(sub, w.log, checkpoint, w.deliveries)
            && SoloConsumer(sub, w.log, w.deliveries, checkpoint, w.consumers[i])
            && ConsumerOk(sub, w.log, w.handled, w.consumers[i])
            && |w.deliveries|
               + (if Collapse(w.deliveries) != Acked(sub, w.log, checkpoint) && !w.consumers[i].pc.Acking?
                  then 1 else 0)
               <= |Collapse(w.deliveries)| + w.interrupted
  {
    hide InOrder, Collapse, Acked, IsNext, Checkpoint, Covered, ConsumerOk;
  }

  lemma SoloStop<E>(sub: Subscription<E>, w: World, i: nat)
    requires SoloInv(sub, w) && i in w.consumers
    ensures SoloInv(sub, Stop(w, i))
  {
    if !HasEnded(w.consumers[i]) {
      hide InOrder, Collapse, Acked, IsNext, Checkpoint, Inv;
      SoloBudget(sub, w, i);
      StopKeepsInv(sub, w, i);
      SoloStep(sub, w, i, Stop(w, i));
    }
  }

  lemma SoloIsInv<E>(sub: Subscription<E>, w: World)
    requires SoloInv(sub, w)
    ensures Inv(sub, w) && Checkpoint(sub, w.documents).Ok?
  {
  }

  lemma NextIsInOrder<E>(sub: Subscription<E>, log: Log, checkpoint: nat, trace: seq<nat>, p: nat)
    requires checkpoint <= |log| && IsNext(sub, log, checkpoint, p)
    requires Collapse(trace) == Acked(sub, log, checkpoint) + [p]
    ensures InOrder(sub, log, checkpoint, trace)
  {
  }

  lemma NowIsInOrder<E>(sub: Subscription<E>, log: Log, checkpoint: nat, trace: seq<nat>)
    requires checkpoint <= |log| && Collapse(trace) == Acked(sub, log, checkpoint)
    ensures InOrder(sub, log, checkpoint, trace)
  {
  }

  lemma SoloNext<E>(sub: Subscription<E>, w: World, i: nat)
    requires SoloInv(sub, w) && i in w.consumers && Faithful(sub.codec)
    ensures SoloInv(sub, Next(sub, w, i))
  {
    hide Collapse, Acked, Checkpoint, Inv, DecodeAll, Page, Saved, InOrder, SoloInv, Select;
    var c := w.consumers[i];
    if HasEnded(c) {
      return;
    }
    var after := Next(sub, w, i);
    SoloBudget(sub, w, i);
    var checkpoint := Checkpoint(sub, w.documents).value;
    SoloStop(sub, w, i);
    SoloIsInv(sub, w);
    NextKeepsInv(sub, w, i);
    match c.pc
    case Start => SoloStep(sub, w, i, after);
    case Reading(position) =>
      if DecodeAll(sub.events.codec, Page(w.log, sub.events.names, position, sub.batch)).Ok? {
        SoloStep(sub, w, i, after);
      }
    case Holding(position, batch) =>
      if batch != [] {
        assert batch[0] == Select(w.log, sub.Matching(), position)[0];
        DeliveryKeepsOrder(sub, w.log, checkpoint, w.deliveries, batch[0].position);
        NextIsInOrder(sub, w.log, checkpoint, after.deliveries, batch[0].position);
      }
      SoloStep(sub, w, i, after);
    case Acking(position, rest) =>
      if sub.codec.encode(position).Some? {
        AckExtends(sub, w.log, checkpoint, position);
        CheckpointMoves(sub, w.documents, position);
        NowIsInOrder(sub, w.log, position, w.deliveries);
        SoloStep(sub, w, i, after);
      }
    case Done(_) =>
    case Stopped =>
  }

  lemma HeldIsNext<E>(sub: Subscription<E>, w: World, i: nat)
    requires i in w.consumers && ConsumerOk(sub, w.log, w.handled, w.consumers[i])
    requires w.consumers[i].pc.Holding? && w.consumers[i].pc.batch != []
    ensures IsNext(sub, w.log, w.consumers[i].pc.position, w.consumers[i].pc.batch[0].position)
  {
    var due := Select(w.log, sub.Matching(), w.consumers[i].pc.position);
    assert w.consumers[i].pc.batch[0] == due[0];
  }

  /** The handler is invoked and fails: a hand-over that will be repeated. */
  lemma SoloFailure<E>(sub: Subscription<E>, w: World, i: nat)
    requires SoloInv(sub, w) && i in w.consumers && Faithful(sub.codec)
    ensures SoloInv(sub, Do(sub, w, HandlerFails(i)))
  {
    hide Collapse, Acked, Checkpoint, Inv, InOrder, SoloInv, Select, Follows;
    var c := w.consumers[i];
    if c.pc.Holding? && c.pc.batch != [] {
      var after := Do(sub, w, HandlerFails(i));
      SoloBudget(sub, w, i);
      var checkpoint, p := Checkpoint(sub, w.documents).value, c.pc.batch[0].position;
      SoloIsInv(sub, w);
      StepKeepsInv(sub, w, HandlerFails(i));
      HeldIsNext(sub, w, i);
      DeliveryKeepsOrder(sub, w.log, checkpoint, w.deliveries, p);
      NextIsInOrder(sub, w.log, checkpoint, after.deliveries, p);
      SoloStep(sub, w, i, after);
    }
  }

  /** Other writers do not disturb the order. */
  lemma SoloOthers<E>(sub: Subscription<E>, w: World, after: World)
    requires SoloInv(sub, w) && Inv(sub, after)
    requires w.log <= after.log && after.consumers == w.consumers
    requires after.deliveries == w.deliveries && after.interrupted == w.interrupted
    requires Checkpoint(sub, after.documents) == Checkpoint(sub, w.documents)
    ensures SoloInv(sub, after)
  {
    hide Collapse, Acked, Checkpoint, Inv, IsNext;
    SoloIsInv(sub, w);
    var checkpoint := Checkpoint(sub, w.documents).value;
    OrderStays(sub, w.log, after.log, checkpoint, 0);
    forall p | IsNext(sub, w.log, checkpoint, p)
      ensures IsNext(sub, after.log, checkpoint, p)
    {
      OrderStays(sub, w.log, after.log, checkpoint, p);
    }
    assert SomeoneIsAcking(w) <==> SomeoneIsAcking(after);
  }

  lemma SoloSubscribe<E>(sub: Subscription<E>, w: World, i: nat)
    requires SoloInv(sub, w) && i !in w.consumers
    requires forall j | j in w.consumers :: HasEnded(w.consumers[j])
    ensures SoloInv(sub, Do(sub, w, Subscribe(i)))
  {
    hide Collapse, Acked, Checkpoint, IsNext, InOrder, WellFormed, Follows, Covered;
    var after := Do(sub, w, Subscribe(i));
    assert !SomeoneIsAcking(w) && !SomeoneIsAcking(after);
  }

  lemma CheckpointUntouched<E>(
      sub: Subscription<E>, documents: Documents, collection: string, key: string, text: string)
    ensures (collection, key) != (CHECKPOINTS, sub.name) ==>
              && Checkpoint(sub, PutDocument(documents, collection, key, text)) == Checkpoint(sub, documents)
              && Checkpoint(sub, DropDocument(documents, collection, key)) == Checkpoint(sub, documents)
  {
    DocumentsAreIndependent(documents, collection, key, text, CHECKPOINTS, sub.name);
  }

  lemma SoloStepKeepsInv<E>(sub: Subscription<E>, w: World, step: Step)
    requires SoloInv(sub, w) && Faithful(sub.codec)
    requires step.Subscribe? ==> forall i | i in w.consumers :: HasEnded(w.consumers[i])
    ensures SoloInv(sub, Do(sub, w, step))
  {
    hide SoloInv, Inv, Next, Stop, Checkpoint, TryAppend, WellFormed;
    SoloIsInv(sub, w);
    StepKeepsInv(sub, w, step);
    match step
    case Subscribe(i) => if i !in w.consumers { SoloSubscribe(sub, w, i); }
    case Advance(i) => if i in w.consumers { SoloNext(sub, w, i); }
    case HandlerFails(i) => if i in w.consumers { SoloFailure(sub, w, i); }
    case Crash(i) => if i in w.consumers { SoloStop(sub, w, i); }
    case Append(rival) =>
      InvParts(sub, w, 0);
      AppendKeepsLog(w.log, rival.key, rival.expected, WireEvents(), rival.wires);
      SoloOthers(sub, w, Do(sub, w, step));
    case SaveElsewhere(collection, key, text) =>
      CheckpointUntouched(sub, w.documents, collection, key, text);
      SoloOthers(sub, w, Do(sub, w, step));
    case DropElsewhere(collection, key) =>
      CheckpointUntouched(sub, w.documents, collection, key, "");
      SoloOthers(sub, w, Do(sub, w, step));
  }

  lemma {:induction false} SoloInvHolds<E>(sub: Subscription<E>, steps: seq<Step>)
    requires Faithful(sub.codec) && Solo(sub, steps)
    ensures SoloInv(sub, Run(sub, steps))
  {
    if steps != [] {
      hide SoloInv, Do;
      var n := |steps| - 1;
      SoloInvHolds(sub, steps[..n]);
      SoloStepKeepsInv(sub, Run(sub, steps[..n]), steps[n]);
    }
  }

  lemma OrderIsPrefix<E>(sub: Subscription<E>, log: Log, checkpoint: nat, trace: seq<nat>)
    requires checkpoint <= |log| && InOrder(sub, log, checkpoint, trace)
    ensures Acked(sub, log, checkpoint) <= Collapse(trace) <= Positions(Select(log, sub.Matching(), 0))
  {
    hide Select, Collapse;
    var q := sub.Matching();
    var acked, due := Select(log[..checkpoint], q, 0), Select(log, q, checkpoint);
    SelectSplit(log, q, 0, checkpoint);
    assert Positions(acked + due) == Positions(acked) + Positions(due);
  }

  /** In order: over any series of runs, one at a time, completed or interrupted anywhere, on a log that grows at any
      moment, the hand-overs with adjacent repeats removed are a prefix of the matching log that reaches at least to
      the checkpoint, and there are at most as many repeats as interrupted runs. */
  lemma DeliveriesAreInOrder<E>(sub: Subscription<E>, steps: seq<Step>)
    requires Faithful(sub.codec) && Solo(sub, steps)
    ensures var w := Run(sub, steps);
            var all := Positions(Select(w.log, sub.Matching(), 0));
            && Collapse(w.deliveries) <= all
            && Checkpoint(sub, w.documents).Ok? && Checkpoint(sub, w.documents).value <= |w.log|
            && Acked(sub, w.log, Checkpoint(sub, w.documents).value) <= Collapse(w.deliveries)
            && |w.deliveries| <= |Collapse(w.deliveries)| + w.interrupted
  {
    hide Run, Select, Collapse, Inv, Acked, InOrder, Positions;
    SoloInvHolds(sub, steps);
    var w := Run(sub, steps);
    SoloIsInv(sub, w);
    OrderIsPrefix(sub, w.log, Checkpoint(sub, w.documents).value, w.deliveries);
  }

  lemma RunPush<E>(sub: Subscription<E>, steps: seq<Step>, step: Step)
    ensures Run(sub, steps + [step]) == Do(sub, Run(sub, steps), step)
    ensures Solo(sub, steps) && !step.Subscribe? ==> Solo(sub, steps + [step])
  {
    assert (steps + [step])[..|steps|] == steps;
  }

  /** A single run that completes has reached the stored checkpoint, and reports the number of matching events between
      the checkpoint it loaded and that one. */
  lemma {:induction false} CompletedRunMovesCheckpoint<E>(sub: Subscription<E>, steps: seq<Step>, i: nat)
    requires Faithful(sub.codec) && Solo(sub, steps)
    requires var w, after := Run(sub, steps), Run(sub, steps + [Advance(i)]);
             && i in w.consumers && !HasEnded(w.consumers[i])
             && i in after.consumers && after.consumers[i].pc.Done?
    ensures var after := Run(sub, steps + [Advance(i)]);
            var c := after.consumers[i];
            && Checkpoint(sub, after.documents) == Ok(c.pc.position)
            && c.started <= c.pc.position <= |after.log|
            && c.processed == |Select(after.log[..c.pc.position], sub.Matching(), c.started)|
  {
    hide Run, Solo, Select, Checkpoint, SoloInv, Saved, Page, DecodeAll, Inv;
    RunPush(sub, steps, Advance(i));
    SoloInvHolds(sub, steps);
    SoloBudget(sub, Run(sub, steps), i);
    SoloIsInv(sub, Run(sub, steps));
    NothingBelowCheckpointIsLost(sub, steps + [Advance(i)]);
  }

  // ---------------------------------------------------------------------------
  // One consumer alone
  // ---------------------------------------------------------------------------

  /** What consumer i does next when the handler fails on exactly the given invocations. */
  function LoneStep<E>(sub: Subscription<E>, w: World, i: nat, fails: (nat, Recorded<E>) -> bool): Step
    requires i in w.consumers
  {
    var pc := w.consumers[i].pc;
    if pc.Holding? && pc.batch != [] then
      var payload := sub.events.codec.decode(pc.batch[0].stored.payload);
      if payload.Some? && fails(|w.deliveries|, ToRecorded(pc.batch[0], payload.value)) then HandlerFails(i)
      else Advance(i)
    else Advance(i)
  }

  function DriveBy<E>(sub: Subscription<E>, w: World, i: nat, fails: (nat, Recorded<E>) -> bool, n: nat): World
    decreases n
  {
    if n == 0 || i !in w.consumers then w else DriveBy(sub, Do(sub, w, LoneStep(sub, w, i, fails)), i, fails, n - 1)
  }

  function PositionsOf<E>(rs: seq<Recorded<E>>): seq<nat> {
    seq(|rs|, k requires 0 <= k < |rs| => rs[k].position)
  }

  /** Consumer i has ended as the run did, having handed over the same events on top of `earlier` invocations. */
  ghost predicate EndedAs<E>(w: World, after: World, i: nat, earlier: seq<nat>, x: Pumped<E>) {
    && after.log == w.log && after.documents == x.documents
    && after.deliveries == earlier + PositionsOf(x.delivered)
    && i in after.consumers && after.consumers[i].processed == x.processed
    && (if x.result.Ok? then after.consumers[i].pc.Done? && x.processed == x.result.value
        else after.consumers[i].pc.Stopped?)
  }

  /** Consumer i stands where the run does: before a read, or with the rest of a page in hand. */
  ghost predicate StandsAt<E>(
      sub: Subscription<E>, w: World, i: nat, earlier: seq<nat>,
      position: nat, page: seq<Recorded<E>>, delivered: seq<Recorded<E>>)
  {
    && i in w.consumers && w.consumers[i].processed == |delivered|
    && w.deliveries == earlier + PositionsOf(delivered)
    && match w.consumers[i].pc
       case Reading(p) => p == position && |page| == 0
       case Holding(p, batch) => p == position && DecodeAll(sub.events.codec, batch) == Ok(page)
       case _ => false
  }

  lemma PositionsOfPush<E>(earlier: seq<nat>, delivered: seq<Recorded<E>>, r: Recorded<E>)
    ensures earlier + PositionsOf(delivered) + [r.position] == earlier + PositionsOf(delivered + [r])
    ensures |earlier + PositionsOf(delivered)| == |earlier| + |delivered|
  {
  }

  lemma {:induction false} DecodedHead<E>(codec: Codec<E>, batch: seq<Located>, page: seq<Recorded<E>>)
    requires DecodeAll(codec, batch) == Ok(page)
    ensures |batch| == |page|
    ensures |page| > 0 ==>
              && codec.decode(batch[0].stored.payload) == Some(page[0].payload)
              && page[0] == ToRecorded(batch[0], page[0].payload) && page[0].position == batch[0].position
              && DecodeAll(codec, batch[1..]) == Ok(page[1..])
  {
    DecodeAllShape(codec, batch);
    if |page| > 0 {
      assert batch == batch[..1] + batch[1..];
      DecodeAllConcat(codec, batch[..1], batch[1..]);
      DecodeAllShape(codec, batch[..1]);
    }
  }

  lemma {:induction false} StoppedStays<E>(
      sub: Subscription<E>, w: World, i: nat, fails: (nat, Recorded<E>) -> bool)
    ensures DriveBy(sub, w, i, fails, 0) == w
  {
  }

  lemma DriveOn<E>(sub: Subscription<E>, w: World, i: nat, fails: (nat, Recorded<E>) -> bool, n: nat)
    requires i in w.consumers
    ensures DriveBy(sub, w, i, fails, n + 1) == DriveBy(sub, Do(sub, w, LoneStep(sub, w, i, fails)), i, fails, n)
  {
  }

  /** One event in hand: two steps, or one if the handler fails. */
  lemma HandsAlone<E>(
      sub: Subscription<E>, w: World, i: nat, fails: (nat, Recorded<E>) -> bool, earlier: seq<nat>,
      position: nat, page: seq<Recorded<E>>, delivered: seq<Recorded<E>>)
    requires StandsAt(sub, w, i, earlier, position, page, delivered) && |page| > 0
    ensures var next := Do(sub, w, LoneStep(sub, w, i, fails));
            var handed := delivered + [page[0]];
            if fails(|earlier| + |delivered|, page[0]) then
              EndedAs(w, next, i, earlier, Pumped(w.documents, handed, |delivered|, Err(Serialization)))
            else
              i in next.consumers &&
              var acked := Do(sub, next, LoneStep(sub, next, i, fails));
              if sub.codec.encode(page[0].position).None? then
                EndedAs(w, acked, i, earlier, Pumped(w.documents, handed, |delivered|, Err(Serialization)))
              else
                && acked.log == w.log && acked.documents == Saved(sub, w.documents, page[0].position)
                && StandsAt(sub, acked, i, earlier, page[0].position, page[1..], handed)
                && acked.consumers[i].pc.Holding?
  {
    hide DecodeAll, Page, Saved, PositionsOf, Checkpoint;
    DecodedHead(sub.events.codec, w.consumers[i].pc.batch, page);
    PositionsOfPush(earlier, delivered, page[0]);
  }

  /** Nothing in hand: read a page, after one more step if a page has just been finished. */
  lemma ReadsAlone<E>(
      sub: Subscription<E>, w: World, i: nat, fails: (nat, Recorded<E>) -> bool, earlier: seq<nat>,
      position: nat, delivered: seq<Recorded<E>>)
    requires StandsAt(sub, w, i, earlier, position, [], delivered)
    ensures var next := Do(sub, w, LoneStep(sub, w, i, fails));
            var page := DecodeAll(sub.events.codec, Page(w.log, sub.events.names, position, sub.batch));
            && next.log == w.log && next.documents == w.documents
            && if w.consumers[i].pc.Holding? then
                 StandsAt(sub, next, i, earlier, position, [], delivered) && next.consumers[i].pc.Reading?
               else if page.Err? then
                 EndedAs(w, next, i, earlier, Pumped(w.documents, delivered, |delivered|, Err(page.error)))
               else if |page.value| == 0 then
                 EndedAs(w, next, i, earlier, Pumped(w.documents, delivered, |delivered|, Ok(|delivered|)))
               else StandsAt(sub, next, i, earlier, position, page.value, delivered)
  {
    hide DecodeAll, Page, PositionsOf, Checkpoint;
    if w.consumers[i].pc.Holding? {
      DecodedHead(sub.events.codec, w.consumers[i].pc.batch, []);
    } else {
      var page := Page(w.log, sub.events.names, position, sub.batch);
      if DecodeAll(sub.events.codec, page).Ok? {
        DecodedHead(sub.events.codec, page, DecodeAll(sub.events.codec, page).value);
      }
    }
  }

  lemma {:induction false} DrivesAsPump<E>(
      sub: Subscription<E>, w: World, i: nat, fails: (nat, Recorded<E>) -> bool, earlier: seq<nat>,
      position: nat, page: seq<Recorded<E>>, delivered: seq<Recorded<E>>) returns (n: nat)
    requires StandsAt(sub, w, i, earlier, position, page, delivered) && IsAhead(w.log, position, page)
    ensures EndedAs(w, DriveBy(sub, w, i, fails, n), i, earlier,
                    PumpFrom(sub, w.log, fails, |earlier|, w.documents, position, page, delivered, |delivered|))
    decreases if position < |w.log| then |w.log| - position else 0, if |page| == 0 then 1 else 0,
              if w.consumers[i].pc.Holding? then 1 else 0
  {
    hide DecodeAll, Page, Saved, IsAhead, DriveBy, PositionsOf, Checkpoint, PumpFrom, Do, LoneStep;
    var next := Do(sub, w, LoneStep(sub, w, i, fails));
    n := 0;
    StoppedStays(sub, next, i, fails);
    if |page| > 0 {
      assert page[0..] == page;
      PumpHands(sub, w.log, fails, |earlier|, w.documents, position, page, 0, delivered, |delivered|);
      HandsAlone(sub, w, i, fails, earlier, position, page, delivered);
      if !fails(|earlier| + |delivered|, page[0]) {
        var acked := Do(sub, next, LoneStep(sub, next, i, fails));
        StoppedStays(sub, acked, i, fails);
        if sub.codec.encode(page[0].position).Some? {
          n := DrivesAsPump(sub, acked, i, fails, earlier, page[0].position, page[1..], delivered + [page[0]]);
        }
        DriveOn(sub, next, i, fails, n);
        n := n + 1;
      }
    } else {
      assert page == [];
      PumpReads(sub, w.log, fails, |earlier|, w.documents, position, delivered, |delivered|);
      ReadsAlone(sub, w, i, fails, earlier, position, delivered);
      var read := DecodeAll(sub.events.codec, Page(w.log, sub.events.names, position, sub.batch));
      if w.consumers[i].pc.Holding? {
        n := DrivesAsPump(sub, next, i, fails, earlier, position, [], delivered);
      } else if read.Ok? && |read.value| > 0 {
        n := DrivesAsPump(sub, next, i, fails, earlier, position, read.value, delivered);
      }
    }
    DriveOn(sub, w, i, fails, n);
    n := n + 1;
  }

  /** A consumer that runs alone ends, and ends as the imperative pump does with a handler that fails on the same
      invocations: the same hand-overs, the same documents, and the same report or failure. */
  lemma {:induction false} AloneIsPump<E>(
      sub: Subscription<E>, w: World, i: nat, fails: (nat, Recorded<E>) -> bool) returns (n: nat)
    requires i in w.consumers && w.consumers[i].pc.Start? && w.consumers[i].processed == 0
    ensures EndedAs(w, DriveBy(sub, w, i, fails, n), i, w.deliveries,
                    PumpAlone(sub, w.log, fails, |w.deliveries|, w.documents))
  {
    hide PumpFrom, DecodeAll, Page, Checkpoint, DriveBy, IsAhead;
    var next := Do(sub, w, LoneStep(sub, w, i, fails));
    var loaded := Checkpoint(sub, w.documents);
    assert w.deliveries + PositionsOf<E>([]) == w.deliveries;
    if loaded.Err? {
      StoppedStays(sub, next, i, fails);
      n := 0;
    } else {
      NothingAhead<E>(w.log, loaded.value);
      n := DrivesAsPump(sub, next, i, fails, w.deliveries, loaded.value, [], []);
    }
    DriveOn(sub, w, i, fails, n);
    n := n + 1;
  }
}
