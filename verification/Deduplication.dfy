/** A consumer that pairs delivery with the markers: check, take effect, mark; repeated and interrupted anywhere. */
module Deduplication {
  import opened Events
  import opened MemoryStore
  import opened Idempotency

  /** Where the handling of one event stands: its marker was not found, or it has taken effect and is not marked yet. */
  datatype Phase = Idle | Unseen(id: string) | Affected(id: string)

  /** `effects` are the ids that took effect, in order; `doubted` those whose handling ended between the effect and the
      mark; `completed` those whose handling succeeded. `writes` is everything written to the documents so far. */
  datatype Handling = Handling(
    writes: seq<Write>, phase: Phase, effects: seq<string>, doubted: seq<string>, completed: seq<string>)

  /** An event is delivered, for the first time or again; its handling goes on by one call, or ends by a failure or a
      crash; or somebody else writes. */
  datatype Step = Deliver(id: string) | GoOn | Interrupt | Elsewhere(write: Write)

  function Next(codec: Codec<bool>, scope: string, h: Handling, step: Step): Handling {
    match step
    case Deliver(id) =>
      if h.phase != Idle then h
      else (
        match IsProcessed(codec, Run(codec, h.writes), scope, id)
        case Err(_) => h
        case Ok(seen) => if seen then h.(completed := h.completed + [id]) else h.(phase := Unseen(id)))
    case GoOn => (
      match h.phase
      case Idle => h
      case Unseen(id) => h.(phase := Affected(id), effects := h.effects + [id])
      case Affected(id) =>
        if codec.encode(true).None? then h.(phase := Idle, doubted := h.doubted + [id])
        else h.(phase := Idle, writes := h.writes + [Mark(scope, id)], completed := h.completed + [id]))
    case Interrupt =>
      h.(phase := Idle, doubted := if h.phase.Affected? then h.doubted + [h.phase.id] else h.doubted)
    case Elsewhere(write) =>
      if write.Mark? && write.scope == scope then h else h.(writes := h.writes + [write])
  }

  function Handle(codec: Codec<bool>, scope: string, steps: seq<Step>): Handling {
    if steps == [] then Handling([], Idle, [], [], [])
    else Next(codec, scope, Handle(codec, scope, steps[..|steps| - 1]), steps[|steps| - 1])
  }

  /** The ids that occur have no colon, as UUID text has none. */
  predicate AreColonFree(steps: seq<Step>) {
    forall step <- steps ::
      && (step.Deliver? ==> ':' !in step.id)
      && (step.Elsewhere? && step.write.Mark? ==> ':' !in step.write.id)
  }

  function Times(ids: seq<string>, id: string): nat {
    multiset(ids)[id]
  }

  lemma TimesPush(ids: seq<string>, more: string, id: string)
    ensures Times(ids + [more], id) == Times(ids, id) + if more == id then 1 else 0
  {
  }

  /** Every effect is accounted for: by the mark or the handling in progress, or by an interruption before the mark. */
  ghost predicate IsAccounted(scope: string, h: Handling, id: string) {
    && Times(h.effects, id)
    == Times(h.doubted, id) + (if Mark(scope, id) in h.writes || h.phase == Affected(id) then 1 else 0)
    && (h.phase == Unseen(id) || h.phase == Affected(id) ==> Mark(scope, id) !in h.writes)
    && (id in h.completed ==> Mark(scope, id) in h.writes)
  }

  ghost predicate MarksAreColonFree(h: Handling) {
    && (forall w <- h.writes | w.Mark? :: ':' !in w.id)
    && (h.phase != Idle ==> ':' !in h.phase.id)
  }

  lemma NextIsAccounted(codec: Codec<bool>, scope: string, h: Handling, step: Step, id: string)
    requires Faithful(codec) && codec.encode(true).Some?
    requires MarksAreColonFree(h) && IsAccounted(scope, h, id)
    requires AreColonFree([step])
    ensures MarksAreColonFree(Next(codec, scope, h, step)) && IsAccounted(scope, Next(codec, scope, h, step), id)
  {
    hide Times, IsProcessed, Run;
    assert step in [step];
    match step
    case Deliver(other) => MarkersAreExact(codec, h.writes, scope, other);
    case GoOn =>
      if h.phase != Idle {
        TimesPush(h.effects, h.phase.id, id);
      }
    case Interrupt =>
      if h.phase.Affected? {
        TimesPush(h.doubted, h.phase.id, id);
      }
    case Elsewhere(write) =>
  }

  lemma NothingYet(scope: string, id: string)
    ensures var h := Handling([], Idle, [], [], []);
            MarksAreColonFree(h) && IsAccounted(scope, h, id)
  {
  }

  lemma {:induction false} HandlingIsAccounted(codec: Codec<bool>, scope: string, steps: seq<Step>, id: string)
    requires Faithful(codec) && codec.encode(true).Some? && AreColonFree(steps)
    ensures MarksAreColonFree(Handle(codec, scope, steps)) && IsAccounted(scope, Handle(codec, scope, steps), id)
  {
    if steps != [] {
      hide IsAccounted, MarksAreColonFree, Next;
      var n := |steps| - 1;
      assert forall step <- steps[..n] :: step in steps;
      assert steps[n] in steps;
      HandlingIsAccounted(codec, scope, steps[..n], id);
      NextIsAccounted(codec, scope, Handle(codec, scope, steps[..n]), steps[n], id);
    } else {
      NothingYet(scope, id);
    }
  }

  /** However often an event is delivered and wherever its handling is interrupted, it takes effect at most once more
      than it was interrupted between its effect and its mark; and once its handling has succeeded, exactly that often:
      once, if it never was. */
  lemma {:induction false} EffectsAreBounded(codec: Codec<bool>, scope: string, steps: seq<Step>, id: string)
    requires Faithful(codec) && codec.encode(true).Some? && AreColonFree(steps)
    ensures var h := Handle(codec, scope, steps);
            && Times(h.doubted, id) <= Times(h.effects, id) <= Times(h.doubted, id) + 1
            && (id in h.completed ==> Times(h.effects, id) == Times(h.doubted, id) + 1)
  {
    hide Handle, Times, MarksAreColonFree;
    HandlingIsAccounted(codec, scope, steps, id);
  }
}
