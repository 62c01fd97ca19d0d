/** The append-only log as a value: how it is scanned, what an append does to it, and what every append keeps. */
module EventLog {
  import opened Events

  type Log = seq<StoredEvent>

  /** The three filters the store scans the log with. */
  datatype Query =
    | OfStream(key: StreamKey)
    | OfStreamAfter(key: StreamKey, version: nat)
    | Named(names: seq<string>)

  predicate Matches(q: Query, e: StoredEvent) {
    match q
    case OfStream(key) => e.key == key
    case OfStreamAfter(key, version) => e.key == key && e.version > version
    case Named(names) => e.eventType in names
  }

  /** An event together with its 1-based global position. */
  datatype Located = Located(position: nat, stored: StoredEvent)

  /** The matching events whose global position is beyond `after`, in log order. */
  function Select(log: Log, q: Query, after: nat): seq<Located> {
    if log == [] then []
    else
      var n := |log| - 1;
      Select(log[..n], q, after)
      + if n + 1 > after && Matches(q, log[n]) then [Located(n + 1, log[n])] else []
  }

  function Stream(log: Log, key: StreamKey): seq<Located> {
    Select(log, OfStream(key), 0)
  }

  // ---------------------------------------------------------------------------
  // Scans
  // ---------------------------------------------------------------------------



  lemma SelectPush(log: Log, e: StoredEvent, q: Query, after: nat)
    ensures Select(log + [e], q, after)
         == Select(log, q, after)
            + if |log| + 1 > after && Matches(q, e) then [Located(|log| + 1, e)] else []
  {
    assert (log + [e])[..|log|] == log;
  }

  /** A scan returns events of the log at their own positions, all matching, in strictly increasing order. */
  lemma {:induction false} SelectSound(log: Log, q: Query, after: nat)
    ensures forall l <- Select(log, q, after) ::
              after < l.position <= |log| && log[l.position - 1] == l.stored && Matches(q, l.stored)
    ensures forall i, j | 0 <= i < j < |Select(log, q, after)| ::
              Select(log, q, after)[i].position < Select(log, q, after)[j].position
  {
    if log != [] {
      var n := |log| - 1;
      SelectSound(log[..n], q, after);
    }
  }

  /** And it misses none: a position beyond `after` is returned exactly when its event matches. */
  lemma {:induction false} SelectComplete(log: Log, q: Query, after: nat, position: nat)
    requires after < position <= |log|
    ensures Located(position, log[position - 1]) in Select(log, q, after)
       <==> Matches(q, log[position - 1])
  {
    var n := |log| - 1;
    SelectSound(log[..n], q, after);
    if position <= n {
      SelectComplete(log[..n], q, after, position);
    }
  }

  /** What the three scans find, spelled out: by stream, by stream and version, and by event name alone. */
  lemma ScansFind(log: Log, after: nat, position: nat, key: StreamKey, version: nat, names: seq<string>)
    requires after < position <= |log|
    ensures var e := log[position - 1];
            && (Located(position, e) in Select(log, OfStream(key), after) <==> e.key == key)
            && (Located(position, e) in Select(log, OfStreamAfter(key, version), after) <==>
                  e.key == key && e.version > version)
            && (Located(position, e) in Select(log, Named(names), after) <==> e.eventType in names)
  {
    hide Select;
    SelectComplete(log, OfStream(key), after, position);
    SelectComplete(log, OfStreamAfter(key, version), after, position);
    SelectComplete(log, Named(names), after, position);
  }

  lemma {:induction false} SelectBeyond(log: Log, q: Query, after: nat)
    requires after >= |log|
    ensures Select(log, q, after) == []
  {
    if log != [] {
      SelectBeyond(log[..|log| - 1], q, after);
    }
  }

  /** A scan of a longer log is the scan of its prefix followed by a scan of what is beyond the prefix. */
  lemma {:induction false} SelectSplit(log: Log, q: Query, after: nat, cut: nat)
    requires after <= cut <= |log|
    ensures Select(log, q, after) == Select(log[..cut], q, after) + Select(log, q, cut)
  {
    if cut == |log| {
      SelectBeyond(log, q, cut);
      assert log[..cut] == log;
    } else {
      var n := |log| - 1;
      SelectSplit(log[..n], q, after, cut);
      assert log[..n][..cut] == log[..cut];
    }
  }

  lemma SelectGrows(log: Log, longer: Log, q: Query, after: nat)
    requires log <= longer
    ensures Select(log, q, after) <= Select(longer, q, after)
  {
    assert longer[..|log|] == log;
    if after <= |log| {
      SelectSplit(longer, q, after, |log|);
    } else {
      SelectBeyond(log, q, after);
    }
  }

  // ---------------------------------------------------------------------------
  // The log invariant
  // ---------------------------------------------------------------------------

  /** Every event's version is one more than the number of earlier events of its stream. */
  predicate WellFormed(log: Log) {
    log != [] ==>
      var n := |log| - 1;
      WellFormed(log[..n]) && log[n].version == |Stream(log[..n], log[n].key)| + 1
  }

  /** The versions of one stream, read in log order, are 1, 2, 3 and so on. */
  ghost predicate Contiguous(log: Log, key: StreamKey) {
    forall j :: 0 <= j < |Stream(log, key)| ==> Stream(log, key)[j].stored.version == j + 1
  }

  lemma {:induction false} WellFormedIsContiguous(log: Log, key: StreamKey)
    requires WellFormed(log)
    ensures Contiguous(log, key)
  {
    if log != [] {
      var n := |log| - 1;
      WellFormedIsContiguous(log[..n], key);
      assert forall j :: 0 <= j < |Stream(log[..n], key)| ==> Stream(log, key)[j] == Stream(log[..n], key)[j];
    }
  }

  /** The invariant is exactly the store's promise about every stream. */
  lemma {:induction false} WellFormedIff(log: Log)
    ensures WellFormed(log) <==> forall key :: Contiguous(log, key)
  {
    if WellFormed(log) {
      forall key ensures Contiguous(log, key) { WellFormedIsContiguous(log, key); }
    }
    if log != [] && forall key :: Contiguous(log, key) {
      var n := |log| - 1;
      forall key ensures Contiguous(log[..n], key) {
        assert Contiguous(log, key);
        forall j | 0 <= j < |Stream(log[..n], key)|
          ensures Stream(log[..n], key)[j].stored.version == j + 1
        {
          assert Stream(log, key)[j] == Stream(log[..n], key)[j];
        }
      }
      WellFormedIff(log[..n]);
      var key := log[n].key;
      assert Contiguous(log, key);
      assert Stream(log, key)[|Stream(log[..n], key)|] == Located(n + 1, log[n]);
    }
  }

  /** The highest version found by scanning the log for a stream, 0 when it has none. */
  function MaxVersion(log: Log, key: StreamKey): nat {
    if log == [] then 0
    else
      var n := |log| - 1;
      var m := MaxVersion(log[..n], key);
      if log[n].key == key && log[n].version > m then log[n].version else m
  }

  /** In a well-formed log the scanned maximum is the stream's length. */
  lemma {:induction false} MaxVersionIsLength(log: Log, key: StreamKey)
    requires WellFormed(log)
    ensures MaxVersion(log, key) == |Stream(log, key)|
  {
    if log != [] {
      MaxVersionIsLength(log[..|log| - 1], key);
    }
  }

  // ---------------------------------------------------------------------------
  // Suffix loads
  // ---------------------------------------------------------------------------



  function Min(a: nat, b: nat): nat {
    if a < b then a else b
  }

  /** The default suffix load: the whole stream, filtered by version. */
  function LaterThan(ls: seq<Located>, version: nat): seq<Located> {
    if ls == [] then []
    else
      var n := |ls| - 1;
      LaterThan(ls[..n], version) + if ls[n].stored.version > version then [ls[n]] else []
  }

  /** Pushing the version bound into the scan finds what filtering the full load finds. */
  lemma {:induction false} SuffixScanIsFilter(log: Log, key: StreamKey, version: nat)
    ensures Select(log, OfStreamAfter(key, version), 0) == LaterThan(Stream(log, key), version)
  {
    if log != [] {
      var n := |log| - 1;
      SuffixScanIsFilter(log[..n], key, version);
      if log[n].key == key {
        assert Stream(log, key)[..|Stream(log[..n], key)|] == Stream(log[..n], key);
      } else {
        assert Stream(log, key) == Stream(log[..n], key);
      }
    }
  }

  /** And, in a well-formed log, both are the stream without its first `version` events. */
  lemma {:induction false} SuffixScanIsDrop(log: Log, key: StreamKey, version: nat)
    requires WellFormed(log)
    ensures Select(log, OfStreamAfter(key, version), 0)
         == Stream(log, key)[Min(version, |Stream(log, key)|)..]
  {
    if log != [] {
      var n := |log| - 1;
      SuffixScanIsDrop(log[..n], key, version);
    }
  }

  // ---------------------------------------------------------------------------
  // Decoding
  // ---------------------------------------------------------------------------


  function ToRecorded<E>(l: Located, payload: E): Recorded<E> {
    Recorded(l.stored.key, l.stored.version, l.position, l.stored.eventType, payload)
  }

  /** Decode a scan; one undecodable payload fails the whole read. */
  function DecodeAll<E>(codec: Codec<E>, ls: seq<Located>): Result<seq<Recorded<E>>, StoreError> {
    if ls == [] then Ok([])
    else
      var n := |ls| - 1;
      var init := DecodeAll(codec, ls[..n]);
      var payload := codec.decode(ls[n].stored.payload);
      if init.Err? || payload.None? then Err(Serialization)
      else Ok(init.value + [ToRecorded(ls[n], payload.value)])
  }

  /** A successful read has one record per event, each with that event's bookkeeping and decoded payload. */
  lemma {:induction false} DecodeAllShape<E>(codec: Codec<E>, ls: seq<Located>)
    ensures DecodeAll(codec, ls).Ok? ==>
              && |DecodeAll(codec, ls).value| == |ls|
              && forall i | 0 <= i < |ls| ::
                   && codec.decode(ls[i].stored.payload).Some?
                   && DecodeAll(codec, ls).value[i] == ToRecorded(ls[i], codec.decode(ls[i].stored.payload).value)
  {
    if ls != [] {
      DecodeAllShape(codec, ls[..|ls| - 1]);
    }
  }

  lemma ScanStarts<E>(log: Log, q: Query, after: nat, codec: Codec<E>)
    ensures Select(log[..0], q, after) == [] && DecodeAll(codec, []) == Ok([])
  {
  }

  lemma DecodeAllPush<E>(codec: Codec<E>, ls: seq<Located>, l: Located, payload: E)
    requires DecodeAll(codec, ls).Ok? && codec.decode(l.stored.payload) == Some(payload)
    ensures DecodeAll(codec, ls + [l]) == Ok(DecodeAll(codec, ls).value + [ToRecorded(l, payload)])
  {
    assert (ls + [l])[..|ls|] == ls;
  }

  lemma {:induction false} DecodeAllConcat<E>(codec: Codec<E>, a: seq<Located>, b: seq<Located>)
    ensures DecodeAll(codec, a + b)
         == if DecodeAll(codec, a).Ok? && DecodeAll(codec, b).Ok?
            then Ok(DecodeAll(codec, a).value + DecodeAll(codec, b).value)
            else Err(Serialization)
  {
    if b == [] {
      assert a + b == a;
      assert DecodeAll(codec, a).Ok? ==> DecodeAll(codec, a).value + [] == DecodeAll(codec, a).value;
    } else {
      var n := |b| - 1;
      DecodeAllConcat(codec, a, b[..n]);
      assert (a + b)[..|a + b| - 1] == a + b[..n];
      assert (a + b)[|a + b| - 1] == b[n];
      var all, tail := DecodeAll(codec, a), DecodeAll(codec, b);
      if all.Ok? && tail.Ok? {
        assert all.value + tail.value == (all.value + DecodeAll(codec, b[..n]).value) + [tail.value[|tail.value| - 1]];
      }
    }
  }

  // ---------------------------------------------------------------------------
  // Sorting by version, as a full load does before it returns
  // ---------------------------------------------------------------------------



  ghost predicate SortedByVersion<E>(rs: seq<Recorded<E>>) {
    forall i, j :: 0 <= i < j < |rs| ==> rs[i].version <= rs[j].version
  }

  /** Insert behind every record of the same or a lower version, which keeps the sort stable. */
  function InsertByVersion<E>(rs: seq<Recorded<E>>, r: Recorded<E>): seq<Recorded<E>> {
    if rs == [] then [r]
    else
      var n := |rs| - 1;
      if rs[n].version <= r.version then rs + [r] else InsertByVersion(rs[..n], r) + [rs[n]]
  }

  function SortByVersion<E>(rs: seq<Recorded<E>>): seq<Recorded<E>> {
    if rs == [] then []
    else InsertByVersion(SortByVersion(rs[..|rs| - 1]), rs[|rs| - 1])
  }

  lemma {:induction false} SortOfSorted<E>(rs: seq<Recorded<E>>)
    requires SortedByVersion(rs)
    ensures SortByVersion(rs) == rs
  {
    if rs != [] {
      SortOfSorted(rs[..|rs| - 1]);
    }
  }

  lemma {:induction false} InsertKeeps<E>(rs: seq<Recorded<E>>, r: Recorded<E>)
    ensures multiset(InsertByVersion(rs, r)) == multiset(rs) + multiset{r}
  {
    if rs != [] {
      var n := |rs| - 1;
      assert rs == rs[..n] + [rs[n]];
      if rs[n].version > r.version {
        InsertKeeps(rs[..n], r);
      }
    }
  }

  ghost predicate UpTo<E>(rs: seq<Recorded<E>>, version: nat) {
    forall i :: 0 <= i < |rs| ==> rs[i].version <= version
  }

  lemma {:induction false} InsertBounds<E>(rs: seq<Recorded<E>>, r: Recorded<E>, version: nat)
    requires UpTo(rs, version) && r.version <= version
    ensures UpTo(InsertByVersion(rs, r), version)
  {
    if rs != [] && rs[|rs| - 1].version > r.version {
      InsertBounds(rs[..|rs| - 1], r, version);
    }
  }

  lemma SortedPush<E>(rs: seq<Recorded<E>>, r: Recorded<E>)
    requires SortedByVersion(rs) && UpTo(rs, r.version)
    ensures SortedByVersion(rs + [r])
  {
  }

  lemma SortedInit<E>(rs: seq<Recorded<E>>)
    requires SortedByVersion(rs) && rs != []
    ensures var n := |rs| - 1;
            SortedByVersion(rs[..n]) && UpTo(rs[..n], rs[n].version) && UpTo(rs, rs[n].version)
  {
  }

  lemma UpToMore<E>(rs: seq<Recorded<E>>, version: nat, more: nat)
    requires UpTo(rs, version) && version <= more
    ensures UpTo(rs, more)
  {
  }

  lemma {:induction false} InsertSorts<E>(rs: seq<Recorded<E>>, r: Recorded<E>)
    requires SortedByVersion(rs)
    ensures SortedByVersion(InsertByVersion(rs, r))
  {
    if rs != [] {
      hide SortedByVersion, UpTo;
      var n := |rs| - 1;
      SortedInit(rs);
      if rs[n].version > r.version {
        InsertSorts(rs[..n], r);
        InsertBounds(rs[..n], r, rs[n].version);
        SortedPush(InsertByVersion(rs[..n], r), rs[n]);
      } else {
        assert UpTo(rs, r.version) by { UpToMore(rs, rs[n].version, r.version); }
        SortedPush(rs, r);
      }
    }
  }

  /** The sort sorts, and loses and adds nothing. */
  lemma {:induction false} SortSorts<E>(rs: seq<Recorded<E>>)
    ensures SortedByVersion(SortByVersion(rs)) && multiset(SortByVersion(rs)) == multiset(rs)
  {
    if rs != [] {
      var n := |rs| - 1;
      assert rs == rs[..n] + [rs[n]];
      SortSorts(rs[..n]);
      InsertSorts(SortByVersion(rs[..n]), rs[n]);
      InsertKeeps(SortByVersion(rs[..n]), rs[n]);
    }
  }

  /** What a load decodes is already in version order, so the final sort changes nothing. */
  lemma LoadNeedsNoSort<E>(codec: Codec<E>, log: Log, key: StreamKey, version: nat)
    requires WellFormed(log)
    ensures DecodeAll(codec, Stream(log, key)).Ok? ==>
              SortByVersion(DecodeAll(codec, Stream(log, key)).value) == DecodeAll(codec, Stream(log, key)).value
    ensures var tail := Select(log, OfStreamAfter(key, version), 0);
            DecodeAll(codec, tail).Ok? ==>
              SortByVersion(DecodeAll(codec, tail).value) == DecodeAll(codec, tail).value
  {
    hide Select, Stream, DecodeAll, SortByVersion, WellFormed;
    WellFormedIsContiguous(log, key);
    var all, tail := Stream(log, key), Select(log, OfStreamAfter(key, version), 0);
    DecodeAllShape(codec, all);
    DecodeAllShape(codec, tail);
    SuffixScanIsDrop(log, key, version);
    if DecodeAll(codec, all).Ok? {
      SortOfSorted(DecodeAll(codec, all).value);
    }
    if DecodeAll(codec, tail).Ok? {
      SortOfSorted(DecodeAll(codec, tail).value);
    }
  }

  // ---------------------------------------------------------------------------
  // Appending
  // ---------------------------------------------------------------------------


  predicate Encodable<E>(ty: EventType<E>, events: seq<E>) {
    forall i | 0 <= i < |events| :: ty.codec.encode(events[i]).Some?
  }

  /** How many leading events can be encoded; the push loop stops at the first that cannot. */
  function EncodablePrefix<E>(ty: EventType<E>, events: seq<E>): (n: nat)
    ensures n <= |events|
    ensures Encodable(ty, events[..n])
    ensures n < |events| ==> ty.codec.encode(events[n]).None?
  {
    if |events| == 0 || ty.codec.encode(events[0]).None? then 0
    else
      var n := 1 + EncodablePrefix(ty, events[1..]);
      assert forall i | 0 < i < n :: events[i] == events[1..][i - 1];
      n
  }

  function ToStored<E>(key: StreamKey, version: nat, ty: EventType<E>, event: E): StoredEvent
    requires ty.codec.encode(event).Some?
  {
    StoredEvent(key, version, ty.nameOf(event), ty.codec.encode(event).value)
  }

  /** The log after pushing a batch onto a stream that is at version `base`. */
  function Pushed<E>(log: Log, key: StreamKey, base: nat, ty: EventType<E>, events: seq<E>): Log
    requires Encodable(ty, events)
  {
    if |events| == 0 then log
    else
      var n := |events| - 1;
      Pushed(log, key, base, ty, events[..n]) + [ToStored(key, base + n + 1, ty, events[n])]
  }

  /** What the writer is handed back: its own payloads with the bookkeeping the store assigned. */
  function Records<E>(key: StreamKey, base: nat, size: nat, ty: EventType<E>, events: seq<E>): seq<Recorded<E>> {
    if |events| == 0 then []
    else
      var n := |events| - 1;
      Records(key, base, size, ty, events[..n])
      + [Recorded(key, base + n + 1, size + n + 1, ty.nameOf(events[n]), events[n])]
  }

  lemma PushStarts<E>(log: Log, key: StreamKey, base: nat, ty: EventType<E>, events: seq<E>)
    ensures Pushed(log, key, base, ty, events[..0]) == log
    ensures Records(key, base, |log|, ty, events[..0]) == []
  {
  }

  lemma PushNext<E>(log: Log, key: StreamKey, base: nat, ty: EventType<E>, events: seq<E>, k: nat)
    requires k < |events| && Encodable(ty, events[..k]) && ty.codec.encode(events[k]).Some?
    ensures Encodable(ty, events[..k + 1])
    ensures Pushed(log, key, base, ty, events[..k + 1])
         == Pushed(log, key, base, ty, events[..k]) + [ToStored(key, base + k + 1, ty, events[k])]
    ensures Records(key, base, |log|, ty, events[..k + 1])
         == Records(key, base, |log|, ty, events[..k])
            + [Recorded(key, base + k + 1, |log| + k + 1, ty.nameOf(events[k]), events[k])]
  {
    var upTo := events[..k + 1];
    assert upTo[..k] == events[..k] && upTo[k] == events[k];
    assert forall i | 0 <= i < k :: upTo[i] == events[..k][i];
  }

  datatype Appended<+E> = Appended(log: Log, result: Result<seq<Recorded<E>>, StoreError>)

  /** One append as an atomic step: empty batches do nothing, the revision is checked against the
      scanned version, and an event that cannot be encoded leaves the events before it in the log. */
  function TryAppend<E>(log: Log, key: StreamKey, expected: ExpectedRevision, ty: EventType<E>, events: seq<E>)
    : Appended<E>
  {
    if |events| == 0 then Appended(log, Ok([]))
    else
      var current := MaxVersion(log, key);
      if !expected.Admits(current) then Appended(log, Err(Conflict(key.id, expected, current)))
      else
        var n := EncodablePrefix(ty, events);
        Appended(Pushed(log, key, current, ty, events[..n]),
                 if n == |events| then Ok(Records(key, current, |log|, ty, events)) else Err(Serialization))
  }

  lemma {:induction false} PushedLength<E>(log: Log, key: StreamKey, base: nat, ty: EventType<E>, events: seq<E>)
    requires Encodable(ty, events)
    ensures var after := Pushed(log, key, base, ty, events);
            log <= after && |after| == |log| + |events|
  {
    if |events| > 0 {
      PushedLength(log, key, base, ty, events[..|events| - 1]);
    }
  }

  /** `after` is a well-formed log that continues `log` with events of one stream only. */
  ghost predicate Continues(log: Log, after: Log, key: StreamKey) {
    && log <= after
    && WellFormed(after)
    && |Stream(after, key)| - |Stream(log, key)| == |after| - |log|
    && forall other | other != key :: Stream(after, other) == Stream(log, other)
  }

  lemma PushContinues(log: Log, mid: Log, e: StoredEvent)
    requires Continues(log, mid, e.key) && e.version == |Stream(mid, e.key)| + 1
    ensures Continues(log, mid + [e], e.key)
  {
    assert (mid + [e])[..|mid|] == mid;
  }

  lemma {:induction false} PushedContinues<E>(log: Log, key: StreamKey, base: nat, ty: EventType<E>, events: seq<E>)
    requires Encodable(ty, events)
    requires WellFormed(log) && base == |Stream(log, key)|
    ensures Continues(log, Pushed(log, key, base, ty, events), key)
  {
    hide Select, Stream, WellFormed;
    if |events| > 0 {
      var n := |events| - 1;
      var init, last := events[..n], events[n];
      PushedContinues(log, key, base, ty, init);
      PushedLength(log, key, base, ty, init);
      PushContinues(log, Pushed(log, key, base, ty, init), ToStored(key, base + n + 1, ty, last));
    }
  }

  /** What every append keeps, whatever its revision and even when its batch stops part-way: the old log is
      a prefix of the new one, all versions stay contiguous, and every other stream is untouched. */
  lemma AppendKeepsLog<E>(log: Log, key: StreamKey, expected: ExpectedRevision, ty: EventType<E>, events: seq<E>)
    requires WellFormed(log)
    ensures Continues(log, TryAppend(log, key, expected, ty, events).log, key)
  {
    MaxVersionIsLength(log, key);
    if |events| > 0 {
      PushedContinues(log, key, MaxVersion(log, key), ty, events[..EncodablePrefix(ty, events)]);
    }
  }

  lemma {:induction false} RecordsShape<E>(key: StreamKey, base: nat, size: nat, ty: EventType<E>, events: seq<E>)
    ensures var rs := Records(key, base, size, ty, events);
            && |rs| == |events|
            && forall i | 0 <= i < |events| ::
                 rs[i] == Recorded(key, base + i + 1, size + i + 1, ty.nameOf(events[i]), events[i])
  {
    if |events| > 0 {
      RecordsShape(key, base, size, ty, events[..|events| - 1]);
    }
  }

  /** The three outcomes of a non-empty append, each exactly when it happens and what it writes. */
  lemma AppendOutcome<E>(log: Log, key: StreamKey, expected: ExpectedRevision, ty: EventType<E>, events: seq<E>)
    requires WellFormed(log) && |events| > 0
    ensures var a := TryAppend(log, key, expected, ty, events);
            var version := |Stream(log, key)|;
            && (a.result == Err(Conflict(key.id, expected, version)) <==> !expected.Admits(version))
            && (a.result.Err? && a.result.error.Conflict? ==> a.log == log && !expected.Admits(version))
            && (a.result.Ok? <==> expected.Admits(version) && Encodable(ty, events))
            && (a.result.Ok? ==> |a.result.value| == |events| && |a.log| == |log| + |events|)
            && (a.result == Err(Serialization) ==> |a.log| < |log| + |events|)
  {
    MaxVersionIsLength(log, key);
    var n := EncodablePrefix(ty, events);
    assert events[..|events|] == events;
    if expected.Admits(MaxVersion(log, key)) {
      PushedLength(log, key, MaxVersion(log, key), ty, events[..n]);
    }
    RecordsShape(key, MaxVersion(log, key), |log|, ty, events);
  }

  /** When a non-empty append succeeds, revision by revision: at any version; on an empty stream; or at exactly the
      version named. Every event must encode besides. A conflict is what the revision alone decides. */
  lemma AppendSucceedsIff<E>(log: Log, key: StreamKey, ty: EventType<E>, events: seq<E>, v: nat)
    requires WellFormed(log) && |events| > 0
    ensures TryAppend(log, key, Any, ty, events).result.Ok? <==> Encodable(ty, events)
    ensures TryAppend(log, key, NoStream, ty, events).result.Ok? <==> Stream(log, key) == [] && Encodable(ty, events)
    ensures TryAppend(log, key, Exact(v), ty, events).result.Ok? <==> |Stream(log, key)| == v && Encodable(ty, events)
    ensures TryAppend(log, key, Any, ty, events).result != Err(Conflict(key.id, Any, |Stream(log, key)|))
    ensures TryAppend(log, key, NoStream, ty, events).result == Err(Conflict(key.id, NoStream, |Stream(log, key)|))
       <==> Stream(log, key) != []
    ensures TryAppend(log, key, Exact(v), ty, events).result == Err(Conflict(key.id, Exact(v), |Stream(log, key)|))
       <==> |Stream(log, key)| != v
  {
    hide Select, WellFormed, TryAppend, Encodable;
    AppendOutcome(log, key, Any, ty, events);
    AppendOutcome(log, key, NoStream, ty, events);
    AppendOutcome(log, key, Exact(v), ty, events);
  }

  /** The i-th pushed event is the i-th of the batch, one version and one position further each. */
  lemma {:induction false} PushedAt<E>(log: Log, key: StreamKey, base: nat, ty: EventType<E>, events: seq<E>, i: nat)
    requires Encodable(ty, events) && i < |events|
    ensures var after := Pushed(log, key, base, ty, events);
            && |after| == |log| + |events|
            && after[|log| + i]
            == StoredEvent(key, base + i + 1, ty.nameOf(events[i]), ty.codec.encode(events[i]).value)
  {
    var n := |events| - 1;
    PushedLength(log, key, base, ty, events[..n]);
    if i < n {
      PushedAt(log, key, base, ty, events[..n], i);
    }
  }

  /** What an admitted append leaves behind: exactly the leading events that encode, up to the first that does not,
      each as it was given, under the next versions. */
  lemma AppendLeavesPrefix<E>(log: Log, key: StreamKey, expected: ExpectedRevision, ty: EventType<E>, events: seq<E>)
    requires WellFormed(log) && |events| > 0 && expected.Admits(|Stream(log, key)|)
    ensures var after := TryAppend(log, key, expected, ty, events).log;
            var n := |after| - |log|;
            && log <= after && n <= |events|
            && (n < |events| ==> ty.codec.encode(events[n]).None?)
            && forall i | 0 <= i < n ::
                 && ty.codec.encode(events[i]).Some?
                 && after[|log| + i] == StoredEvent(key, |Stream(log, key)| + i + 1, ty.nameOf(events[i]),
                                                    ty.codec.encode(events[i]).value)
  {
    hide Select, WellFormed, Pushed, ToStored;
    MaxVersionIsLength(log, key);
    var n := EncodablePrefix(ty, events);
    PushedLength(log, key, |Stream(log, key)|, ty, events[..n]);
    forall i | 0 <= i < n
      ensures ty.codec.encode(events[i]).Some?
      ensures TryAppend(log, key, expected, ty, events).log[|log| + i]
           == StoredEvent(key, |Stream(log, key)| + i + 1, ty.nameOf(events[i]), ty.codec.encode(events[i]).value)
    {
      assert events[..n][i] == events[i];
      PushedAt(log, key, |Stream(log, key)|, ty, events[..n], i);
    }
  }

  lemma ReadBackPush<E>(
      codec: Codec<E>, log: Log, e: StoredEvent, after: nat, before: seq<Recorded<E>>, payload: E)
    requires after <= |log| && codec.decode(e.payload) == Some(payload)
    requires DecodeAll(codec, Select(log, OfStream(e.key), after)) == Ok(before)
    ensures DecodeAll(codec, Select(log + [e], OfStream(e.key), after))
         == Ok(before + [Recorded(e.key, e.version, |log| + 1, e.eventType, payload)])
  {
    SelectPush(log, e, OfStream(e.key), after);
    DecodeAllPush(codec, Select(log, OfStream(e.key), after), Located(|log| + 1, e), payload);
  }

  lemma PushLast<E>(log: Log, key: StreamKey, base: nat, ty: EventType<E>, events: seq<E>)
    requires |events| > 0 && Encodable(ty, events)
    ensures var n := |events| - 1;
            && Encodable(ty, events[..n])
            && Pushed(log, key, base, ty, events)
            == Pushed(log, key, base, ty, events[..n]) + [ToStored(key, base + n + 1, ty, events[n])]
            && Records(key, base, |log|, ty, events)
            == Records(key, base, |log|, ty, events[..n])
               + [Recorded(key, base + n + 1, |log| + n + 1, ty.nameOf(events[n]), events[n])]
  {
  }

  lemma NothingReadsBack<E>(log: Log, key: StreamKey, base: nat, ty: EventType<E>, events: seq<E>)
    requires |events| == 0
    ensures DecodeAll(ty.codec, Select(Pushed(log, key, base, ty, events), OfStream(key), |log|))
         == Ok(Records(key, base, |log|, ty, events))
  {
    SelectBeyond(log, OfStream(key), |log|);
  }

  /** What a push added to its stream decodes to exactly what the writer was handed. */
  lemma {:induction false} PushedReadsBack<E(!new)>(
      log: Log, key: StreamKey, base: nat, ty: EventType<E>, events: seq<E>)
    requires Encodable(ty, events) && Faithful(ty.codec)
    ensures DecodeAll(ty.codec, Select(Pushed(log, key, base, ty, events), OfStream(key), |log|))
         == Ok(Records(key, base, |log|, ty, events))
  {
    hide Select, DecodeAll, Pushed, Records;
    if |events| == 0 {
      NothingReadsBack(log, key, base, ty, events);
    } else {
      var n := |events| - 1;
      PushLast(log, key, base, ty, events);
      PushedReadsBack(log, key, base, ty, events[..n]);
      PushedLength(log, key, base, ty, events[..n]);
      ReadBackPush(ty.codec, Pushed(log, key, base, ty, events[..n]), ToStored(key, base + n + 1, ty, events[n]),
                   |log|, Records(key, base, |log|, ty, events[..n]), events[n]);
    }
  }

  /** A successful append read back by a fresh load: the old stream, then exactly the returned records. */
  lemma AppendReadsBack<E(!new)>(
      log: Log, key: StreamKey, expected: ExpectedRevision, ty: EventType<E>, events: seq<E>)
    requires WellFormed(log) && Faithful(ty.codec)
    ensures var a := TryAppend(log, key, expected, ty, events);
            a.result.Ok? ==>
              && Stream(log, key) <= Stream(a.log, key)
              && DecodeAll(ty.codec, Stream(a.log, key)[|Stream(log, key)|..]) == Ok(a.result.value)
  {
    MaxVersionIsLength(log, key);
    assert events[..|events|] == events;
    if |events| > 0 && TryAppend(log, key, expected, ty, events).result.Ok? {
      var base := MaxVersion(log, key);
      var after := Pushed(log, key, base, ty, events);
      PushedReadsBack(log, key, base, ty, events);
      PushedLength(log, key, base, ty, events);
      SelectSplit(after, OfStream(key), 0, |log|);
      assert after[..|log|] == log;
    }
  }

  // ---------------------------------------------------------------------------
  // Pagination
  // ---------------------------------------------------------------------------

  /** One page of a global read. The limit is tested after a push, so a limit of 0 still returns one event. */
  function Page(log: Log, names: seq<string>, after: nat, limit: nat): seq<Located> {
    var all := Select(log, Named(names), after);
    all[..Min(if limit == 0 then 1 else limit, |all|)]
  }

  lemma CutByPosition(all: seq<Located>, lo: seq<Located>, hi: seq<Located>, index: nat)
    requires all == lo + hi && index < |all|
    requires forall i, j | 0 <= i < j < |all| :: all[i].position < all[j].position
    requires forall l <- lo :: l.position <= all[index].position
    requires forall l <- hi :: l.position > all[index].position
    ensures lo == all[..index + 1] && hi == all[index + 1..]
  {
    var n := |lo|;
    assert forall j | n <= j < |all| :: all[j] == hi[j - n] && hi[j - n] in hi;
    assert forall j | n <= j < |all| :: all[j].position > all[index].position;
    assert n > index;
    assert lo[n - 1] in lo && all[n - 1].position <= all[index].position;
  }

  /** Where a scan is cut by position is where it is cut by index. */
  lemma SelectCut(log: Log, q: Query, after: nat, index: nat)
    requires index < |Select(log, q, after)|
    ensures var all := Select(log, q, after);
            var last := all[index].position;
            && after < last <= |log|
            && Select(log[..last], q, after) == all[..index + 1]
            && Select(log, q, last) == all[index + 1..]
  {
    var all := Select(log, q, after);
    var last := all[index].position;
    SelectSound(log, q, after);
    assert all[index] in all;
    SelectSplit(log, q, after, last);
    SelectSound(log[..last], q, after);
    SelectSound(log, q, last);
    CutByPosition(all, Select(log[..last], q, after), Select(log, q, last), index);
  }

  /** A scan that never reached the limit is the page. */
  lemma PageIsAll(log: Log, names: seq<string>, after: nat, limit: nat)
    requires var all := Select(log, Named(names), after); |all| == 0 || |all| < limit
    ensures Page(log, names, after, limit) == Select(log, Named(names), after)
  {
    var all := Select(log, Named(names), after);
    assert all[..|all|] == all;
  }

  /** While fewer than `limit` events are found the next match belongs to the page, and the `limit`-th ends it. */
  lemma PageGrows(log: Log, names: seq<string>, after: nat, limit: nat, i: nat)
    requires after <= i < |log| && Matches(Named(names), log[i])
    requires var found := Select(log[..i], Named(names), after); |found| == 0 || |found| < limit
    ensures var found := Select(log[..i], Named(names), after) + [Located(i + 1, log[i])];
            && found <= Page(log, names, after, limit)
            && (|found| >= limit ==> found == Page(log, names, after, limit))
  {
    assert log[..i + 1] == log[..i] + [log[i]];
    SelectPush(log[..i], log[i], Named(names), after);
    SelectGrows(log[..i + 1], log, Named(names), after);
  }

  /** Reading on from the last position of a page misses nothing and repeats nothing. */
  lemma PageThenRest(log: Log, names: seq<string>, after: nat, limit: nat)
    requires Page(log, names, after, limit) != []
    ensures var page := Page(log, names, after, limit);
            var last := page[|page| - 1].position;
            && after < last <= |log|
            && page + Select(log, Named(names), last) == Select(log, Named(names), after)
            && page == Select(log[..last], Named(names), after)
  {
    SelectCut(log, Named(names), after, |Page(log, names, after, limit)| - 1);
  }

  /** Every page from `after` to the end, read with one fixed limit. */
  function AllPages(log: Log, names: seq<string>, after: nat, limit: nat): seq<seq<Located>>
    decreases |log| - after
  {
    var page := Page(log, names, after, limit);
    if page == [] then []
    else
      PageThenRest(log, names, after, limit);
      [page] + AllPages(log, names, page[|page| - 1].position, limit)
  }

  function Flatten<T>(ss: seq<seq<T>>): seq<T> {
    if ss == [] then [] else ss[0] + Flatten(ss[1..])
  }

  /** Paging through a log that stands still ends, and its pages together are exactly the matching suffix. */
  lemma {:induction false} PaginationIsComplete(log: Log, names: seq<string>, after: nat, limit: nat)
    ensures Flatten(AllPages(log, names, after, limit)) == Select(log, Named(names), after)
    ensures forall page <- AllPages(log, names, after, limit) ::
              0 < |page| <= (if limit == 0 then 1 else limit)
    ensures var pages := AllPages(log, names, after, limit);
            forall i | 0 <= i < |pages| - 1 :: |pages[i]| == if limit == 0 then 1 else limit
    decreases |log| - after
  {
    var page := Page(log, names, after, limit);
    if page != [] {
      PageThenRest(log, names, after, limit);
      var last := page[|page| - 1].position;
      var rest := AllPages(log, names, last, limit);
      hide Page, Select;
      PaginationIsComplete(log, names, last, limit);
      assert AllPages(log, names, after, limit) == [page] + rest;
      assert Flatten([page] + rest) == page + Flatten(rest) by {
        assert ([page] + rest)[1..] == rest;
      }
    }
  }
}
