/** The in-process store: one log and one table of documents, changed in place by atomic calls. */
module MemoryStore {
  import opened Events
  import opened EventLog

  /** Collection name to key to document text. */
  type Documents = map<string, map<string, string>>

  function GetDocument(documents: Documents, collection: string, key: string): Option<string> {
    if collection in documents && key in documents[collection] then Some(documents[collection][key]) else None
  }

  function PutDocument(documents: Documents, collection: string, key: string, text: string): Documents {
    var held := if collection in documents then documents[collection] else map[];
    documents[collection := held[key := text]]
  }

  function DropDocument(documents: Documents, collection: string, key: string): Documents {
    if collection in documents then documents[collection := documents[collection] - {key}] else documents
  }

  /** A document is what was last put under its own collection and key; no other write or deletion reaches it. */
  lemma DocumentsAreIndependent(
      documents: Documents, collection: string, key: string, text: string, other: string, otherKey: string)
    ensures GetDocument(PutDocument(documents, collection, key, text), collection, key) == Some(text)
    ensures GetDocument(DropDocument(documents, collection, key), collection, key) == None
    ensures (collection, key) != (other, otherKey) ==>
              && GetDocument(PutDocument(documents, collection, key, text), other, otherKey)
              == GetDocument(documents, other, otherKey)
              && GetDocument(DropDocument(documents, collection, key), other, otherKey)
              == GetDocument(documents, other, otherKey)
  {
    assert DropDocument(documents, collection, key).Keys == documents.Keys;
  }

  /** A fetched document: absent, decoded, or undecodable. */
  function FetchDocument<T>(documents: Documents, collection: string, key: string, codec: Codec<T>)
    : Result<Option<T>, StoreError>
  {
    match GetDocument(documents, collection, key)
    case None => Ok(None)
    case Some(text) =>
      var value := codec.decode(text);
      if value.None? then Err(Serialization) else Ok(value)
  }

  /** A read that meets an undecodable payload fails, whatever would have followed. */
  lemma DecodeFails<E>(codec: Codec<E>, before: seq<Located>, bad: Located, all: seq<Located>)
    requires before + [bad] <= all && codec.decode(bad.stored.payload).None?
    ensures DecodeAll(codec, all) == Err(Serialization)
  {
    var rest := all[|before| + 1..];
    assert all == (before + [bad]) + rest;
    DecodeAllConcat(codec, before + [bad], rest);
    DecodeAllConcat(codec, before, [bad]);
  }

  /** The encodable prefix ends at the first event that cannot be encoded. */
  lemma {:induction false} EncodablePrefixIs<E>(ty: EventType<E>, events: seq<E>, n: nat)
    requires n <= |events| && Encodable(ty, events[..n])
    requires n < |events| ==> ty.codec.encode(events[n]).None?
    ensures EncodablePrefix(ty, events) == n
  {
    var m := EncodablePrefix(ty, events);
    assert forall i | 0 <= i < n :: events[..n][i] == events[i] && ty.codec.encode(events[i]).Some?;
    assert forall i | 0 <= i < m :: events[..m][i] == events[i] && ty.codec.encode(events[i]).Some?;
  }

  class MemoryStore {
    /** Globally ordered; index + 1 is the global position. */
    var log: Log
    var documents: Documents

    ghost predicate Valid()
      reads this
    {
      WellFormed(log)
    }

    constructor ()
      ensures Valid() && log == [] && documents == map[]
    {
      log := [];
      documents := map[];
    }

    /** Check the revision and push the batch. A payload that cannot be encoded ends the call at once, and
        what was already pushed stays. */
    method Append<E>(key: StreamKey, expected: ExpectedRevision, ty: EventType<E>, events: seq<E>)
      returns (result: Result<seq<Recorded<E>>, StoreError>)
      requires Valid()
      modifies this`log
      ensures Appended(log, result) == TryAppend(old(log), key, expected, ty, events)
      ensures Continues(old(log), log, key)
      ensures Valid()
    {
      hide Select, Stream, WellFormed, MaxVersion, Pushed, Records;
      AppendKeepsLog(log, key, expected, ty, events);
      if |events| == 0 {
        return Ok([]);
      }
      var current := CurrentVersion(key);
      if !expected.Admits(current) {
        return Err(Conflict(key.id, expected, current));
      }
      var recorded: seq<Recorded<E>> := [];
      var offset := 0;
      PushStarts(log, key, current, ty, events);
      while offset < |events|
        invariant 0 <= offset <= |events|
        invariant Encodable(ty, events[..offset])
        invariant log == Pushed(old(log), key, current, ty, events[..offset])
        invariant recorded == Records(key, current, |old(log)|, ty, events[..offset])
        invariant |log| == |old(log)| + offset
      {
        var event := events[offset];
        var version := current + offset + 1;
        var payload := ty.codec.encode(event);
        if payload.None? {
          EncodablePrefixIs(ty, events, offset);
          return Err(Serialization);
        }
        PushNext(old(log), key, current, ty, events, offset);
        var stored := StoredEvent(key, version, ty.nameOf(event), payload.value);
        assert stored == ToStored(key, current + offset + 1, ty, events[offset]);
        log := log + [stored];
        var entry := Recorded(key, version, |log|, ty.nameOf(event), event);
        assert entry
            == Recorded(key, current + offset + 1, |old(log)| + offset + 1, ty.nameOf(events[offset]), events[offset]);
        recorded := recorded + [entry];
        offset := offset + 1;
      }
      assert events[..offset] == events;
      EncodablePrefixIs(ty, events, offset);
      return Ok(recorded);
    }

    /** Scan the whole log for the stream's highest version. */
    method CurrentVersion(key: StreamKey) returns (current: nat)
      ensures current == MaxVersion(log, key)
    {
      current := 0;
      for i := 0 to |log|
        invariant current == MaxVersion(log[..i], key)
      {
        assert log[..i + 1][..i] == log[..i];
        if log[i].key == key && log[i].version > current {
          current := log[i].version;
        }
      }
      assert log[..|log|] == log;
    }

    /** Load a full stream: scan, decode, sort by version. */
    method Load<E>(key: StreamKey, ty: EventType<E>) returns (result: Result<seq<Recorded<E>>, StoreError>)
      requires Valid()
      ensures result == DecodeAll(ty.codec, Stream(log, key))
    {
      result := Scan(OfStream(key), 0, ty.codec);
      if result.Ok? {
        LoadNeedsNoSort(ty.codec, log, key, 0);
        result := Ok(SortByVersion(result.value));
      }
    }

    /** Load only what is beyond `version`. */
    method LoadFrom<E>(key: StreamKey, version: nat, ty: EventType<E>)
      returns (result: Result<seq<Recorded<E>>, StoreError>)
      requires Valid()
      ensures result == DecodeAll(ty.codec, Stream(log, key)[Min(version, |Stream(log, key)|)..])
    {
      result := Scan(OfStreamAfter(key, version), 0, ty.codec);
      SuffixScanIsDrop(log, key, version);
      if result.Ok? {
        LoadNeedsNoSort(ty.codec, log, key, version);
        result := Ok(SortByVersion(result.value));
      }
    }

    /** Walk the log, decode every match, and stop at the first payload that does not decode. */
    method Scan<E>(q: Query, after: nat, codec: Codec<E>) returns (result: Result<seq<Recorded<E>>, StoreError>)
      ensures result == DecodeAll(codec, Select(log, q, after))
    {
      hide Select, DecodeAll;
      var out: seq<Recorded<E>> := [];
      ghost var found: seq<Located> := [];
      ScanStarts(log, q, after, codec);
      for i := 0 to |log|
        invariant found == Select(log[..i], q, after)
        invariant DecodeAll(codec, found) == Ok(out)
      {
        assert log[..i + 1] == log[..i] + [log[i]];
        SelectPush(log[..i], log[i], q, after);
        if i + 1 > after && Matches(q, log[i]) {
          var l := Located(i + 1, log[i]);
          var payload := codec.decode(log[i].payload);
          if payload.None? {
            SelectGrows(log[..i + 1], log, q, after);
            DecodeFails(codec, found, l, Select(log, q, after));
            return Err(Serialization);
          }
          DecodeAllPush(codec, found, l, payload.value);
          out := out + [ToRecorded(l, payload.value)];
          found := found + [l];
        }
      }
      assert log[..|log|] == log;
      return Ok(out);
    }

    /** Read one page across all streams: filtered by event name, beyond a position, cut after `limit` events. */
    method ReadAll<E>(after: nat, limit: nat, ty: EventType<E>)
      returns (result: Result<seq<Recorded<E>>, StoreError>)
      ensures result == DecodeAll(ty.codec, Page(log, ty.names, after, limit))
    {
      hide Select, Page, DecodeAll;
      var out: seq<Recorded<E>> := [];
      ghost var q := Named(ty.names);
      ghost var found: seq<Located> := [];
      ScanStarts(log, q, after, ty.codec);
      for i := 0 to |log|
        invariant found == Select(log[..i], q, after)
        invariant |found| == |out| && (|found| == 0 || |found| < limit)
        invariant DecodeAll(ty.codec, found) == Ok(out)
      {
        assert log[..i + 1] == log[..i] + [log[i]];
        SelectPush(log[..i], log[i], q, after);
        if i + 1 > after && log[i].eventType in ty.names {
          var l := Located(i + 1, log[i]);
          PageGrows(log, ty.names, after, limit, i);
          var payload := ty.codec.decode(log[i].payload);
          if payload.None? {
            DecodeFails(ty.codec, found, l, Page(log, ty.names, after, limit));
            return Err(Serialization);
          }
          DecodeAllPush(ty.codec, found, l, payload.value);
          out := out + [ToRecorded(l, payload.value)];
          found := found + [l];
          if |out| >= limit {
            return Ok(out);
          }
        }
      }
      assert log[..|log|] == log;
      PageIsAll(log, ty.names, after, limit);
      return Ok(out);
    }

    method Save<T>(collection: string, key: string, codec: Codec<T>, value: T)
      returns (result: Result<(), StoreError>)
      modifies this`documents
      ensures codec.encode(value).None? ==> result == Err(Serialization) && documents == old(documents)
      ensures codec.encode(value).Some? ==>
                && result == Ok(())
                && documents == PutDocument(old(documents), collection, key, codec.encode(value).value)
    {
      var text := codec.encode(value);
      if text.None? {
        return Err(Serialization);
      }
      if collection !in documents {
        documents := documents[collection := map[]];
      }
      documents := documents[collection := documents[collection][key := text.value]];
      return Ok(());
    }

    method Fetch<T>(collection: string, key: string, codec: Codec<T>)
      returns (result: Result<Option<T>, StoreError>)
      ensures result == FetchDocument(documents, collection, key, codec)
    {
      if collection in documents && key in documents[collection] {
        var value := codec.decode(documents[collection][key]);
        if value.None? {
          return Err(Serialization);
        }
        return Ok(value);
      }
      return Ok(None);
    }

    method Delete(collection: string, key: string)
      modifies this`documents
      ensures documents == DropDocument(old(documents), collection, key)
    {
      if collection in documents {
        documents := documents[collection := documents[collection] - {key}];
      }
    }
  }
}
