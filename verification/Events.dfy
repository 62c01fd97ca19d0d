/** The values that cross the store boundary: revisions, stored and recorded events, and codecs. */
module Events {

  datatype Option<+T> = None | Some(value: T)

  datatype Result<+T, +E> = Ok(value: T) | Err(error: E)

  /** A stream is addressed by its aggregate type together with its instance id. */
  datatype StreamKey = StreamKey(kind: string, id: string)

  /** What a writer believes about a stream before appending to it. */
  datatype ExpectedRevision = Any | NoStream | Exact(version: nat) {
    predicate Admits(actual: nat) {
      match this
      case Any => true
      case NoStream => actual == 0
      case Exact(v) => actual == v
    }
  }

  /** The revision a reader that saw `version` events hands to its next append. */
  function ExpectedAfter(version: nat): ExpectedRevision {
    if version == 0 then NoStream else Exact(version)
  }

  /** A reader's revision admits one stream version only: the one it read. */
  lemma ExpectedAfterIsExact(version: nat, actual: nat)
    ensures ExpectedAfter(version).Admits(actual) <==> actual == version
  {
  }

  datatype StoreError =
    | Conflict(streamId: string, expected: ExpectedRevision, actual: nat)
    | Serialization

  /** Serialization of one type to and from document text; both directions may fail. */
  datatype Codec<!T> = Codec(encode: T -> Option<string>, decode: string -> Option<T>)

  /** Whatever can be written reads back as itself. */
  ghost predicate Faithful<T(!new)>(codec: Codec<T>) {
    forall x: T :: codec.encode(x).Some? ==> codec.decode(codec.encode(x).value) == Some(x)
  }

  /** The stable names and the codec that an event enum supplies. */
  datatype EventType<!E> = EventType(codec: Codec<E>, nameOf: E -> string, names: seq<string>)

  /** An event as the log keeps it: the payload is text. */
  datatype StoredEvent = StoredEvent(key: StreamKey, version: nat, eventType: string, payload: string)

  /** An event as readers see it: decoded, with its global position. */
  datatype Recorded<+E> =
    Recorded(key: StreamKey, version: nat, position: nat, eventType: string, payload: E)

  /** An event whose text and name are already fixed; what writers of other types append. */
  datatype Wire = Wire(name: string, payload: string)

  function WireEvents(): EventType<Wire> {
    EventType(Codec((w: Wire) => Some(w.payload), (text: string) => Some(Wire("", text))),
              (w: Wire) => w.name, [])
  }
}
