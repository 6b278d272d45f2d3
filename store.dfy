/**
 * The cloud document store the screens write to, seen as a map from a
 * document path (its segments) to the document's fields.
 */
module Store {
  import opened Wrappers

  type Path = seq<string>

  datatype Value = Str(s: string) | Int(n: int) | Real(r: real)

  type Record = map<string, Value>

  type Docs = map<Path, Record>

  /** A `set` call: replace the whole document at `path` with `record`. */
  datatype Write = Write(path: Path, record: Record)

  /** `users/{uid}/baseStations/{mac}` */
  function BasePath(uid: string, mac: string): Path {
    ["users", uid, "baseStations", mac]
  }

  /** `users/{uid}/baseStations/{mac}/sensors/{sensorId}` */
  function SensorPath(uid: string, mac: string, sensorId: string): Path {
    BasePath(uid, mac) + ["sensors", sensorId]
  }

  /**
   * An id the store accepts as one path segment. A path string with an empty
   * segment ("//") or an id that contains '/' makes the store's reference
   * builders throw `IllegalArgumentException`.
   */
  predicate ValidId(id: string) {
    id != "" && '/' !in id
  }

  /** The store after a committed `set`. */
  function Written(d: Docs, w: Write): Docs {
    d[w.path := w.record]
  }

  /** The store after a committed `update(field, value)`; `None` when the document does not exist (the update fails). */
  function Updated(d: Docs, path: Path, field: string, value: Value): Option<Docs> {
    if path in d then Some(d[path := d[path][field := value]]) else None
  }

  /** The store after a committed `delete`: that one document is gone, nothing under it is touched. */
  function Deleted(d: Docs, path: Path): Docs {
    d - {path}
  }

  /** Writing the same document twice leaves the store as writing it once. */
  lemma WriteIdempotent(d: Docs, w: Write)
    ensures Written(Written(d, w), w) == Written(d, w)
  {
  }

  /** A sensor document never shares a path with a base-station document. */
  lemma SensorPathIsNotABasePath(uid: string, mac: string, sensorId: string, uid': string, mac': string)
    ensures SensorPath(uid, mac, sensorId) != BasePath(uid', mac')
    ensures SensorPath(uid, mac, sensorId)[..4] == BasePath(uid, mac)
  {
    assert |SensorPath(uid, mac, sensorId)| == 6;
  }

  /** Deleting a base station leaves its sensors, and every other document, as they were. */
  lemma DeleteBaseKeepsSensors(d: Docs, uid: string, mac: string, sensorId: string)
    requires SensorPath(uid, mac, sensorId) in d
    ensures SensorPath(uid, mac, sensorId) in Deleted(d, BasePath(uid, mac))
    ensures Deleted(d, BasePath(uid, mac))[SensorPath(uid, mac, sensorId)] == d[SensorPath(uid, mac, sensorId)]
  {
    SensorPathIsNotABasePath(uid, mac, sensorId, uid, mac);
  }

  /** The process-wide store instance the screens share. */
  class DocumentStore {
    var docs: Docs

    constructor (initial: Docs)
      ensures docs == initial
    {
      docs := initial;
    }

    method Set(w: Write)
      modifies this
      ensures docs == Written(old(docs), w)
    {
      docs := docs[w.path := w.record];
    }

    method Update(path: Path, field: string, value: Value) returns (ok: bool)
      modifies this
      ensures ok == (path in old(docs))
      ensures docs == if ok then Updated(old(docs), path, field, value).value else old(docs)
    {
      ok := path in docs;
      if ok {
        docs := docs[path := docs[path][field := value]];
      }
    }

    method Delete(path: Path)
      modifies this
      ensures docs == Deleted(old(docs), path)
    {
      docs := docs - {path};
    }
  }
}
