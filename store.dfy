/**
 * The server's annotation persistence (server.js): one record per track in the
 * annotations directory and the shared index document `_index.json`. The
 * filesystem is an in-memory map from track id to record plus the state of the
 * index file; the clock (`new Date().toISOString()`) is a `now` parameter.
 */
module AnnotationStore {
  import opened Wrappers
  import opened Facets

  /** `{path, saved_at}`: what the index keeps about one annotated track. */
  datatype IndexEntry = IndexEntry(path: string, savedAt: string)

  /** `{by_track, total}`; `total` is whatever number the file holds. */
  datatype Index = Index(byTrack: map<string, IndexEntry>, total: int)

  /** `{track_id, selections, saved_at}`: the content of one record file. */
  datatype Record = Record(trackId: string, selections: FacetLists, savedAt: string)

  /**
   * What reading `_index.json` gives: no file, a file that does not parse, an index,
   * or the record a save of track `_index` wrote over it.
   */
  datatype IndexFile = Absent | Unreadable | Present(index: Index) | Overwritten(record: Record)

  /**
   * The track id whose record file is the index file: both are
   * `annotations/_index.json`.
   */
  const IndexId := "_index"

  /** What `GET /api/annotation/:trackId` answers: `null`, the parsed file (a record or the index), or 500. */
  datatype Reply = Null | RecordDoc(record: Record) | IndexDoc(index: Index) | ReadFailed

  /** A parsed request body; a field that is missing (or `null`) is `None`. */
  datatype RequestBody = RequestBody(trackId: Option<string>, selections: Option<FacetLists>)

  datatype Response = Ok | BadRequest | ServerError

  const EmptyIndex := Index(map[], 0)

  /** The index is consistent when `total` counts its entries. */
  predicate Counted(idx: Index) {
    idx.total == |idx.byTrack|
  }

  /** Start-up: an absent index file is created holding `{by_track: {}, total: 0}`; an existing one is kept. */
  function InitIndex(onDisk: IndexFile): (r: IndexFile)
    ensures r != Absent
    ensures onDisk == Absent ==> r == Present(EmptyIndex) && Counted(r.index)
    ensures onDisk != Absent ==> r == onDisk
  {
    if onDisk == Absent then Present(EmptyIndex) else onDisk
  }

  /** `` `annotations/${track_id}.json` ``: the path the index records for a track. */
  function EntryPath(trackId: string): (path: string) {
    "annotations/" + trackId + ".json"
  }

  /** Distinct track ids get distinct recorded paths. */
  lemma EntryPathInjective(a: string, b: string)
    requires EntryPath(a) == EntryPath(b)
    ensures a == b
  {
    var p := "annotations/";
    assert |a| == |b|;
    assert a == EntryPath(a)[|p|..|p| + |a|];
    assert b == EntryPath(b)[|p|..|p| + |b|];
  }

  /** The handler's `by_track[track_id] = {...}` and `total = Object.keys(by_track).length`. */
  function Upsert(idx: Index, trackId: string, savedAt: string): (r: Index) {
    var byTrack := idx.byTrack[trackId := IndexEntry(EntryPath(trackId), savedAt)];
    Index(byTrack, |byTrack|)
  }

  /**
   * After an upsert the entry of `trackId` holds its path and save time, every other
   * entry is as it was, and `total` counts the entries, counting `trackId` once.
   */
  lemma UpsertSpec(idx: Index, trackId: string, savedAt: string)
    ensures var r := Upsert(idx, trackId, savedAt);
      && r.byTrack.Keys == idx.byTrack.Keys + {trackId}
      && r.byTrack[trackId] == IndexEntry("annotations/" + trackId + ".json", savedAt)
      && (forall k :: k in idx.byTrack && k != trackId ==> r.byTrack[k] == idx.byTrack[k])
      && Counted(r)
      && r.total == if trackId in idx.byTrack then |idx.byTrack| else |idx.byTrack| + 1
  {
  }

  /** Re-saving a track overwrites its save time and leaves `total` as it was. */
  lemma ResaveKeepsTotal(idx: Index, trackId: string, first: string, second: string)
    ensures Upsert(Upsert(idx, trackId, first), trackId, second).total == Upsert(idx, trackId, first).total
    ensures Upsert(Upsert(idx, trackId, first), trackId, second).byTrack[trackId].savedAt == second
  {
  }

  /** Two saves of different tracks on a fresh index give `total == 2`. */
  lemma TwoDistinctSaves(a: string, b: string, t1: string, t2: string)
    requires a != b
    ensures Upsert(Upsert(EmptyIndex, a, t1), b, t2).total == 2
    ensures Upsert(Upsert(EmptyIndex, a, t1), b, t2).byTrack.Keys == {a, b}
  {
  }

  /** `!track_id || !selections`: the request lacks a (non-empty) track id or the selections. */
  predicate Incomplete(body: RequestBody) {
    body.trackId.None? || body.trackId.value == "" || body.selections.None?
  }

  class AnnotationServer {
    /** The record files of the annotations directory other than `_index.json`, by track id. */
    var records: map<string, Record>
    /** The index file as the next read will find it. */
    var indexFile: IndexFile

    /** Server start-up over what is already on disk. */
    constructor (storedRecords: map<string, Record>, storedIndex: IndexFile)
      ensures records == storedRecords && indexFile == InitIndex(storedIndex)
    {
      records := storedRecords;
      indexFile := InitIndex(storedIndex);
    }

    /**
     * `GET /api/annotation/:trackId`: the stored record, or `null` when there is none;
     * for `_index` whatever the index file holds.
     */
    function Lookup(trackId: string): (r: Reply)
      reads this
      ensures trackId != IndexId ==> (r.RecordDoc? <==> trackId in records)
      ensures trackId != IndexId ==> (r == Null <==> trackId !in records)
      ensures trackId != IndexId && r.RecordDoc? ==> r.record == records[trackId]
      ensures trackId == IndexId && indexFile.Present? ==> r == IndexDoc(indexFile.index)
      ensures trackId == IndexId && indexFile.Overwritten? ==> r == RecordDoc(indexFile.record)
      ensures trackId == IndexId && indexFile == Unreadable ==> r == ReadFailed
      ensures trackId == IndexId && indexFile == Absent ==> r == Null
    {
      if trackId == IndexId then
        match indexFile
        case Absent => Null
        case Unreadable => ReadFailed
        case Present(idx) => IndexDoc(idx)
        case Overwritten(rec) => RecordDoc(rec)
      else if trackId in records then RecordDoc(records[trackId])
      else Null
    }

    /**
     * `POST /api/annotate`: an incomplete body is refused with 400 and nothing
     * is written. Otherwise the record is written, then the index is read, upserted
     * and written back; an index that cannot be read gives 500 after the record
     * was already written. A save of track `_index` writes its record over the
     * index file, which then has no `by_track`, so it gets 500 as well.
     */
    method Annotate(body: RequestBody, now: string) returns (res: Response)
      modifies this
      ensures Incomplete(body) ==> res == BadRequest && unchanged(this)
      ensures !Incomplete(body) && body.trackId.value == IndexId ==>
        var rec := Record(IndexId, body.selections.value, now);
        res == ServerError && records == old(records) && indexFile == Overwritten(rec)
        && Lookup(IndexId) == RecordDoc(rec)
      ensures !Incomplete(body) && body.trackId.value != IndexId ==>
        var id := body.trackId.value;
        records == old(records)[id := Record(id, body.selections.value, now)]
        && Lookup(id) == RecordDoc(Record(id, body.selections.value, now))
        && (old(indexFile).Present? ==>
              (res == Ok && indexFile == Present(Upsert(old(indexFile).index, id, now)) && Counted(indexFile.index)))
        && (!old(indexFile).Present? ==> res == ServerError && indexFile == old(indexFile))
    {
      if Incomplete(body) {
        return BadRequest;
      }
      var id := body.trackId.value;
      var record := Record(id, body.selections.value, now);
      if id == IndexId {
        indexFile := Overwritten(record);
        return ServerError;
      }
      records := records[id := record];
      if !indexFile.Present? {
        return ServerError;
      }
      var idx := indexFile.index;
      idx := idx.(byTrack := idx.byTrack[id := IndexEntry(EntryPath(id), record.savedAt)]);
      idx := idx.(total := |idx.byTrack|);
      indexFile := Present(idx);
      res := Ok;
    }
  }
}
