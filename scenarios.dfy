/**
 * Whole sessions run through the client and server models: what the operations'
 * contracts let a caller conclude.
 */
module Scenarios {
  import opened Wrappers
  import opened Facets
  import opened Tracks
  import opened Shuffle
  import opened Session
  import opened AnnotationStore

  /**
   * An empty corpus loads into an empty queue and reaches completion at once;
   * no track is displayed, so a save is refused.
   */
  method EmptyCorpusCompletes(tagsDoc: map<Facet, seq<string>>, sessionId: string, now: string)
    returns (r: LoadResult, queueLength: nat, shown: bool, saved: SaveResult)
    ensures r == Loaded(Completed) && queueLength == 0
    ensures !shown && saved == NoCurrentTrack
  {
    var s := new AnnotationSession();
    r := s.Load(true, tagsDoc, [], [], sessionId);
    queueLength := |s.assignedTracks|;
    shown := s.current.Some?;
    saved := s.Save(true, now);
  }

  /** With draws that keep the order, two eligible tracks form the whole queue, in corpus order. */
  lemma TwoTrackQueue(a: Track, b: Track)
    requires IsEligible(a) && IsEligible(b)
    ensures Eligible([a, b]) == [a, b]
    ensures ValidDraws([0, 1], 2) && InitialQueue([a, b], [0, 1]) == [a, b]
  {
    assert [a, b][1..] == [b];
    assert Eligible([b]) == [b] + Eligible([]);
    ShuffleFromIdentity([a, b], [0, 1], 1);
    assert Shuffled([a, b], [0, 1]) == [a, b];
  }

  /** A fresh session loaded with two eligible tracks and draws that keep their order. */
  method LoadTwo(a: Track, b: Track) returns (s: AnnotationSession)
    requires IsEligible(a) && IsEligible(b)
    ensures fresh(s) && s.Valid()
    ensures s.assignedTracks == [a, b] && s.skippedTracks == [] && s.currentIndex == 0
    ensures s.current == Some(a) && s.selections == NoSelections
  {
    s := new AnnotationSession();
    TwoTrackQueue(a, b);
    assert Requeue([a, b], [], 0) == ([a, b], []);
    var loaded := s.Load(true, map[], [a, b], [0, 1], "s");
  }

  /**
   * Two tracks; the first is skipped and the second saved with one tag: the skipped
   * track comes back at the tail of the queue once the queue is used up, and the
   * request carries the one selected tag.
   */
  method SkipThenRequeue(a: Track, b: Track, tag: string, now: string)
    returns (queue: seq<Track>, shown: Option<Track>, saved: SaveResult)
    requires IsEligible(a) && IsEligible(b)
    ensures queue == [a, b, a] && shown == Some(a)
    ensures saved == Saved(Payload(b.trackId, NoSelections.With(EmotionalTone, [tag])))
  {
    var client := LoadTwo(a, b);
    client.Skip();
    assert Requeue([a, b], [a], 1) == ([a, b], [a]);
    assert client.assignedTracks == [a, b] && client.skippedTracks == [a] && client.currentIndex == 1;
    assert client.current == Some(b);
    client.ToggleTag(EmotionalTone, tag);
    var chosen := NoSelections.With(EmotionalTone, [tag]);
    assert client.selections == chosen && chosen.Count() == 1;
    assert [a, b] + [a] == [a, b, a];
    saved := client.Save(true, now);
    queue, shown := client.assignedTracks, client.current;
  }

  /**
   * Completion does not clear the displayed track, so a one-track session can save
   * that track a second time: the saved count and the local copies then exceed the
   * queue, the cursor passes the total, and only the clamp keeps the remaining count at 0.
   */
  method SaveAgainAfterCompletion(a: Track, tag: string, now: string)
    returns (progress: nat, copies: nat, cursor: nat, total: nat, remaining: nat)
    requires IsEligible(a)
    ensures progress == 2 && copies == 2
    ensures cursor == 2 && total == 1 && remaining == 0
  {
    var client := new AnnotationSession();
    assert Eligible([a]) == [a] by {
      assert Eligible([a]) == [a] + Eligible([]);
    }
    assert InitialQueue([a], [0]) == [a];
    assert Requeue([a], [], 0) == ([a], []);
    var loaded := client.Load(true, map[], [a], [0], "s");
    assert client.assignedTracks == [a] && client.current == Some(a);
    client.ToggleTag(EmotionalTone, tag);
    var first := client.Save(true, now);
    assert client.currentIndex == 1 && client.current == Some(a) && client.progress == 1;
    client.ToggleTag(EmotionalTone, tag);
    var second := client.Save(true, now);
    progress, copies, cursor := client.progress, |client.completedAnnotations|, client.currentIndex;
    total, remaining := |client.assignedTracks| + |client.skippedTracks|, client.Remaining();
  }

  /**
   * A client payload stored on a freshly started server reads back unchanged, and
   * the fresh index then counts one track.
   */
  method SaveThenRead(p: Payload, now: string) returns (stored: Reply, total: int)
    requires p.trackId != "" && p.trackId != IndexId
    ensures stored == RecordDoc(Record(p.trackId, p.selections, now))
    ensures total == 1
  {
    var server := new AnnotationServer(map[], Absent);
    var res := server.Annotate(RequestBody(Some(p.trackId), Some(p.selections)), now);
    stored := server.Lookup(p.trackId);
    total := server.indexFile.index.total;
  }

  /** Two saves of different tracks on a fresh server write two records and count two tracks. */
  method TwoSavesTwoRecords(p: Payload, q: Payload, now: string)
    returns (first: Reply, second: Reply, total: int)
    requires p.trackId != "" && q.trackId != "" && p.trackId != q.trackId
    requires p.trackId != IndexId && q.trackId != IndexId
    ensures first == RecordDoc(Record(p.trackId, p.selections, now))
    ensures second == RecordDoc(Record(q.trackId, q.selections, now))
    ensures total == 2
  {
    var server := new AnnotationServer(map[], Absent);
    var res := server.Annotate(RequestBody(Some(p.trackId), Some(p.selections)), now);
    res := server.Annotate(RequestBody(Some(q.trackId), Some(q.selections)), now);
    first := server.Lookup(p.trackId);
    second := server.Lookup(q.trackId);
    total := server.indexFile.index.total;
  }

  /**
   * A save of track `_index` replaces the index file with its record: the save gets
   * 500, so does every later save of another track, and the index lookup, which
   * showed the fresh index before, now shows the record.
   */
  method IndexIdOverwritesIndex(selections: FacetLists, other: Payload, now: string)
    returns (before: Reply, first: Response, later: Response, after: Reply)
    requires other.trackId != "" && other.trackId != IndexId
    ensures before == IndexDoc(EmptyIndex)
    ensures first == ServerError && later == ServerError
    ensures after == RecordDoc(Record(IndexId, selections, now))
  {
    var server := new AnnotationServer(map[], Absent);
    before := server.Lookup(IndexId);
    first := server.Annotate(RequestBody(Some(IndexId), Some(selections)), now);
    later := server.Annotate(RequestBody(Some(other.trackId), Some(other.selections)), now);
    after := server.Lookup(IndexId);
  }
}
