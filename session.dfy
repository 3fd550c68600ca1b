/**
 * The client's annotation session (public/app.js): the global `state` object as a
 * class, one method per user action. The fetches are replaced by their outcome
 * (a boolean and the documents they deliver), `Math.random` by a draw oracle,
 * the clock and the session id by string parameters. The 800 ms `setTimeout`
 * after a successful save is collapsed into an immediate step.
 */
module Session {
  import opened Wrappers
  import opened Facets
  import opened Tracks
  import opened Shuffle

  /** `.slice(0, 50)`: the size of the queue assigned to a session. */
  const QueueSize: nat := 50

  function Min(a: nat, b: nat): (m: nat) {
    if a <= b then a else b
  }

  /** The local copy of a saved annotation (`annotationData`). */
  datatype LocalAnnotation = LocalAnnotation(
    trackId: string,
    trackName: string,
    artistName: string,
    selections: FacetLists,
    annotatedAt: string,
    sessionId: Option<string>)

  /** The body POSTed to `/api/annotate`: the track id and the four selection lists, nothing else. */
  datatype Payload = Payload(trackId: string, selections: FacetLists)

  /** What `showNextTrack` ends in. */
  datatype NextResult =
    | Showing(track: Track)   // a track is displayed and becomes `state.current`
    | Completed               // nothing left and nothing skipped: the completion notice
    | NoTrack                 // the cursor points past the queue even after re-queueing

  datatype LoadResult = LoadFailed | Loaded(next: NextResult)

  datatype SaveResult =
    | NoCurrentTrack          // refused: no track is displayed, no request
    | NothingSelected         // refused: all four sets empty, no request
    | Saved(payload: Payload)       // request sent and answered ok
    | SaveFailed(payload: Payload)  // request sent, error or non-ok answer

  /** `state.tags[f] || []`: the vocabulary of a facet, empty when the document lacks it. */
  function Vocabulary(tags: map<Facet, seq<string>>, f: Facet): (r: seq<string>) {
    if f in tags then tags[f] else []
  }

  /** Every facet's displayed list reset to its whole vocabulary. */
  function FullVocabulary(tags: map<Facet, seq<string>>): (m: map<Facet, seq<string>>)
    ensures forall f :: f in m && m[f] == Vocabulary(tags, f)
  {
    var m := map f: Facet | f in FacetOrder :: Vocabulary(tags, f);
    assert forall f :: f in m by {
      forall f ensures f in m {
        assert FacetOrder[FacetIndex(f)] == f;
      }
    }
    m
  }

  /**
   * The initial queue: the eligible tracks shuffled and cut to the first 50.
   */
  function InitialQueue(all: seq<Track>, draws: seq<nat>): (q: seq<Track>)
    requires ValidDraws(draws, |all|)
    ensures |q| == Min(QueueSize, |all|)
    ensures multiset(q) <= multiset(all)
    ensures forall t :: t in q ==> t in all
    ensures |all| <= QueueSize ==> multiset(q) == multiset(all)
  {
    ShuffledPermutes(all, draws);
    var s := Shuffled(all, draws);
    var n := Min(QueueSize, |all|);
    assert s == s[..n] + s[n..];
    assert multiset(s) == multiset(s[..n]) + multiset(s[n..]);
    assert forall t :: t in s[..n] ==> t in multiset(all) by {
      forall t | t in s[..n] ensures t in multiset(all) {
        assert t in multiset(s[..n]);
      }
    }
    s[..n]
  }

  /**
   * The queue part of `showNextTrack`: once the cursor has run past the queue, the
   * skipped tracks are appended to it in skip order and the skip list is emptied.
   */
  function Requeue(queue: seq<Track>, skipped: seq<Track>, cursor: nat): (r: (seq<Track>, seq<Track>))
    ensures |r.0| + |r.1| == |queue| + |skipped| && |queue| <= |r.0|
    ensures r.0[..|queue|] == queue
    ensures cursor < |queue| ==> r == (queue, skipped)
    ensures cursor >= |queue| ==> r.0[|queue|..] == skipped && r.1 == []
  {
    if cursor >= |queue| then (queue + skipped, []) else (queue, skipped)
  }

  /**
   * The "remaining" figure of `updateProgress`: `Math.max(0, total - completed)`
   * with `total` the queue plus the skip list and `completed` the cursor.
   */
  function RemainingCount(queueLen: nat, skippedLen: nat, cursor: nat): (r: nat)
    ensures r == 0 <==> cursor >= queueLen + skippedLen
    ensures r > 0 ==> cursor + r == queueLen + skippedLen
  {
    if queueLen + skippedLen > cursor then queueLen + skippedLen - cursor else 0
  }

  class AnnotationSession {
    var tags: Option<map<Facet, seq<string>>>
    var allTracks: seq<Track>
    var assignedTracks: seq<Track>
    var currentIndex: nat
    var current: Option<Track>
    var selections: FacetLists
    var filtered: map<Facet, seq<string>>
    var progress: nat
    var skippedTracks: seq<Track>
    var completedAnnotations: seq<LocalAnnotation>
    var sessionId: Option<string>

    /** Each selection is a set, and nothing is queued or displayed before the vocabulary arrived. */
    ghost predicate Consistent()
      reads this
    {
      selections.Distinct() &&
      (tags.None? ==> current == None && assignedTracks == [] && skippedTracks == [])
    }

    /** Consistent, and the displayed track is the one under the cursor whenever the cursor is inside the queue. */
    ghost predicate Valid()
      reads this
    {
      Consistent() &&
      (current.Some? && currentIndex < |assignedTracks| ==> current.value == assignedTracks[currentIndex])
    }

    /** The number of tracks still to go, as the queue counter shows it. */
    function Remaining(): (n: nat)
      reads this
      ensures n == 0 <==> currentIndex >= |assignedTracks| + |skippedTracks|
      ensures n > 0 ==> currentIndex + n == |assignedTracks| + |skippedTracks|
    {
      RemainingCount(|assignedTracks|, |skippedTracks|, currentIndex)
    }

    /** The initial `state` object. */
    constructor ()
      ensures Valid()
      ensures tags == None && allTracks == [] && assignedTracks == [] && currentIndex == 0
      ensures current == None && selections == NoSelections && filtered == map[]
      ensures progress == 0 && skippedTracks == [] && completedAnnotations == [] && sessionId == None
    {
      tags := None;
      allTracks := [];
      assignedTracks := [];
      currentIndex := 0;
      current := None;
      selections := NoSelections;
      filtered := map[];
      progress := 0;
      skippedTracks := [];
      completedAnnotations := [];
      sessionId := None;
    }

    /**
     * The `for (const f of Object.keys(state.selections))` loop that sets every
     * facet's displayed list to its vocabulary.
     */
    method ShowFullVocabulary(vocab: map<Facet, seq<string>>)
      modifies this`filtered
      ensures filtered == FullVocabulary(vocab)
    {
      var i := 0;
      while i < |FacetOrder|
        invariant 0 <= i <= |FacetOrder|
        invariant forall k :: 0 <= k < i ==> FacetOrder[k] in filtered && filtered[FacetOrder[k]] == Vocabulary(vocab, FacetOrder[k])
        invariant forall f :: f in filtered ==> f in old(filtered) || f in FacetOrder[..i]
      {
        filtered := filtered[FacetOrder[i] := Vocabulary(vocab, FacetOrder[i])];
        i := i + 1;
      }
      forall f ensures f in filtered && filtered[f] == Vocabulary(vocab, f) {
        assert FacetOrder[FacetIndex(f)] == f;
      }
    }

    /**
     * `resetSelections`: clears every facet's set, then resets every displayed list
     * to the full vocabulary. Before the vocabulary is loaded (`state.tags` is null)
     * the second loop throws on its first facet: the sets are cleared, the lists are not.
     */
    method ResetSelections()
      requires Consistent()
      modifies this`selections, this`filtered
      ensures Consistent() && (old(Valid()) ==> Valid())
      ensures selections == NoSelections
      ensures filtered == if old(tags).Some? then FullVocabulary(old(tags).value) else old(filtered)
    {
      var i := 0;
      while i < |FacetOrder|
        invariant 0 <= i <= |FacetOrder|
        invariant forall k :: 0 <= k < i ==> selections.Get(FacetOrder[k]) == []
        invariant forall k :: i <= k < |FacetOrder| ==> selections.Get(FacetOrder[k]) == old(selections).Get(FacetOrder[k])
        invariant filtered == old(filtered)
      {
        selections := selections.With(FacetOrder[i], []);
        i := i + 1;
      }
      assert selections.Get(FacetOrder[0]) == [] && selections.Get(FacetOrder[1]) == [];
      assert selections.Get(FacetOrder[2]) == [] && selections.Get(FacetOrder[3]) == [];
      if tags.Some? {
        ShowFullVocabulary(tags.value);
      }
    }

    /** `toggleTag`: flips one tag's membership in one facet's set. */
    method ToggleTag(f: Facet, v: string)
      requires Valid()
      modifies this`selections
      ensures Valid()
      ensures selections == old(selections).With(f, Toggled(old(selections).Get(f), v))
    {
      ToggledFlips(selections.Get(f), v);
      selections := selections.With(f, Toggled(selections.Get(f), v));
    }

    /**
     * A keystroke in facet `f`'s search field: a non-empty (trimmed) query shows the
     * search's matches, an empty one the whole vocabulary. The matches of the fuzzy
     * search are a parameter. The selection sets are not touched.
     */
    method ApplySearch(f: Facet, query: string, matches: seq<string>)
      requires Valid() && tags.Some?
      modifies this`filtered
      ensures Valid()
      ensures filtered == old(filtered)[f := if query != "" then matches else Vocabulary(tags.value, f)]
    {
      if query != "" {
        filtered := filtered[f := matches];
      } else {
        filtered := filtered[f := Vocabulary(tags.value, f)];
      }
    }

    /**
     * `showNextTrack`: re-queues the skipped tracks when the cursor has run past the
     * queue; reports completion when there were none; otherwise displays the track
     * under the cursor. On completion `state.current` keeps the track it had.
     */
    method ShowNextTrack() returns (r: NextResult)
      requires Consistent()
      modifies this`assignedTracks, this`skippedTracks, this`current
      ensures Valid()
      ensures (assignedTracks, skippedTracks) == Requeue(old(assignedTracks), old(skippedTracks), currentIndex)
      ensures r == Completed <==> old(currentIndex >= |assignedTracks| && skippedTracks == [])
      ensures r.Showing? <==> currentIndex < |assignedTracks|
      ensures r.Showing? ==> r.track == assignedTracks[currentIndex] && current == Some(r.track)
      ensures !r.Showing? ==> current == old(current)
      ensures Remaining() == old(Remaining())
    {
      if currentIndex >= |assignedTracks| {
        if |skippedTracks| > 0 {
          assignedTracks := assignedTracks + skippedTracks;
          skippedTracks := [];
        } else {
          assert assignedTracks + skippedTracks == assignedTracks;
          return Completed;
        }
      }
      if currentIndex < |assignedTracks| {
        var track := assignedTracks[currentIndex];
        current := Some(track);
        r := Showing(track);
      } else {
        r := NoTrack;
      }
    }

    /**
     * `loadData`: the session id is set first; a failed fetch then leaves everything
     * else as it was. Otherwise the session is started from the fetched documents.
     */
    method Load(fetched: bool, tagsDoc: map<Facet, seq<string>>, corpus: seq<Track>, draws: seq<nat>, newSessionId: string)
      returns (r: LoadResult)
      requires Valid()
      requires ValidDraws(draws, |Eligible(corpus)|)
      modifies this
      ensures Valid()
      ensures sessionId == Some(newSessionId)
      ensures !fetched ==> r == LoadFailed && unchanged(this`tags, this`allTracks, this`assignedTracks,
        this`current, this`filtered, this`progress, this`skippedTracks)
      ensures fetched ==> (r.Loaded? && tags == Some(tagsDoc) && allTracks == Eligible(corpus)
        && (assignedTracks, skippedTracks) == Requeue(InitialQueue(allTracks, draws), old(skippedTracks), currentIndex)
        && filtered == FullVocabulary(tagsDoc) && progress == 0
        && (r.next.Showing? <==> currentIndex < |assignedTracks|)
        && (r.next.Showing? ==> current == Some(assignedTracks[currentIndex]))
        && (!r.next.Showing? ==> current == old(current))
        && (r.next == Completed <==> currentIndex >= |assignedTracks| && old(skippedTracks) == []))
      ensures currentIndex == old(currentIndex) && selections == old(selections)
      ensures completedAnnotations == old(completedAnnotations)
    {
      sessionId := Some(newSessionId);
      if !fetched {
        return LoadFailed;
      }
      var next := Start(tagsDoc, corpus, draws);
      r := Loaded(next);
    }

    /**
     * The rest of `loadData` once both documents arrived: the vocabulary is stored,
     * the corpus filtered, the queue built, every facet's displayed list reset, the
     * saved count zeroed and the next track shown.
     */
    method Start(tagsDoc: map<Facet, seq<string>>, corpus: seq<Track>, draws: seq<nat>) returns (next: NextResult)
      requires Consistent()
      requires ValidDraws(draws, |Eligible(corpus)|)
      modifies this`tags, this`allTracks, this`assignedTracks, this`filtered, this`progress,
        this`skippedTracks, this`current
      ensures Valid()
      ensures tags == Some(tagsDoc) && allTracks == Eligible(corpus)
      ensures (assignedTracks, skippedTracks) == Requeue(InitialQueue(allTracks, draws), old(skippedTracks), currentIndex)
      ensures filtered == FullVocabulary(tagsDoc) && progress == 0
      ensures next.Showing? <==> currentIndex < |assignedTracks|
      ensures next.Showing? ==> current == Some(assignedTracks[currentIndex])
      ensures !next.Showing? ==> current == old(current)
      ensures next == Completed <==> currentIndex >= |assignedTracks| && old(skippedTracks) == []
    {
      tags := Some(tagsDoc);
      allTracks := Eligible(corpus);
      var shuffled := ShuffleArray(allTracks, draws);
      assignedTracks := shuffled[..Min(QueueSize, |shuffled|)];
      ShowFullVocabulary(tagsDoc);
      progress := 0;
      next := ShowNextTrack();
    }

    /**
     * `skipTrack`: with a track displayed, puts it on the skip list, moves the
     * cursor on, clears the selections and shows the next track.
     */
    method Skip()
      requires Valid()
      modifies this
      ensures Valid()
      ensures old(current).None? ==> unchanged(this)
      ensures old(current).Some? ==>
        currentIndex == old(currentIndex) + 1
        && (assignedTracks, skippedTracks)
           == Requeue(old(assignedTracks), old(skippedTracks) + [old(current).value], currentIndex)
        && selections == NoSelections && filtered == FullVocabulary(old(tags).value)
        && progress == old(progress) && completedAnnotations == old(completedAnnotations)
        && tags == old(tags) && allTracks == old(allTracks) && sessionId == old(sessionId)
        && (currentIndex < |assignedTracks| ==> current == Some(assignedTracks[currentIndex]))
        && (currentIndex >= |assignedTracks| ==> current == old(current))
        && Remaining() == old(Remaining())
    {
      if current.None? {
        return;
      }
      skippedTracks := skippedTracks + [current.value];
      currentIndex := currentIndex + 1;
      ResetSelections();
      var _ := ShowNextTrack();
    }

    /**
     * `save`: refused without a displayed track or without any selected tag.
     * Otherwise the local copy is pushed and the payload sent; `serverOk` is whether
     * the request succeeded with an ok status. On success the saved count and the
     * cursor move on, the selections are cleared and the next track is shown;
     * on failure the local copy is popped again.
     */
    method Save(serverOk: bool, now: string) returns (r: SaveResult)
      requires Valid()
      modifies this
      ensures Valid()
      ensures old(current).None? ==> r == NoCurrentTrack && unchanged(this)
      ensures old(current).Some? && old(selections).Count() == 0 ==> r == NothingSelected && unchanged(this)
      ensures old(current).Some? && old(selections).Count() > 0 ==>
        var t := old(current).value;
        var payload := Payload(t.trackId, old(selections));
        (!serverOk ==> r == SaveFailed(payload) && unchanged(this))
        && (serverOk ==> (r == Saved(payload)
          && progress == old(progress) + 1 && currentIndex == old(currentIndex) + 1
          && completedAnnotations == old(completedAnnotations)
             + [LocalAnnotation(t.trackId, t.trackName, t.artistName, old(selections), now, old(sessionId))]
          && (assignedTracks, skippedTracks) == Requeue(old(assignedTracks), old(skippedTracks), currentIndex)
          && selections == NoSelections && filtered == FullVocabulary(old(tags).value)
          && tags == old(tags) && allTracks == old(allTracks) && sessionId == old(sessionId)
          && (currentIndex < |assignedTracks| ==> current == Some(assignedTracks[currentIndex]))
          && (currentIndex >= |assignedTracks| ==> current == old(current))
          && Remaining() == if old(Remaining()) > 0 then old(Remaining()) - 1 else 0))
    {
      if current.None? {
        return NoCurrentTrack;
      }
      if selections.Count() == 0 {
        return NothingSelected;
      }
      var track := current.value;
      var annotation := LocalAnnotation(track.trackId, track.trackName, track.artistName, selections, now, sessionId);
      completedAnnotations := completedAnnotations + [annotation];
      var payload := Payload(track.trackId, annotation.selections);
      if serverOk {
        progress := progress + 1;
        currentIndex := currentIndex + 1;
        ResetSelections();
        var _ := ShowNextTrack();
        r := Saved(payload);
      } else {
        completedAnnotations := completedAnnotations[..|completedAnnotations| - 1];
        r := SaveFailed(payload);
      }
    }
  }
}
