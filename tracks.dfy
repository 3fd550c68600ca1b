/**
 * Tracks of the corpus and the client's eligibility filter
 * (`.filter((x) => x.track_id && x.lyrics)` in `loadData`). A string field is
 * truthy in JavaScript exactly when it is non-empty; a missing field is modelled
 * as the empty string.
 */
module Tracks {

  datatype Track = Track(trackId: string, trackName: string, artistName: string, lyrics: string)

  predicate IsEligible(t: Track) {
    t.trackId != "" && t.lyrics != ""
  }

  /** The corpus filtered down to eligible tracks, in corpus order. */
  function Eligible(corpus: seq<Track>): (r: seq<Track>)
    ensures |r| <= |corpus|
    ensures forall t :: t in r ==> IsEligible(t)
  {
    if corpus == [] then []
    else (if IsEligible(corpus[0]) then [corpus[0]] else []) + Eligible(corpus[1..])
  }

  /** `r` can be obtained from `s` by deleting elements: the order of `s` is kept. */
  predicate IsSubsequence<T(==)>(r: seq<T>, s: seq<T>)
    decreases |s|
  {
    r == [] ||
    (s != [] && ((r[0] == s[0] && IsSubsequence(r[1..], s[1..])) || IsSubsequence(r, s[1..])))
  }

  /** Every eligible track is kept as often as it occurs, and no other track is kept. */
  lemma {:induction false} EligibleCount(corpus: seq<Track>, t: Track)
    ensures multiset(Eligible(corpus))[t] == if IsEligible(t) then multiset(corpus)[t] else 0
  {
    if corpus != [] {
      EligibleCount(corpus[1..], t);
      assert corpus == [corpus[0]] + corpus[1..];
    }
  }

  /** Membership form of EligibleCount: a track is kept iff it is in the corpus and eligible. */
  lemma EligibleMembers(corpus: seq<Track>, t: Track)
    ensures t in Eligible(corpus) <==> t in corpus && IsEligible(t)
  {
    EligibleCount(corpus, t);
  }

  /** The filter keeps the corpus order. */
  lemma {:induction false} EligibleIsSubsequence(corpus: seq<Track>)
    ensures IsSubsequence(Eligible(corpus), corpus)
  {
    if corpus != [] {
      EligibleIsSubsequence(corpus[1..]);
      if IsEligible(corpus[0]) {
        assert Eligible(corpus)[1..] == Eligible(corpus[1..]);
      } else {
        assert Eligible(corpus) == Eligible(corpus[1..]);
      }
    }
  }
}
