/**
 * The four annotation facets and the per-facet tag lists of the client
 * (public/app.js). A JavaScript `Set` iterates in insertion order and that order
 * is what `[...set]` puts into a saved annotation, so a selection set is modelled
 * as a duplicate-free sequence in insertion order.
 */
module Facets {

  /** The fixed facets, in the order the client's `state.selections` declares them. */
  datatype Facet = EmotionalTone | ThematicContent | NarrativeStructure | LyricalStyle

  /** `Object.keys(state.selections)`: every facet once, in declaration order. */
  const FacetOrder: seq<Facet> := [EmotionalTone, ThematicContent, NarrativeStructure, LyricalStyle]

  /** The position of a facet in FacetOrder. */
  function FacetIndex(f: Facet): (k: nat)
    ensures k < |FacetOrder| && FacetOrder[k] == f
  {
    match f
    case EmotionalTone => 0
    case ThematicContent => 1
    case NarrativeStructure => 2
    case LyricalStyle => 3
  }

  predicate NoDup<T(==)>(s: seq<T>) {
    forall i, j :: 0 <= i < j < |s| ==> s[i] != s[j]
  }

  /** One tag list per facet: the current selections, or the `selections` object of a payload. */
  datatype FacetLists = FacetLists(
    emotionalTone: seq<string>,
    thematicContent: seq<string>,
    narrativeStructure: seq<string>,
    lyricalStyle: seq<string>)
  {
    function Get(f: Facet): (r: seq<string>) {
      match f
      case EmotionalTone => emotionalTone
      case ThematicContent => thematicContent
      case NarrativeStructure => narrativeStructure
      case LyricalStyle => lyricalStyle
    }

    /** Replaces the list of facet `f` and keeps the three others. */
    function With(f: Facet, tags: seq<string>): (r: FacetLists)
      ensures r.Get(f) == tags
      ensures forall g :: g != f ==> r.Get(g) == Get(g)
    {
      match f
      case EmotionalTone => this.(emotionalTone := tags)
      case ThematicContent => this.(thematicContent := tags)
      case NarrativeStructure => this.(narrativeStructure := tags)
      case LyricalStyle => this.(lyricalStyle := tags)
    }

    /** The sum of the four set sizes (the `reduce` over `Object.values(state.selections)`). */
    function Count(): (n: nat)
      ensures n == 0 <==> this == NoSelections
    {
      |emotionalTone| + |thematicContent| + |narrativeStructure| + |lyricalStyle|
    }

    /** Every facet's list is a set: no tag twice. */
    predicate Distinct() {
      forall f :: NoDup(Get(f))
    }
  }

  /** Four empty sets: the state after `clear()` on every facet. */
  const NoSelections := FacetLists([], [], [], [])

  /** `Set.delete(v)`: the list without `v`, the rest in order. */
  function Without<T(==)>(s: seq<T>, v: T): (r: seq<T>)
    ensures v !in r && |r| <= |s|
  {
    if s == [] then []
    else if s[0] == v then Without(s[1..], v)
    else [s[0]] + Without(s[1..], v)
  }

  lemma {:induction false} WithoutMembers<T>(s: seq<T>, v: T)
    ensures forall w :: w in Without(s, v) <==> w in s && w != v
  {
    if s != [] {
      WithoutMembers(s[1..], v);
    }
  }

  lemma {:induction false} WithoutNoDup<T>(s: seq<T>, v: T)
    requires NoDup(s)
    ensures NoDup(Without(s, v))
  {
    if s != [] {
      assert NoDup(s[1..]) by {
        forall i, j | 0 <= i < j < |s[1..]| ensures s[1..][i] != s[1..][j] {
          assert s[1..][i] == s[i + 1] && s[1..][j] == s[j + 1];
        }
      }
      WithoutNoDup(s[1..], v);
      WithoutMembers(s[1..], v);
      assert s[0] !in s[1..] by {
        forall k | 0 <= k < |s[1..]| ensures s[1..][k] != s[0] {
          assert s[1..][k] == s[k + 1];
        }
      }
    }
  }

  /** Removing an element that was never there changes nothing. */
  lemma {:induction false} WithoutAbsent<T>(s: seq<T>, v: T)
    requires v !in s
    ensures Without(s, v) == s
  {
    if s != [] {
      WithoutAbsent(s[1..], v);
    }
  }

  /** toggleTag on one facet's set: delete `v` if present, otherwise add it at the end. */
  function Toggled(s: seq<string>, v: string): (r: seq<string>)
    ensures v in r <==> v !in s
  {
    if v in s then Without(s, v) else s + [v]
  }

  /** Toggling flips the membership of `v`, keeps every other tag's membership and keeps the set a set. */
  lemma ToggledFlips(s: seq<string>, v: string)
    requires NoDup(s)
    ensures v in Toggled(s, v) <==> v !in s
    ensures forall w :: w != v ==> (w in Toggled(s, v) <==> w in s)
    ensures NoDup(Toggled(s, v))
  {
    WithoutMembers(s, v);
    if v in s {
      WithoutNoDup(s, v);
    }
  }

  /** Toggling the same tag twice restores the set's membership. */
  lemma ToggledTwiceSameMembers(s: seq<string>, v: string)
    requires NoDup(s)
    ensures forall w :: w in Toggled(Toggled(s, v), v) <==> w in s
  {
    ToggledFlips(s, v);
    ToggledFlips(Toggled(s, v), v);
  }

  /** When the tag was not selected, toggling it twice gives back exactly the same list. */
  lemma ToggledTwiceAbsent(s: seq<string>, v: string)
    requires v !in s
    ensures Toggled(Toggled(s, v), v) == s
  {
    assert v in s + [v];
    WithoutAbsent(s, v);
    assert Without(s + [v], v) == s by {
      WithoutAppend(s, [v], v);
      assert Without([v], v) == Without([], v);
    }
  }

  lemma {:induction false} WithoutAppend<T>(a: seq<T>, b: seq<T>, v: T)
    ensures Without(a + b, v) == Without(a, v) + Without(b, v)
  {
    if a != [] {
      assert (a + b)[1..] == a[1..] + b;
      WithoutAppend(a[1..], b, v);
    } else {
      assert a + b == b;
    }
  }

  /**
   * Toggling a selected tag twice moves it to the end of the set's iteration order,
   * so the saved list can differ in order from the one before the two clicks.
   */
  lemma {:induction false} ToggledTwiceReorders(s: seq<string>, v: string)
    requires v in s
    ensures Toggled(Toggled(s, v), v) == Without(s, v) + [v]
  {
    WithoutMembers(s, v);
  }

  /** Deselecting and reselecting the first of two tags saves them in the other order. */
  lemma ToggledTwiceReordersExample()
    ensures Toggled(Toggled(["calm", "dark"], "calm"), "calm") == ["dark", "calm"]
  {
    ToggledTwiceReorders(["calm", "dark"], "calm");
  }

  /**
   * Toggling a tag twice gives back exactly the same list iff the tag was not
   * selected or was the last one added.
   */
  lemma ToggledTwiceRestores(s: seq<string>, v: string)
    requires NoDup(s)
    ensures Toggled(Toggled(s, v), v) == s <==> v !in s || s[|s| - 1] == v
  {
    if v !in s {
      ToggledTwiceAbsent(s, v);
    } else {
      ToggledTwiceReorders(s, v);
      var r := Toggled(Toggled(s, v), v);
      assert r[|r| - 1] == v;
      if s[|s| - 1] == v {
        var init := s[..|s| - 1];
        assert s == init + [v];
        assert v !in init by {
          forall k | 0 <= k < |init| ensures init[k] != v {
            assert init[k] == s[k];
          }
        }
        WithoutAppend(init, [v], v);
        WithoutAbsent(init, v);
        assert Without([v], v) == Without([], v);
      }
    }
  }
}
