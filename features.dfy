/**
 * The default `onSuccess` handler of the layer: the features of a response are turned into
 * markers, skipping every id the layer has already seen. This module holds its specification;
 * the loop itself is `OverPassLayer.OnSuccess` in the controller.
 *
 * `popup` stands for the popup content built from a feature's tags; the layer passes the envelope
 * formatter of the `Envelope` module.
 *
 * Ids are compared as numbers only, as the code's `e.id in this._ids` does, so a node and a way
 * that share a number count as one feature.
 */
module Features {
  import opened Wrappers
  import opened Geo

  /**
   * One entry of `data.elements`: `coords` stands for its `lat`/`lon` fields and `center` for its
   * `center` field, each absent when the response leaves it out.
   */
  datatype Element = Element(id: int, kind: string, coords: Option<LatLng>, center: Option<LatLng>, tags: map<string, string>)

  /** What the handler adds to the marker layer: the feature's id, its position and its envelope lines. */
  datatype Marker = Marker(id: int, pos: LatLng, address: seq<string>)

  /** The result of handling a response: the ids seen, the markers added, and whether the loop ran to its end. */
  datatype Ingested = Ingested(ids: set<int>, markers: seq<Marker>, complete: bool)

  /** Nodes are placed at their own coordinates, every other element at its `center`. */
  function Position(e: Element): (r: Option<LatLng>)
    ensures e.kind == "node" ==> r == e.coords
    ensures e.kind != "node" ==> r == e.center
  {
    if e.kind == "node" then e.coords else e.center
  }

  /** The marker of an element with a position: `L.marker` at that position, bound to its popup. */
  function MarkerOf(e: Element, popup: map<string, string> -> seq<string>): Marker
    requires Position(e).Some?
  {
    Marker(e.id, Position(e).value, popup(e.tags))
  }

  /**
   * The handler's loop over `es`, element by element from the front: an id already seen is skipped;
   * a new one is recorded and, when the element has a position, becomes a marker. An element
   * without one ends the loop with its id already recorded: for a node the code throws when the
   * marker built at an undefined position is added, for any other element when `e.center.lat` is
   * read.
   */
  function Ingest(seen: set<int>, es: seq<Element>, popup: map<string, string> -> seq<string>): Ingested
    decreases |es|
  {
    if es == [] then Ingested(seen, [], true)
    else Step(Ingest(seen, es[..|es| - 1], popup), es[|es| - 1], popup)
  }

  /** One turn of the handler's loop. */
  function Step(prev: Ingested, e: Element, popup: map<string, string> -> seq<string>): Ingested {
    if !prev.complete || e.id in prev.ids then prev
    else if Position(e).None? then Ingested(prev.ids + {e.id}, prev.markers, false)
    else Ingested(prev.ids + {e.id}, prev.markers + [MarkerOf(e, popup)], true)
  }

  lemma {:induction false} IngestPrefix(seen: set<int>, es: seq<Element>, i: nat, popup: map<string, string> -> seq<string>)
    requires i < |es|
    ensures Ingest(seen, es[..i + 1], popup) == Step(Ingest(seen, es[..i], popup), es[i], popup)
  {
    assert es[..i + 1][..i] == es[..i];
  }

  // ----- a reference definition: the first occurrence of every unseen id -----

  function IdsOf(es: seq<Element>): set<int> {
    set e | e in es :: e.id
  }

  /** The elements of `es` whose id is neither in `seen` nor carried by an earlier element, in order. */
  function Fresh(seen: set<int>, es: seq<Element>): seq<Element>
    decreases |es|
  {
    if es == [] then []
    else if es[0].id in seen then Fresh(seen, es[1..])
    else [es[0]] + Fresh(seen + {es[0].id}, es[1..])
  }

  function MarkersOf(es: seq<Element>, popup: map<string, string> -> seq<string>): seq<Marker>
    requires forall e :: e in es ==> Position(e).Some?
  {
    if es == [] then [] else [MarkerOf(es[0], popup)] + MarkersOf(es[1..], popup)
  }

  /** `a` is `b` with some elements left out, the rest in their order. */
  predicate IsSubsequence<T(==)>(a: seq<T>, b: seq<T>)
    decreases |b|
  {
    a == [] || (b != [] && ((a[0] == b[0] && IsSubsequence(a[1..], b[1..])) || IsSubsequence(a, b[1..])))
  }

  /** `Fresh` grows at the end as `es` does. */
  lemma {:induction false} FreshSnoc(seen: set<int>, es: seq<Element>, e: Element)
    ensures Fresh(seen, es + [e]) == Fresh(seen, es) + (if e.id in seen + IdsOf(es) then [] else [e])
    decreases |es|
  {
    if es == [] {
      assert [e][1..] == [];
    } else {
      assert (es + [e])[0] == es[0];
      assert (es + [e])[1..] == es[1..] + [e];
      assert IdsOf(es) == {es[0].id} + IdsOf(es[1..]) by {
        assert es == [es[0]] + es[1..];
      }
      if es[0].id in seen {
        FreshSnoc(seen, es[1..], e);
      } else {
        FreshSnoc(seen + {es[0].id}, es[1..], e);
      }
    }
  }

  lemma {:induction false} MarkersOfSnoc(es: seq<Element>, e: Element, popup: map<string, string> -> seq<string>)
    requires forall x :: x in es ==> Position(x).Some?
    requires Position(e).Some?
    ensures MarkersOf(es + [e], popup) == MarkersOf(es, popup) + [MarkerOf(e, popup)]
    decreases |es|
  {
    if es == [] {
      assert [e][1..] == [];
    } else {
      assert (es + [e])[1..] == es[1..] + [e];
      MarkersOfSnoc(es[1..], e, popup);
    }
  }

  /**
   * The handler against the reference: it runs to its end exactly when every fresh element has a
   * position, and then its markers are those of the fresh elements, in order, and the seen ids are
   * the old ones plus every id of the response.
   */
  lemma {:induction false} IngestIsFresh(seen: set<int>, es: seq<Element>, popup: map<string, string> -> seq<string>)
    ensures var r := Ingest(seen, es, popup);
      && (r.complete <==> forall e :: e in Fresh(seen, es) ==> Position(e).Some?)
      && (r.complete ==> r.ids == seen + IdsOf(es) && r.markers == MarkersOf(Fresh(seen, es), popup))
    decreases |es|
  {
    if es != [] {
      var init, e := es[..|es| - 1], es[|es| - 1];
      assert es == init + [e];
      IngestIsFresh(seen, init, popup);
      FreshSnoc(seen, init, e);
      assert IdsOf(es) == IdsOf(init) + {e.id};
      var prev := Ingest(seen, init, popup);
      var r := Ingest(seen, es, popup);
      var f := Fresh(seen, init);
      if !prev.complete {
        assert r == prev;
        var bad :| bad in f && Position(bad).None?;
        assert bad in Fresh(seen, es);
      } else if e.id in prev.ids {
        assert r == prev;
        assert Fresh(seen, es) == f;
      } else if Position(e).None? {
        assert !r.complete;
        assert e in Fresh(seen, es);
      } else {
        assert Fresh(seen, es) == f + [e];
        MarkersOfSnoc(f, e, popup);
      }
    }
  }

  /** Ids only accumulate, and only ids of the response are added. */
  lemma {:induction false} IngestIds(seen: set<int>, es: seq<Element>, popup: map<string, string> -> seq<string>)
    ensures seen <= Ingest(seen, es, popup).ids <= seen + IdsOf(es)
    decreases |es|
  {
    if es != [] {
      var init := es[..|es| - 1];
      assert es == init + [es[|es| - 1]];
      IngestIds(seen, init, popup);
      assert IdsOf(es) == IdsOf(init) + {es[|es| - 1].id};
    }
  }

  /** Every marker added is for an id that was not seen before, all of them recorded, none twice. */
  lemma {:induction false} IngestMarkersAreNew(seen: set<int>, es: seq<Element>, popup: map<string, string> -> seq<string>)
    ensures var r := Ingest(seen, es, popup);
      && (forall k :: 0 <= k < |r.markers| ==> r.markers[k].id in r.ids && r.markers[k].id !in seen)
      && (forall j, k :: 0 <= j < k < |r.markers| ==> r.markers[j].id != r.markers[k].id)
    decreases |es|
  {
    if es != [] {
      IngestMarkersAreNew(seen, es[..|es| - 1], popup);
      IngestIds(seen, es[..|es| - 1], popup);
    }
  }

  /** The fresh elements come from `es`, in order, with ids that are new and pairwise distinct. */
  lemma {:induction false} FreshIsNewAndOrdered(seen: set<int>, es: seq<Element>)
    ensures var f := Fresh(seen, es);
      && IsSubsequence(f, es)
      && (forall k :: 0 <= k < |f| ==> f[k].id !in seen)
      && (forall j, k :: 0 <= j < k < |f| ==> f[j].id != f[k].id)
    decreases |es|
  {
    if es != [] {
      var tail := es[1..];
      if es[0].id in seen {
        FreshIsNewAndOrdered(seen, tail);
      } else {
        FreshIsNewAndOrdered(seen + {es[0].id}, tail);
        var f := Fresh(seen, es);
        assert f == [es[0]] + Fresh(seen + {es[0].id}, tail);
        assert f[1..] == Fresh(seen + {es[0].id}, tail);
        forall j, k | 0 <= j < k < |f| ensures f[j].id != f[k].id {
          assert f[k] == Fresh(seen + {es[0].id}, tail)[k - 1];
          if j > 0 { assert f[j] == Fresh(seen + {es[0].id}, tail)[j - 1]; }
        }
      }
    }
  }

  /** Every unseen id of the response is carried by its first element among the fresh ones. */
  lemma {:induction false} FreshKeepsFirstOccurrence(seen: set<int>, es: seq<Element>, j: nat)
    requires j < |es| && es[j].id !in seen
    requires forall k :: 0 <= k < j ==> es[k].id != es[j].id
    ensures es[j] in Fresh(seen, es)
    decreases |es|
  {
    if j > 0 {
      if es[0].id in seen {
        FreshKeepsFirstOccurrence(seen, es[1..], j - 1);
      } else {
        FreshKeepsFirstOccurrence(seen + {es[0].id}, es[1..], j - 1);
      }
    }
  }

  /** Every marker is for an id of `ids`, and no id has two markers. */
  predicate UniqueIds(ms: seq<Marker>, ids: set<int>) {
    && (forall k :: 0 <= k < |ms| ==> ms[k].id in ids)
    && (forall j, k :: 0 <= j < k < |ms| ==> ms[j].id != ms[k].id)
  }

  /** Across responses, as long as the ids are kept: markers added to unique ones stay unique. */
  lemma {:induction false} IngestKeepsUnique(before: seq<Marker>, seen: set<int>, es: seq<Element>, popup: map<string, string> -> seq<string>)
    requires UniqueIds(before, seen)
    ensures var r := Ingest(seen, es, popup); UniqueIds(before + r.markers, r.ids)
  {
    var r := Ingest(seen, es, popup);
    IngestMarkersAreNew(seen, es, popup);
    IngestIds(seen, es, popup);
    var m := before + r.markers;
    forall j, k | 0 <= j < k < |m| ensures m[j].id != m[k].id {
      if k >= |before| {
        assert m[k] == r.markers[k - |before|];
        if j < |before| { assert m[j] == before[j]; } else { assert m[j] == r.markers[j - |before|]; }
      }
    }
  }

  /** Once a response has been cut short, the elements after the failure change nothing. */
  lemma {:induction false} IngestStopsAtFailure(seen: set<int>, es: seq<Element>, j: nat, popup: map<string, string> -> seq<string>)
    requires j <= |es| && !Ingest(seen, es[..j], popup).complete
    ensures Ingest(seen, es, popup) == Ingest(seen, es[..j], popup)
    decreases |es| - j
  {
    if j < |es| {
      IngestPrefix(seen, es, j, popup);
      IngestStopsAtFailure(seen, es, j + 1, popup);
    } else {
      assert es[..j] == es;
    }
  }
}
