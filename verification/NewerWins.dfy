/** Merging uploaded objects (`BaseResource` in `api.py`): per key, the object with the newer `updated` wins. */
module NewerWins {
  // `key` is what `get_existing` looks up; `fields` is everything else but the database id.
  datatype Object<K, V> = Object(key: K, updated: int, fields: V)

  type Store<K, V> = map<K, Object<K, V>>

  function Merge<K, V>(store: Store<K, V>, o: Object<K, V>): Store<K, V> {
    if o.key !in store || store[o.key].updated < o.updated then store[o.key := o] else store
  }

  function MergeAll<K, V>(store: Store<K, V>, objects: seq<Object<K, V>>): Store<K, V>
    decreases objects
  {
    if objects == [] then store
    else Merge(MergeAll(store, objects[..|objects| - 1]), objects[|objects| - 1])
  }

  class Resource<K(==), V(==)> {
    var store: Store<K, V>
    var allObjects: seq<Object<K, V>>

    constructor ()
      ensures store == map[] && allObjects == []
    {
      store, allObjects := map[], [];
    }

    method CreateHook(o: Object<K, V>) returns (result: Object<K, V>)
      modifies this`store
      ensures store == Merge(old(store), o) && result == o
      ensures o.key in store && o.updated <= store[o.key].updated
      ensures forall k :: k in old(store) ==> k in store && old(store)[k].updated <= store[k].updated
      ensures forall k :: k in store && store[k] != o ==> k in old(store) && store[k] == old(store)[k]
    {
      if o.key !in store {
        store := store[o.key := o];
      } else {
        var existing := store[o.key];
        if o.updated > existing.updated {
          existing := existing.(updated := o.updated, fields := o.fields, key := o.key);
          store := store[o.key := existing];
        }
      }
      return o;
    }

    // One request: the objects of its body, one after the other, none of them deleting what is there.
    method PostList(body: seq<Object<K, V>>)
      modifies this
      ensures store == MergeAll(old(store), body)
      ensures allObjects == body
    {
      allObjects := [];
      for i := 0 to |body|
        invariant store == MergeAll(old(store), body[..i])
        invariant allObjects == body[..i]
      {
        assert body[..i + 1][..i] == body[..i];
        var created := CreateHook(body[i]);
        allObjects := allObjects + [created];
      }
      assert body[..|body|] == body;
    }
  }

  // ---------------------------------------------------------------------------------------------
  // What a store holds after any uploads

  // One of the newest among what was stored and what was uploaded for a key; a stored object keeps its place
  // against an upload that is not newer.
  ghost predicate NewestAt<K, V>(store: Store<K, V>, uploaded: set<Object<K, V>>, result: Store<K, V>, k: K) {
    && (k in result ==>
          (k in store && result[k] == store[k]) ||
          (result[k] in uploaded && result[k].key == k && (k in store ==> store[k].updated < result[k].updated)))
    && (k in store ==> k in result && store[k].updated <= result[k].updated)
    && (forall o :: o in uploaded && o.key == k ==> k in result && o.updated <= result[k].updated)
  }

  ghost predicate HoldsNewest<K(!new), V>(store: Store<K, V>, uploaded: set<Object<K, V>>, result: Store<K, V>) {
    forall k :: NewestAt(store, uploaded, result, k)
  }

  ghost function Uploaded<K, V>(objects: seq<Object<K, V>>): set<Object<K, V>> {
    set o | o in objects
  }

  lemma UploadedLast<K, V>(objects: seq<Object<K, V>>)
    requires objects != []
    ensures Uploaded(objects) == Uploaded(objects[..|objects| - 1]) + {objects[|objects| - 1]}
  {
  }

  lemma MergeHoldsNewest<K(!new), V(!new)>(store: Store<K, V>, uploaded: set<Object<K, V>>, before: Store<K, V>,
                                           o: Object<K, V>)
    requires HoldsNewest(store, uploaded, before)
    ensures HoldsNewest(store, uploaded + {o}, Merge(before, o))
  {
    forall k
      ensures NewestAt(store, uploaded + {o}, Merge(before, o), k)
    {
      assert NewestAt(store, uploaded, before, k);
    }
  }

  /** Any sequence of uploads leaves, per key, an object of the greatest `updated` seen. */
  lemma {:induction false} MergeAllHoldsNewest<K(!new), V(!new)>(store: Store<K, V>, objects: seq<Object<K, V>>)
    ensures HoldsNewest(store, Uploaded(objects), MergeAll(store, objects))
    decreases objects
  {
    if objects != [] {
      var n := |objects| - 1;
      MergeAllHoldsNewest(store, objects[..n]);
      UploadedLast(objects);
      MergeHoldsNewest(store, Uploaded(objects[..n]), MergeAll(store, objects[..n]), objects[n]);
    }
  }

  // ---------------------------------------------------------------------------------------------
  // Convergence

  // Of two different uploads of one key with one date, something newer is uploaded, or nothing older was stored.
  ghost predicate NoTie<K(!new), V(!new)>(store: Store<K, V>, uploaded: set<Object<K, V>>) {
    forall a, b :: a in uploaded && b in uploaded && a.key == b.key && a.updated == b.updated && a != b ==>
      (a.key in store && a.updated <= store[a.key].updated) ||
      exists o :: o in uploaded && o.key == a.key && a.updated < o.updated
  }

  // Every order, repetition and division of the same uploads leads to the same store.
  ghost predicate Converges<K(!new), V(!new)>(store: Store<K, V>, uploaded: set<Object<K, V>>) {
    forall xs, ys :: Uploaded<K, V>(xs) == uploaded && Uploaded<K, V>(ys) == uploaded ==>
      MergeAll(store, xs) == MergeAll(store, ys)
  }

  lemma SameAtKey<K(!new), V(!new)>(store: Store<K, V>, uploaded: set<Object<K, V>>, r1: Store<K, V>,
                                    r2: Store<K, V>, k: K)
    requires NoTie(store, uploaded) && HoldsNewest(store, uploaded, r1) && HoldsNewest(store, uploaded, r2)
    requires k in r1
    ensures k in r2 && r1[k] == r2[k]
  {
    assert NewestAt(store, uploaded, r1, k) && NewestAt(store, uploaded, r2, k);
  }

  lemma NewestIsUnique<K(!new), V(!new)>(store: Store<K, V>, uploaded: set<Object<K, V>>, r1: Store<K, V>,
                                         r2: Store<K, V>)
    requires NoTie(store, uploaded) && HoldsNewest(store, uploaded, r1) && HoldsNewest(store, uploaded, r2)
    ensures r1 == r2
  {
    forall k | k in r1 || k in r2
      ensures k in r1 && k in r2 && r1[k] == r2[k]
    {
      if k in r1 {
        SameAtKey(store, uploaded, r1, r2, k);
      } else {
        SameAtKey(store, uploaded, r2, r1, k);
      }
    }
  }

  // Of equally new uploads the first stays.
  lemma {:induction false} FirstStays<K(!new), V(!new)>(store: Store<K, V>, first: Object<K, V>,
                                                        rest: seq<Object<K, V>>)
    requires first.key in store ==> store[first.key].updated < first.updated
    requires forall o :: o in rest && o.key == first.key ==> o.updated <= first.updated
    ensures var r := MergeAll(store, [first] + rest); first.key in r && r[first.key] == first
    decreases rest
  {
    var all := [first] + rest;
    if rest == [] {
      assert all[..0] == [];
    } else {
      var n := |rest| - 1;
      assert all[..|all| - 1] == [first] + rest[..n];
      FirstStays(store, first, rest[..n]);
    }
  }

  lemma {:induction false} Listing<T>(items: set<T>) returns (list: seq<T>)
    ensures forall x :: x in list <==> x in items
    decreases items
  {
    if items == {} {
      list := [];
    } else {
      var x :| x in items;
      var rest := Listing(items - {x});
      list := [x] + rest;
    }
  }

  /** Convergence, exactly: the same uploads in any order, with any repetition, lead from the same store to the same
      store if and only if they hold no tie among the newest objects of a key. */
  lemma ConvergesIffNoTie<K(!new), V(!new)>(store: Store<K, V>, uploaded: set<Object<K, V>>)
    ensures Converges(store, uploaded) <==> NoTie(store, uploaded)
  {
    if NoTie(store, uploaded) {
      forall xs, ys | Uploaded<K, V>(xs) == uploaded && Uploaded<K, V>(ys) == uploaded
        ensures MergeAll(store, xs) == MergeAll(store, ys)
      {
        MergeAllHoldsNewest(store, xs);
        MergeAllHoldsNewest(store, ys);
        NewestIsUnique(store, uploaded, MergeAll(store, xs), MergeAll(store, ys));
      }
    } else {
      var a, b :| a in uploaded && b in uploaded && a.key == b.key && a.updated == b.updated && a != b
        && !(a.key in store && a.updated <= store[a.key].updated)
        && !exists o :: o in uploaded && o.key == a.key && a.updated < o.updated;
      var list := Listing(uploaded);
      FirstStays(store, a, list);
      FirstStays(store, b, list);
      assert Uploaded([a] + list) == uploaded && Uploaded([b] + list) == uploaded;
    }
  }

  function Flatten<T>(requests: seq<seq<T>>): seq<T> {
    if requests == [] then [] else Flatten(requests[..|requests| - 1]) + requests[|requests| - 1]
  }

  function MergeRequests<K, V>(store: Store<K, V>, requests: seq<seq<Object<K, V>>>): Store<K, V>
    decreases requests
  {
    if requests == [] then store
    else MergeAll(MergeRequests(store, requests[..|requests| - 1]), requests[|requests| - 1])
  }

  lemma {:induction false} MergeAppends<K, V>(store: Store<K, V>, xs: seq<Object<K, V>>, ys: seq<Object<K, V>>)
    ensures MergeAll(store, xs + ys) == MergeAll(MergeAll(store, xs), ys)
    decreases ys
  {
    if ys == [] {
      assert xs + ys == xs;
    } else {
      var all := xs + ys;
      assert all[..|all| - 1] == xs + ys[..|ys| - 1];
      MergeAppends(store, xs, ys[..|ys| - 1]);
    }
  }

  lemma {:induction false} RequestsFlatten<K, V>(store: Store<K, V>, requests: seq<seq<Object<K, V>>>)
    ensures MergeRequests(store, requests) == MergeAll(store, Flatten(requests))
    decreases requests
  {
    if requests != [] {
      var n := |requests| - 1;
      RequestsFlatten(store, requests[..n]);
      MergeAppends(store, Flatten(requests[..n]), requests[n]);
    }
  }

  // Every division of the same uploads into requests, in any order and repetition, leads to the same store.
  ghost predicate RequestsAgree<K(!new), V(!new)>(store: Store<K, V>, uploaded: set<Object<K, V>>) {
    forall rs1, rs2 :: Uploaded<K, V>(Flatten(rs1)) == uploaded && Uploaded<K, V>(Flatten(rs2)) == uploaded ==>
      MergeRequests(store, rs1) == MergeRequests(store, rs2)
  }

  /** The same for uploads that are split into requests: however that is done, the receivers end alike if and only if
      there is no tie. */
  lemma RequestsConverge<K(!new), V(!new)>(store: Store<K, V>, uploaded: set<Object<K, V>>)
    ensures RequestsAgree(store, uploaded) <==> NoTie(store, uploaded)
  {
    ConvergesIffNoTie(store, uploaded);
    if Converges(store, uploaded) {
      forall rs1, rs2 | Uploaded<K, V>(Flatten(rs1)) == uploaded && Uploaded<K, V>(Flatten(rs2)) == uploaded
        ensures MergeRequests(store, rs1) == MergeRequests(store, rs2)
      {
        RequestsFlatten(store, rs1);
        RequestsFlatten(store, rs2);
      }
    } else {
      var xs, ys :| Uploaded<K, V>(xs) == uploaded && Uploaded<K, V>(ys) == uploaded
        && MergeAll(store, xs) != MergeAll(store, ys);
      OneRequest(store, xs);
      OneRequest(store, ys);
    }
  }

  lemma OneRequest<K, V>(store: Store<K, V>, objects: seq<Object<K, V>>)
    ensures Flatten([objects]) == objects && MergeRequests(store, [objects]) == MergeAll(store, objects)
  {
    assert [objects][..0] == [] && Flatten<Object<K, V>>([]) == [];
    assert MergeRequests(store, []) == store;
  }

  /** Requests leave per key one of the newest objects of them all. */
  lemma RequestsHoldNewest<K(!new), V(!new)>(store: Store<K, V>, requests: seq<seq<Object<K, V>>>)
    ensures HoldsNewest(store, Uploaded(Flatten(requests)), MergeRequests(store, requests))
  {
    RequestsFlatten(store, requests);
    MergeAllHoldsNewest(store, Flatten(requests));
  }
}
