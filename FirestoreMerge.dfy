/** `mergeArraysById` of the Firestore service: local documents are put in
    a JavaScript `Map` keyed by id, then cloud documents, and the map's
    values are returned in insertion order. The cloud copy of a document
    always replaces the local one, whatever their contents. */
module FirestoreMerge {
  import opened Common

  /** A document with its `id` and the rest of its fields. */
  datatype Doc<T> = Doc(id: string, body: T)

  function Ids<T>(docs: seq<Doc<T>>): (r: seq<string>)
    ensures |r| == |docs|
    ensures forall i :: 0 <= i < |docs| ==> r[i] == docs[i].id
  {
    seq(|docs|, i requires 0 <= i < |docs| => docs[i].id)
  }

  /** A JavaScript `Map<string, Doc>`: its keys in insertion order and its
      entries. */
  datatype OrderedMap<T> = OrderedMap(keys: seq<string>, values: map<string, Doc<T>>)

  /** Keys listed once each, exactly the entries' keys, each entry stored
      under its own id. */
  ghost predicate Valid<T>(m: OrderedMap<T>)
  {
    && NoDups(m.keys)
    && (forall k :: k in m.keys <==> k in m.values)
    && (forall k :: k in m.values ==> m.values[k].id == k)
  }

  function EmptyMap<T>(): OrderedMap<T>
  {
    OrderedMap([], map[])
  }

  /** `merged.set(d.id, d)`: a new key goes to the end, an existing key keeps
      its place and gets the new value. */
  function Put<T>(m: OrderedMap<T>, d: Doc<T>): OrderedMap<T>
  {
    OrderedMap(if d.id in m.values then m.keys else m.keys + [d.id], m.values[d.id := d])
  }

  /** `docs.forEach(d => merged.set(d.id, d))` */
  function PutAll<T>(m: OrderedMap<T>, docs: seq<Doc<T>>): OrderedMap<T>
  {
    if docs == [] then m else Put(PutAll(m, docs[..|docs| - 1]), docs[|docs| - 1])
  }

  /** `Array.from(merged.values())` */
  function Values<T>(m: OrderedMap<T>): (r: seq<Doc<T>>)
    requires forall k :: k in m.keys ==> k in m.values
    ensures |r| == |m.keys|
    ensures forall i :: 0 <= i < |r| ==> r[i] == m.values[m.keys[i]]
  {
    seq(|m.keys|, i requires 0 <= i < |m.keys| => m.values[m.keys[i]])
  }

  /** The merged list. */
  function Merge<T>(local: seq<Doc<T>>, cloud: seq<Doc<T>>): seq<Doc<T>>
  {
    var m := PutAll(PutAll(EmptyMap(), local), cloud);
    PutAllValid(EmptyMap(), local);
    PutAllValid(PutAll(EmptyMap(), local), cloud);
    Values(m)
  }

  method MergeArraysById<T>(local: seq<Doc<T>>, cloud: seq<Doc<T>>) returns (merged: seq<Doc<T>>)
    ensures merged == Merge(local, cloud)
  {
    var keys: seq<string> := [];
    var values: map<string, Doc<T>> := map[];
    for i := 0 to |local|
      invariant OrderedMap(keys, values) == PutAll(EmptyMap(), local[..i])
    {
      assert local[..i + 1][..i] == local[..i];
      if local[i].id !in values {
        keys := keys + [local[i].id];
      }
      values := values[local[i].id := local[i]];
    }
    assert local[..|local|] == local;
    for i := 0 to |cloud|
      invariant OrderedMap(keys, values) == PutAll(PutAll(EmptyMap(), local), cloud[..i])
    {
      assert cloud[..i + 1][..i] == cloud[..i];
      if cloud[i].id !in values {
        keys := keys + [cloud[i].id];
      }
      values := values[cloud[i].id := cloud[i]];
    }
    assert cloud[..|cloud|] == cloud;
    PutAllValid(EmptyMap(), local);
    PutAllValid(PutAll(EmptyMap(), local), cloud);
    merged := [];
    for i := 0 to |keys|
      invariant merged == Values(OrderedMap(keys, values))[..i]
    {
      merged := merged + [values[keys[i]]];
    }
  }

  // ---------------------------------------------------------------------
  // Reference definitions.

  /** The last document with the given id. */
  function LastWith<T>(docs: seq<Doc<T>>, id: string): (r: Option<Doc<T>>)
    ensures r.None? <==> id !in Ids(docs)
    ensures r.Some? ==> r.value in docs && r.value.id == id
  {
    if docs == [] then None
    else if docs[|docs| - 1].id == id then Some(docs[|docs| - 1])
    else
      var r := LastWith(docs[..|docs| - 1], id);
      assert Ids(docs) == Ids(docs[..|docs| - 1]) + [docs[|docs| - 1].id];
      r
  }

  /** `LastWith` picks the document after which no other has that id. */
  lemma {:induction false} LastWithIsLast<T>(docs: seq<Doc<T>>, i: nat)
    requires i < |docs|
    requires forall j :: i < j < |docs| ==> docs[j].id != docs[i].id
    ensures LastWith(docs, docs[i].id) == Some(docs[i])
  {
    if i < |docs| - 1 {
      LastWithIsLast(docs[..|docs| - 1], i);
    }
  }

  /** `ks` followed by each element of `ys` not seen before, in order. */
  function AppendNew(ks: seq<string>, ys: seq<string>): seq<string>
  {
    if ys == [] then ks
    else
      var r := AppendNew(ks, ys[..|ys| - 1]);
      if ys[|ys| - 1] in r then r else r + [ys[|ys| - 1]]
  }

  /** First occurrences, in order. */
  function Dedup(xs: seq<string>): seq<string>
  {
    AppendNew([], xs)
  }

  /** The elements of `ys` that are not in `ks`, in order. */
  function Remove(ys: seq<string>, ks: seq<string>): (r: seq<string>)
    ensures forall y :: y in r <==> y in ys && y !in ks
  {
    if ys == [] then []
    else
      var rest := Remove(ys[..|ys| - 1], ks);
      assert forall y :: y in ys <==> y in ys[..|ys| - 1] || y == ys[|ys| - 1];
      if ys[|ys| - 1] in ks then rest else rest + [ys[|ys| - 1]]
  }

  lemma {:induction false} AppendNewMembers(ks: seq<string>, ys: seq<string>)
    ensures forall x :: x in AppendNew(ks, ys) <==> x in ks || x in ys
  {
    if ys != [] {
      AppendNewMembers(ks, ys[..|ys| - 1]);
      assert forall y :: y in ys <==> y in ys[..|ys| - 1] || y == ys[|ys| - 1];
    }
  }

  lemma {:induction false} AppendNewNoDups(ks: seq<string>, ys: seq<string>)
    requires NoDups(ks)
    ensures NoDups(AppendNew(ks, ys))
  {
    if ys != [] {
      AppendNewNoDups(ks, ys[..|ys| - 1]);
      var r := AppendNew(ks, ys[..|ys| - 1]);
      var y := ys[|ys| - 1];
      if y !in r {
        forall i, j | 0 <= i < j < |r + [y]| ensures (r + [y])[i] != (r + [y])[j] {
          if j == |r| {
            assert r[i] in r;
          }
        }
      }
    }
  }

  /** Adding elements that are all present already changes nothing. */
  lemma {:induction false} AppendNewAbsorbs(ks: seq<string>, ys: seq<string>)
    requires forall y :: y in ys ==> y in ks
    ensures AppendNew(ks, ys) == ks
  {
    if ys != [] {
      assert forall y :: y in ys[..|ys| - 1] ==> y in ys;
      AppendNewAbsorbs(ks, ys[..|ys| - 1]);
      assert ys[|ys| - 1] in ys;
    }
  }

  /** A duplicate-free list is its own first-occurrence list. */
  lemma {:induction false} DedupNoDups(xs: seq<string>)
    requires NoDups(xs)
    ensures Dedup(xs) == xs
  {
    if xs != [] {
      var init := xs[..|xs| - 1];
      assert NoDups(init) by {
        forall i, j | 0 <= i < j < |init| ensures init[i] != init[j] {
          assert init[i] == xs[i] && init[j] == xs[j];
        }
      }
      DedupNoDups(init);
      assert xs[|xs| - 1] !in init by {
        forall i | 0 <= i < |init| ensures init[i] != xs[|xs| - 1] {
          assert init[i] == xs[i];
        }
      }
      assert init + [xs[|xs| - 1]] == xs;
    }
  }

  /** `AppendNew` over a concatenation is `AppendNew` twice. */
  lemma {:induction false} AppendNewConcat(ks: seq<string>, xs: seq<string>, ys: seq<string>)
    ensures AppendNew(AppendNew(ks, xs), ys) == AppendNew(ks, xs + ys)
  {
    if ys == [] {
      assert xs + ys == xs;
    } else {
      AppendNewConcat(ks, xs, ys[..|ys| - 1]);
      assert (xs + ys)[..|xs + ys| - 1] == xs + ys[..|ys| - 1];
      assert (xs + ys)[|xs + ys| - 1] == ys[|ys| - 1];
    }
  }

  /** What `AppendNew` adds is the first occurrences of the new elements. */
  lemma {:induction false} AppendNewSplit(ks: seq<string>, ys: seq<string>)
    ensures AppendNew(ks, ys) == ks + Dedup(Remove(ys, ks))
  {
    if ys == [] {
      assert ks + [] == ks;
    } else {
      var init := ys[..|ys| - 1];
      var y := ys[|ys| - 1];
      AppendNewSplit(ks, init);
      AppendNewMembers([], Remove(init, ks));
      if y in ks {
        assert Remove(ys, ks) == Remove(init, ks);
      } else {
        assert Remove(ys, ks) == Remove(init, ks) + [y];
        assert (ks + Dedup(Remove(init, ks))) + [y] == ks + (Dedup(Remove(init, ks)) + [y]);
      }
    }
  }

  // ---------------------------------------------------------------------
  // What `PutAll` builds.

  lemma {:induction false} PutAllValid<T>(m: OrderedMap<T>, docs: seq<Doc<T>>)
    requires Valid(m)
    ensures Valid(PutAll(m, docs))
  {
    if docs != [] {
      PutAllValid(m, docs[..|docs| - 1]);
      var p := PutAll(m, docs[..|docs| - 1]);
      var d := docs[|docs| - 1];
      if d.id !in p.values {
        assert d.id !in p.keys;
        forall i, j | 0 <= i < j < |p.keys + [d.id]| ensures (p.keys + [d.id])[i] != (p.keys + [d.id])[j] {
          if j == |p.keys| {
            assert p.keys[i] in p.keys;
          }
        }
      }
    }
  }

  /** The keys are the old keys followed by the new ids in first-occurrence
      order. */
  lemma {:induction false} PutAllKeys<T>(m: OrderedMap<T>, docs: seq<Doc<T>>)
    requires forall k :: k in m.keys <==> k in m.values
    ensures PutAll(m, docs).keys == AppendNew(m.keys, Ids(docs))
    ensures forall k :: k in PutAll(m, docs).keys <==> k in PutAll(m, docs).values
  {
    if docs != [] {
      PutAllKeys(m, docs[..|docs| - 1]);
      assert Ids(docs)[..|docs| - 1] == Ids(docs[..|docs| - 1]);
    }
  }

  /** Each id maps to the last document with that id, or keeps its old entry
      when no document has it. */
  lemma {:induction false} PutAllValues<T>(m: OrderedMap<T>, docs: seq<Doc<T>>)
    ensures forall k :: k in PutAll(m, docs).values <==> k in m.values || k in Ids(docs)
    ensures forall k :: k in PutAll(m, docs).values ==>
      PutAll(m, docs).values[k] == (if LastWith(docs, k).Some? then LastWith(docs, k).value else m.values[k])
  {
    if docs != [] {
      var init := docs[..|docs| - 1];
      PutAllValues(m, init);
      assert Ids(docs) == Ids(init) + [docs[|docs| - 1].id];
    }
  }

  /** The ids of a map's values are its keys. */
  lemma ValuesIds<T>(s: OrderedMap<T>)
    requires Valid(s)
    ensures Ids(Values(s)) == s.keys
  {
    var vs := Values(s);
    forall i | 0 <= i < |vs| ensures Ids(vs)[i] == s.keys[i] {
      assert vs[i] == s.values[s.keys[i]];
    }
  }

  /** Putting back the values of a map, in order, rebuilds its key order. */
  lemma RebuildKeys<T>(s: OrderedMap<T>)
    requires Valid(s)
    ensures PutAll(EmptyMap(), Values(s)).keys == s.keys
  {
    ValuesIds(s);
    PutAllKeys(EmptyMap(), Values(s));
    DedupNoDups(s.keys);
  }

  /** ... and its entries. */
  lemma RebuildValues<T>(s: OrderedMap<T>)
    requires Valid(s)
    ensures PutAll(EmptyMap(), Values(s)).values == s.values
  {
    var vs := Values(s);
    var r := PutAll(EmptyMap(), vs);
    ValuesIds(s);
    PutAllValues(EmptyMap(), vs);
    assert forall k :: k in r.values <==> k in s.values;
    forall k | k in r.values ensures r.values[k] == s.values[k] {
      var i :| 0 <= i < |s.keys| && s.keys[i] == k;
      forall j | i < j < |vs| ensures vs[j].id != vs[i].id {
        assert s.keys[j] != s.keys[i];
      }
      LastWithIsLast(vs, i);
    }
  }

  /** Putting back the values of a map, in order, rebuilds the map. */
  lemma PutAllRebuilds<T>(s: OrderedMap<T>)
    requires Valid(s)
    ensures PutAll(EmptyMap(), Values(s)) == s
  {
    RebuildKeys(s);
    RebuildValues(s);
  }

  // ---------------------------------------------------------------------
  // Properties of the merge.

  /** Each merged document sits at its own id's position in the map. */
  lemma MergeKeys<T>(local: seq<Doc<T>>, cloud: seq<Doc<T>>)
    ensures Ids(Merge(local, cloud)) == PutAll(PutAll(EmptyMap(), local), cloud).keys
  {
    var m1 := PutAll(EmptyMap(), local);
    var m2 := PutAll(m1, cloud);
    PutAllValid(EmptyMap(), local);
    PutAllValid(m1, cloud);
    var res := Merge(local, cloud);
    forall i | 0 <= i < |res| ensures Ids(res)[i] == m2.keys[i] {
      assert res[i] == m2.values[m2.keys[i]];
    }
  }

  /** The merged ids are the first occurrences of the local ids followed by
      the cloud ids; hence every id appears exactly once. */
  lemma MergeIdsDedup<T>(local: seq<Doc<T>>, cloud: seq<Doc<T>>)
    ensures Ids(Merge(local, cloud)) == Dedup(Ids(local) + Ids(cloud))
    ensures NoDups(Ids(Merge(local, cloud)))
    ensures forall x :: x in Ids(Merge(local, cloud)) <==> x in Ids(local) || x in Ids(cloud)
  {
    var m1 := PutAll(EmptyMap(), local);
    PutAllKeys(EmptyMap(), local);
    PutAllKeys(m1, cloud);
    MergeKeys(local, cloud);
    AppendNewConcat([], Ids(local), Ids(cloud));
    AppendNewNoDups([], Ids(local) + Ids(cloud));
    AppendNewMembers([], Ids(local) + Ids(cloud));
  }

  /** Ids first seen locally come first, in local first-occurrence order,
      then the cloud-only ids in cloud order. */
  lemma MergeOrder<T>(local: seq<Doc<T>>, cloud: seq<Doc<T>>)
    ensures Ids(Merge(local, cloud)) == Dedup(Ids(local)) + Dedup(Remove(Ids(cloud), Ids(local)))
  {
    var m1 := PutAll(EmptyMap(), local);
    PutAllKeys(EmptyMap(), local);
    PutAllKeys(m1, cloud);
    MergeKeys(local, cloud);
    AppendNewSplit(Dedup(Ids(local)), Ids(cloud));
    AppendNewMembers([], Ids(local));
    var r1 := Remove(Ids(cloud), Dedup(Ids(local)));
    var r2 := Remove(Ids(cloud), Ids(local));
    assert r1 == r2 by {
      RemoveSameMembers(Ids(cloud), Dedup(Ids(local)), Ids(local));
    }
  }

  lemma {:induction false} RemoveSameMembers(ys: seq<string>, a: seq<string>, b: seq<string>)
    requires forall x :: x in a <==> x in b
    ensures Remove(ys, a) == Remove(ys, b)
  {
    if ys != [] {
      RemoveSameMembers(ys[..|ys| - 1], a, b);
    }
  }

  /** A cloud document always wins; an id only in local gets the last local
      document with it. */
  lemma MergePrecedence<T>(local: seq<Doc<T>>, cloud: seq<Doc<T>>)
    ensures forall d :: d in Merge(local, cloud) ==>
      (LastWith(cloud, d.id).Some? ==> d == LastWith(cloud, d.id).value)
      && (LastWith(cloud, d.id).None? ==> LastWith(local, d.id) == Some(d))
  {
    var m1 := PutAll(EmptyMap(), local);
    var m2 := PutAll(m1, cloud);
    PutAllValid(EmptyMap(), local);
    PutAllValid(m1, cloud);
    PutAllValues(EmptyMap(), local);
    PutAllValues(m1, cloud);
    var res := Merge(local, cloud);
    forall d | d in res
      ensures (LastWith(cloud, d.id).Some? ==> d == LastWith(cloud, d.id).value)
        && (LastWith(cloud, d.id).None? ==> LastWith(local, d.id) == Some(d))
    {
      var i :| 0 <= i < |res| && res[i] == d;
      assert d == m2.values[m2.keys[i]];
    }
  }

  /** Putting the same documents a second time changes nothing. */
  lemma PutAllTwice<T>(x: OrderedMap<T>, docs: seq<Doc<T>>)
    requires Valid(x)
    ensures PutAll(PutAll(x, docs), docs) == PutAll(x, docs)
  {
    var s := PutAll(x, docs);
    var t := PutAll(s, docs);
    PutAllKeys(x, docs);
    PutAllKeys(s, docs);
    AppendNewMembers(x.keys, Ids(docs));
    AppendNewAbsorbs(s.keys, Ids(docs));
    PutAllValues(x, docs);
    PutAllValues(s, docs);
    assert t.values == s.values;
  }

  /** Merging the result with the same cloud list again changes nothing. */
  lemma MergeIdempotent<T>(local: seq<Doc<T>>, cloud: seq<Doc<T>>)
    ensures Merge(Merge(local, cloud), cloud) == Merge(local, cloud)
  {
    var m1 := PutAll(EmptyMap(), local);
    var s := PutAll(m1, cloud);
    PutAllValid(EmptyMap(), local);
    PutAllValid(m1, cloud);
    PutAllRebuilds(s);
    PutAllTwice(m1, cloud);
    assert Merge(local, cloud) == Values(s);
  }
}
