/** The decal collection: the ordered list of decal meshes the application
    keeps under the head model, and what merging it by material produces.
    A decal is its material's uuid and its patch of triangles; the engine's
    mesh and material objects are not modelled beyond that. */
module Collection {
  import opened Geometry

  /** A material's uuid, as the rendering engine generates it. */
  type Uuid = string

  /** One decal mesh: its material's uuid and the triangles of its geometry. */
  datatype Decal = Decal(materialId: Uuid, geometry: seq<Triangle>)

  /** No uuid appears twice. */
  ghost predicate Distinct(ids: seq<Uuid>)
  {
    forall i, j :: 0 <= i < j < |ids| ==> ids[i] != ids[j]
  }

  /** The decals' material uuids, in collection order. */
  function MaterialIds(ds: seq<Decal>): seq<Uuid>
  {
    seq(|ds|, i requires 0 <= i < |ds| => ds[i].materialId)
  }

  /** No uuid appears twice among the decals' materials. */
  ghost predicate DistinctMaterials(ds: seq<Decal>)
  {
    Distinct(MaterialIds(ds))
  }

  /** The uuids of the materials the decals use. */
  ghost function MaterialSet(ds: seq<Decal>): set<Uuid>
  {
    set d | d in ds :: d.materialId
  }

  /** Every triangle of every decal, in collection order. */
  function Triangles(ds: seq<Decal>): seq<Triangle>
  {
    if ds == [] then [] else Triangles(ds[..|ds| - 1]) + ds[|ds| - 1].geometry
  }

  /** The material uuids in order of first appearance: the order in which
      `mergeDecals` adds keys to its accumulator object, which is also the
      order its `for ... in` loop visits them (uuids are never integer-like
      keys, so they are visited in insertion order). */
  function Materials(ds: seq<Decal>): (ids: seq<Uuid>)
    ensures Distinct(ids)
    ensures forall id :: id in ids <==> id in MaterialSet(ds)
    ensures |ids| <= |ds|
  {
    if ds == [] then [] else
    var prev := Materials(ds[..|ds| - 1]);
    var id := ds[|ds| - 1].materialId;
    MaterialSetLast(ds);
    if id in prev then prev else prev + [id]
  }

  /** The geometry accumulated for material `id`: the geometries of the
      decals using it, concatenated in collection order. */
  function GroupGeometry(ds: seq<Decal>, id: Uuid): seq<Triangle>
  {
    if ds == [] then [] else
    var last := ds[|ds| - 1];
    GroupGeometry(ds[..|ds| - 1], id) + (if last.materialId == id then last.geometry else [])
  }

  /** What `mergeDecals` leaves in the collection: one decal per material,
      in order of first appearance, holding that material's geometries. */
  function Merge(ds: seq<Decal>): (r: seq<Decal>)
    ensures DistinctMaterials(r)
    ensures MaterialSet(r) == MaterialSet(ds)
    ensures forall i :: 0 <= i < |r| ==> r[i].geometry == GroupGeometry(ds, r[i].materialId)
    ensures ds == [] ==> r == []
  {
    var ids := Materials(ds);
    var r := seq(|ids|, i requires 0 <= i < |ids| => Decal(ids[i], GroupGeometry(ds, ids[i])));
    assert forall id :: id in MaterialSet(r) <==> id in ids by {
      forall id ensures id in MaterialSet(r) <==> id in ids {
        if id in ids {
          var k :| 0 <= k < |ids| && ids[k] == id;
          assert r[k] in r;
        }
      }
    }
    r
  }

  /** `headModel.remove(d)`: the first child equal to `d` leaves the list. */
  function Detach(children: seq<Decal>, d: Decal): (r: seq<Decal>)
    ensures d in children ==> |r| == |children| - 1 && multiset(r) == multiset(children) - multiset{d}
    ensures d !in children ==> r == children
  {
    if children == [] then []
    else if children[0] == d then
      assert children == [d] + children[1..];
      children[1..]
    else
      assert children == [children[0]] + children[1..];
      [children[0]] + Detach(children[1..], d)
  }

  /** The splice removes exactly the first occurrence: the children before
      it and after it keep their order. */
  lemma DetachFirst(children: seq<Decal>, k: nat)
    requires k < |children| && children[k] !in children[..k]
    ensures Detach(children, children[k]) == children[..k] + children[k + 1..]
  {
    var before, from := children[..k], children[k..];
    assert before + from == children;
    assert from[1..] == children[k + 1..];
    DetachAfter(before, from, children[k]);
  }

  /** Children before the first occurrence of `d` are kept, in order. */
  lemma {:induction false} DetachAfter(before: seq<Decal>, after: seq<Decal>, d: Decal)
    requires d !in before
    ensures Detach(before + after, d) == before + Detach(after, d)
  {
    if before != [] {
      var all := before + after;
      assert all[0] == before[0] != d;
      assert all[1..] == before[1..] + after;
      DetachAfter(before[1..], after, d);
      assert before == [before[0]] + before[1..];
    } else {
      assert before + after == after;
    }
  }

  // ---------------------------------------------------------------------
  // Helper facts about prefixes

  /** Distinct materials, decal by decal. */
  lemma DistinctPairwise(ds: seq<Decal>)
    ensures DistinctMaterials(ds) <==> forall i, j :: 0 <= i < j < |ds| ==> ds[i].materialId != ds[j].materialId
  {
    assert forall i :: 0 <= i < |ds| ==> MaterialIds(ds)[i] == ds[i].materialId;
  }

  lemma MaterialSetLast(ds: seq<Decal>)
    requires ds != []
    ensures MaterialSet(ds) == MaterialSet(ds[..|ds| - 1]) + {ds[|ds| - 1].materialId}
  {
  }

  /** How each material's group grows by one more decal. */
  lemma GroupsGrow(pre: seq<Decal>, d: Decal)
    ensures forall id :: GroupGeometry(pre + [d], id) == GroupGeometry(pre, id) + (if d.materialId == id then d.geometry else [])
  {
  }

  /** The accumulator the `forEach` pass of `mergeDecals` has built after
      visiting the decals `visited`: per material uuid, the geometry grown by
      each of that material's decals in turn (an entry starts empty). */
  function Accumulator(visited: seq<Decal>): map<Uuid, seq<Triangle>>
  {
    if visited == [] then map[] else
    var merge, d := Accumulator(visited[..|visited| - 1]), visited[|visited| - 1];
    merge[d.materialId := (if d.materialId in merge then merge[d.materialId] else []) + d.geometry]
  }

  /** One more decal grows the accumulator and its key list as one
      iteration of the `forEach` does: a new uuid is appended to the keys. */
  lemma AccumulatorStep(visited: seq<Decal>, d: Decal)
    ensures var merge := Accumulator(visited);
      Accumulator(visited + [d]) == merge[d.materialId := (if d.materialId in merge then merge[d.materialId] else []) + d.geometry]
    ensures Materials(visited + [d]) == if d.materialId in Accumulator(visited) then Materials(visited) else Materials(visited) + [d.materialId]
  {
  }

  /** The accumulator has an entry for exactly the materials in use. */
  lemma {:induction false} AccumulatorKeys(ds: seq<Decal>)
    ensures Accumulator(ds).Keys == MaterialSet(ds)
  {
    if ds != [] {
      AccumulatorKeys(ds[..|ds| - 1]);
      MaterialSetLast(ds);
    }
  }

  /** Each entry is its material's geometries concatenated in collection order. */
  lemma {:induction false} AccumulatorGroups(ds: seq<Decal>)
    ensures forall id :: id in Accumulator(ds) ==> Accumulator(ds)[id] == GroupGeometry(ds, id)
  {
    if ds != [] {
      var pre, d := ds[..|ds| - 1], ds[|ds| - 1];
      AccumulatorKeys(pre);
      AccumulatorGroups(pre);
      var merge := Accumulator(pre);
      assert ds == pre + [d];
      GroupsStep(pre, d, merge, if d.materialId in merge then merge[d.materialId] else []);
    }
  }

  /** The finished accumulator, read in key order, is the merged collection. */
  lemma MergeOfAccumulator(ds: seq<Decal>)
    ensures |Materials(ds)| == |Merge(ds)|
    ensures var keys, merge := Materials(ds), Accumulator(ds);
      forall j :: 0 <= j < |keys| ==> keys[j] in merge && Merge(ds)[j] == Decal(keys[j], merge[keys[j]])
  {
    AccumulatorKeys(ds);
    AccumulatorGroups(ds);
    var keys := Materials(ds);
    forall j | 0 <= j < |keys| ensures keys[j] in Accumulator(ds) {
      assert keys[j] in keys;
    }
  }

  /** After one more decal, every accumulated geometry is still its
      material's geometries concatenated in order. */
  lemma GroupsStep(visited: seq<Decal>, d: Decal, merge: map<Uuid, seq<Triangle>>, acc: seq<Triangle>)
    requires merge.Keys == MaterialSet(visited)
    requires forall id :: id in merge ==> merge[id] == GroupGeometry(visited, id)
    requires acc == if d.materialId in merge then merge[d.materialId] else []
    ensures var grown := merge[d.materialId := acc + d.geometry];
      forall id :: id in grown ==> grown[id] == GroupGeometry(visited + [d], id)
  {
    GroupsGrow(visited, d);
    if d.materialId !in merge {
      GroupGeometryAbsent(visited, d.materialId);
    }
  }

  lemma {:induction false} GroupGeometryAbsent(ds: seq<Decal>, id: Uuid)
    requires id !in MaterialSet(ds)
    ensures GroupGeometry(ds, id) == []
  {
    if ds != [] {
      MaterialSetLast(ds);
      GroupGeometryAbsent(ds[..|ds| - 1], id);
    }
  }

  /** Without shared materials, each material's group is its single decal. */
  lemma {:induction false} GroupGeometrySingle(ds: seq<Decal>, k: nat)
    requires DistinctMaterials(ds) && k < |ds|
    ensures GroupGeometry(ds, ds[k].materialId) == ds[k].geometry
  {
    var n := |ds| - 1;
    var prefix := ds[..n];
    DistinctPairwise(ds);
    DistinctPairwise(prefix);
    if k == n {
      assert ds[k] !in prefix;
      assert ds[k].materialId !in MaterialSet(prefix);
      GroupGeometryAbsent(prefix, ds[k].materialId);
    } else {
      assert prefix[k] == ds[k];
      GroupGeometrySingle(prefix, k);
    }
  }

  lemma {:induction false} MaterialsOfDistinct(ds: seq<Decal>)
    requires DistinctMaterials(ds)
    ensures |Materials(ds)| == |ds|
    ensures forall i :: 0 <= i < |ds| ==> Materials(ds)[i] == ds[i].materialId
  {
    if ds != [] {
      var n := |ds| - 1;
      var prefix := ds[..n];
      DistinctPairwise(ds);
      DistinctPairwise(prefix);
      MaterialsOfDistinct(prefix);
      assert ds[n].materialId !in MaterialSet(prefix);
    }
  }

  lemma {:induction false} DistinctCard(ids: seq<Uuid>)
    requires Distinct(ids)
    ensures |set id | id in ids| == |ids|
  {
    if ids != [] {
      var n := |ids| - 1;
      DistinctCard(ids[..n]);
      assert (set id | id in ids) == (set id | id in ids[..n]) + {ids[n]} by {
        assert ids == ids[..n] + [ids[n]];
      }
    }
  }

  lemma {:induction false} TrianglesAppend(a: seq<Decal>, b: seq<Decal>)
    ensures Triangles(a + b) == Triangles(a) + Triangles(b)
  {
    if b == [] {
      assert a + b == a;
    } else {
      var ab, front, last := a + b, b[..|b| - 1], b[|b| - 1];
      assert ab[..|ab| - 1] == a + front;
      assert ab[|ab| - 1] == last;
      TrianglesAppend(a, front);
      calc {
        Triangles(ab);
        Triangles(a + front) + last.geometry;
        (Triangles(a) + Triangles(front)) + last.geometry;
        Triangles(a) + (Triangles(front) + last.geometry);
        Triangles(a) + Triangles(b);
      }
    }
  }

  /** Growing one decal's geometry grows the flattened triangles by exactly that much. */
  lemma TrianglesGrow(s: seq<Decal>, k: nat, extra: seq<Triangle>)
    requires k < |s|
    ensures multiset(Triangles(s[k := Decal(s[k].materialId, s[k].geometry + extra)]))
         == multiset(Triangles(s)) + multiset(extra)
  {
    var grown := Decal(s[k].materialId, s[k].geometry + extra);
    assert s == s[..k] + [s[k]] + s[k + 1..];
    assert s[k := grown] == s[..k] + [grown] + s[k + 1..];
    TrianglesAppend(s[..k] + [s[k]], s[k + 1..]);
    TrianglesAppend(s[..k] + [grown], s[k + 1..]);
    assert Triangles(s[..k] + [s[k]]) == Triangles(s[..k]) + s[k].geometry;
    assert Triangles(s[..k] + [grown]) == Triangles(s[..k]) + s[k].geometry + extra;
  }

  // ---------------------------------------------------------------------
  // Properties of merging

  /** Merging yields exactly one decal per distinct material of the input. */
  lemma MergeCount(ds: seq<Decal>)
    ensures |Merge(ds)| == |MaterialSet(ds)|
  {
    var ids := Materials(ds);
    DistinctCard(ids);
    assert (set id | id in ids) == MaterialSet(ds);
  }

  /** One more decal either extends its material's merged geometry or adds a
      new merged decal at the end. */
  lemma MergeLast(ds: seq<Decal>)
    requires ds != []
    ensures var prev, d := Merge(ds[..|ds| - 1]), ds[|ds| - 1];
      if d.materialId in MaterialSet(ds[..|ds| - 1]) then
        exists k :: 0 <= k < |prev| && prev[k].materialId == d.materialId &&
          Merge(ds) == prev[k := Decal(d.materialId, prev[k].geometry + d.geometry)]
      else
        Merge(ds) == prev + [d]
  {
    var n := |ds| - 1;
    var prefix, d := ds[..n], ds[n];
    var prev, cur := Merge(prefix), Merge(ds);
    var ids := Materials(prefix);
    assert |prev| == |ids|;
    if d.materialId in MaterialSet(prefix) {
      var k :| 0 <= k < |ids| && ids[k] == d.materialId;
      var grown := prev[k := Decal(d.materialId, prev[k].geometry + d.geometry)];
      assert |cur| == |grown|;
      forall i | 0 <= i < |cur| ensures cur[i] == grown[i] {
        if i != k {
          assert ids[i] != d.materialId;
        }
      }
      assert cur == grown;
    } else {
      GroupGeometryAbsent(prefix, d.materialId);
      assert |cur| == |prev| + 1;
      forall i | 0 <= i < |cur| ensures cur[i] == (prev + [d])[i] {
      }
      assert cur == prev + [d];
    }
  }

  /** Nothing is lost or invented: the merged decals hold exactly the input's
      triangles, so the total triangle count is unchanged. */
  lemma {:induction false} MergeKeepsTriangles(ds: seq<Decal>)
    ensures multiset(Triangles(Merge(ds))) == multiset(Triangles(ds))
    ensures |Triangles(Merge(ds))| == |Triangles(ds)|
  {
    if ds != [] {
      var n := |ds| - 1;
      var prefix, d := ds[..n], ds[n];
      var prev := Merge(prefix);
      MergeKeepsTriangles(prefix);
      MergeLast(ds);
      if d.materialId in MaterialSet(prefix) {
        var k :| 0 <= k < |prev| && prev[k].materialId == d.materialId &&
          Merge(ds) == prev[k := Decal(d.materialId, prev[k].geometry + d.geometry)];
        TrianglesGrow(prev, k, d.geometry);
      } else {
        assert (prev + [d])[..|prev|] == prev;
      }
    }
    assert |multiset(Triangles(Merge(ds)))| == |Triangles(Merge(ds))|;
  }

  /** A collection whose decals all use different materials is left as it is. */
  lemma MergeOfDistinct(ds: seq<Decal>)
    requires DistinctMaterials(ds)
    ensures Merge(ds) == ds
  {
    MaterialsOfDistinct(ds);
    var r := Merge(ds);
    forall i | 0 <= i < |ds| ensures r[i] == ds[i] {
      GroupGeometrySingle(ds, i);
    }
  }

  /** Merging a merged collection changes nothing. */
  lemma MergeIdempotent(ds: seq<Decal>)
    ensures Merge(Merge(ds)) == Merge(ds)
  {
    MergeOfDistinct(Merge(ds));
  }

  /** A decal added with a material no other decal uses keeps the materials
      distinct; since every placement clones its material, a collection built
      only by placements is one that merging leaves unchanged. */
  lemma AppendFreshMaterial(ds: seq<Decal>, d: Decal)
    requires DistinctMaterials(ds)
    requires d.materialId !in MaterialSet(ds)
    ensures DistinctMaterials(ds + [d])
    ensures Merge(ds + [d]) == ds + [d]
  {
    var s := ds + [d];
    DistinctPairwise(ds);
    forall i, j | 0 <= i < j < |s| ensures s[i].materialId != s[j].materialId {
      if j == |ds| {
        assert s[i] in ds;
      }
    }
    DistinctPairwise(s);
    MergeOfDistinct(s);
  }
}
