/**
 * The mesh builder of src/utils/goldbergPolygedron.js (`createGoldbergPolyhedron`).
 *
 * Each face of a fixed icosahedron is split recursively into four, `detail`
 * levels deep; the corners of the final triangles are stored once each,
 * deduplicated through a map from a rounded-coordinate key to a vertex index;
 * then every vertex is pushed outwards or inwards according to a noise value.
 *
 * Coordinates are exact reals.  The floating-point steps the builder cannot do
 * without are parameters: the golden ratio `t` (a square root), `normalize`
 * (projection onto the unit sphere), `key` (the `toFixed(5)` string of a
 * vertex) and `noise` (the noise value at a vertex).  The face table is the
 * source's own.
 */
module Goldberg {

  datatype Vec3 = Vec3(x: real, y: real, z: real)

  /** `add`. */
  function Add(a: Vec3, b: Vec3): Vec3 {
    Vec3(a.x + b.x, a.y + b.y, a.z + b.z)
  }

  /** `multiplyScalar`. */
  function Scale(v: Vec3, k: real): Vec3 {
    Vec3(v.x * k, v.y * k, v.z * k)
  }

  /** The normalised midpoint of an edge: `a.clone().add(b).multiplyScalar(0.5).normalize()`. */
  function Midpoint(normalize: Vec3 -> Vec3, a: Vec3, b: Vec3): Vec3 {
    normalize(Scale(Add(a, b), 0.5))
  }

  // ---------------------------------------------------------------------
  // The base icosahedron
  // ---------------------------------------------------------------------

  const BaseVertexCount: nat := 12

  /** The twelve corners (±1, ±t, 0) and their rotations, each normalised. */
  function BaseVertices(t: real, normalize: Vec3 -> Vec3): (vs: seq<Vec3>)
    ensures |vs| == BaseVertexCount
  {
    [ normalize(Vec3(-1.0, t, 0.0)), normalize(Vec3(1.0, t, 0.0)),
      normalize(Vec3(-1.0, -t, 0.0)), normalize(Vec3(1.0, -t, 0.0)),
      normalize(Vec3(0.0, -1.0, t)), normalize(Vec3(0.0, 1.0, t)),
      normalize(Vec3(0.0, -1.0, -t)), normalize(Vec3(0.0, 1.0, -t)),
      normalize(Vec3(t, 0.0, -1.0)), normalize(Vec3(t, 0.0, 1.0)),
      normalize(Vec3(-t, 0.0, -1.0)), normalize(Vec3(-t, 0.0, 1.0)) ]
  }

  type Face = (nat, nat, nat)

  /** The 20 faces of the base icosahedron, as indices into its 12 vertices. */
  const BaseFaces: seq<Face> := [
    (0, 11, 5), (0, 5, 1), (0, 1, 7), (0, 7, 10), (0, 10, 11),
    (1, 5, 9), (5, 11, 4), (11, 10, 2), (10, 7, 6), (7, 1, 8),
    (3, 9, 4), (3, 4, 2), (3, 2, 6), (3, 6, 8), (3, 8, 9),
    (4, 9, 5), (2, 4, 11), (6, 2, 10), (8, 6, 7), (9, 8, 1)
  ]

  /** A face whose three corners are distinct vertices of the base table. */
  predicate FaceOk(f: Face) {
    && f.0 < BaseVertexCount && f.1 < BaseVertexCount && f.2 < BaseVertexCount
    && f.0 != f.1 && f.1 != f.2 && f.2 != f.0
  }

  predicate OnFace(f: Face, v: nat) {
    f.0 == v || f.1 == v || f.2 == v
  }

  /** The numbers of the faces that have `v` as a corner. */
  ghost function FacesOf(v: nat): set<nat> {
    set k | 0 <= k < |BaseFaces| && OnFace(BaseFaces[k], v)
  }

  /** Twenty faces, each with three distinct corners among the twelve vertices. */
  lemma BaseFacesValid()
    ensures |BaseFaces| == 20
    ensures forall k :: 0 <= k < |BaseFaces| ==> FaceOk(BaseFaces[k])
  {
  }

  /**
   * For each vertex, the five faces around it in increasing order: a
   * certificate from which the degree of every vertex follows.
   */
  const Around: seq<seq<nat>> := [
    [0, 1, 2, 3, 4], [1, 2, 5, 9, 19], [7, 11, 12, 16, 17], [10, 11, 12, 13, 14],
    [6, 10, 11, 15, 16], [0, 1, 5, 6, 15], [8, 12, 13, 17, 18], [2, 3, 8, 9, 18],
    [9, 13, 14, 18, 19], [5, 10, 14, 15, 19], [3, 4, 7, 8, 17], [0, 4, 6, 7, 16]
  ]

  predicate Increasing(s: seq<nat>) {
    forall i, j :: 0 <= i < j < |s| ==> s[i] < s[j]
  }

  lemma AroundShape()
    ensures |Around| == BaseVertexCount
    ensures forall v :: 0 <= v < BaseVertexCount ==> |Around[v]| == 5 && Increasing(Around[v])
  {
  }

  /** Every face listed around `v` has `v` as a corner. */
  lemma AroundSound()
    ensures |Around| == BaseVertexCount
    ensures forall v, j :: 0 <= v < BaseVertexCount && 0 <= j < 5 ==>
      j < |Around[v]| && Around[v][j] < |BaseFaces| && OnFace(BaseFaces[Around[v][j]], v)
  {
  }

  predicate Listed(f: Face, k: nat)
    requires |Around| == BaseVertexCount
  {
    && f.0 < BaseVertexCount && f.1 < BaseVertexCount && f.2 < BaseVertexCount
    && k in Around[f.0] && k in Around[f.1] && k in Around[f.2]
  }

  /** Every face is listed around each of its corners. */
  lemma AroundComplete()
    ensures |Around| == BaseVertexCount
    ensures forall k :: 0 <= k < |BaseFaces| ==> Listed(BaseFaces[k], k)
  {
  }

  /** The distinct entries of a sequence. */
  function Elements(s: seq<nat>): set<nat> {
    set x | x in s
  }

  /** A strictly increasing sequence has as many distinct elements as entries. */
  lemma {:induction false} IncreasingCard(s: seq<nat>)
    requires Increasing(s)
    ensures |Elements(s)| == |s|
  {
    if s != [] {
      var rest := s[1..];
      IncreasingCard(rest);
      var tail := Elements(rest);
      assert Elements(s) == {s[0]} + tail by {
        forall x | x in s ensures x == s[0] || x in rest {
          var i :| 0 <= i < |s| && s[i] == x;
          if i > 0 { assert rest[i - 1] == x; }
        }
      }
      assert s[0] !in rest by {
        forall i | 0 <= i < |rest| ensures rest[i] != s[0] {
          assert rest[i] == s[i + 1];
        }
      }
      assert |{s[0]} + tail| == |tail| + 1;
    }
  }

  /** Each of the twelve base vertices is a corner of exactly five faces. */
  lemma FiveFacesAround(v: nat)
    requires v < BaseVertexCount
    ensures |FacesOf(v)| == 5
  {
    AroundShape();
    AroundSound();
    AroundComplete();
    var listed := Elements(Around[v]);
    assert FacesOf(v) == listed by {
      forall k | k in FacesOf(v) ensures k in listed {
        assert Listed(BaseFaces[k], k);
      }
      forall k | k in listed ensures k in FacesOf(v) {
        var j :| 0 <= j < |Around[v]| && Around[v][j] == k;
      }
    }
    IncreasingCard(Around[v]);
  }

  // ---------------------------------------------------------------------
  // Subdivision
  // ---------------------------------------------------------------------

  /** The recursion depth actually used: a `detail` of 0 or less emits the face itself. */
  function Depth(detail: int): nat {
    if detail <= 0 then 0 else detail
  }

  function Pow4(n: nat): (p: nat)
    ensures p >= 1
  {
    if n == 0 then 1 else 4 * Pow4(n - 1)
  }

  /**
   * The corners, three per emitted triangle and in emission order, of the
   * triangles that `subdivideTriangle(v1, v2, v3, depth)` produces.
   */
  function Leaves(mid: (Vec3, Vec3) -> Vec3, v1: Vec3, v2: Vec3, v3: Vec3, depth: int): seq<Vec3>
    decreases Depth(depth)
  {
    if depth <= 0 then [v1, v2, v3]
    else
      var v12 := mid(v1, v2);
      var v23 := mid(v2, v3);
      var v31 := mid(v3, v1);
      Leaves(mid, v1, v12, v31, depth - 1) + Leaves(mid, v2, v23, v12, depth - 1)
      + Leaves(mid, v3, v31, v23, depth - 1) + Leaves(mid, v12, v23, v31, depth - 1)
  }

  /** One triangle at depth 0 or less, 4^depth triangles otherwise. */
  lemma {:induction false} LeavesCount(mid: (Vec3, Vec3) -> Vec3, v1: Vec3, v2: Vec3, v3: Vec3, depth: int)
    ensures |Leaves(mid, v1, v2, v3, depth)| == 3 * Pow4(Depth(depth))
    decreases Depth(depth)
  {
    if depth > 0 {
      assert Pow4(Depth(depth)) == 4 * Pow4(Depth(depth - 1));
      LeavesCount(mid, v1, mid(v1, v2), mid(v3, v1), depth - 1);
      LeavesCount(mid, v2, mid(v2, v3), mid(v1, v2), depth - 1);
      LeavesCount(mid, v3, mid(v3, v1), mid(v2, v3), depth - 1);
      LeavesCount(mid, mid(v1, v2), mid(v2, v3), mid(v3, v1), depth - 1);
    }
  }

  /** A split triangle's corners are those of its four parts, in the order they are emitted. */
  lemma LeavesSplit(mid: (Vec3, Vec3) -> Vec3, v1: Vec3, v2: Vec3, v3: Vec3, depth: int)
    requires depth > 0
    ensures
      Leaves(mid, v1, v2, v3, depth)
      == Leaves(mid, v1, mid(v1, v2), mid(v3, v1), depth - 1) + Leaves(mid, v2, mid(v2, v3), mid(v1, v2), depth - 1)
       + Leaves(mid, v3, mid(v3, v1), mid(v2, v3), depth - 1) + Leaves(mid, mid(v1, v2), mid(v2, v3), mid(v3, v1), depth - 1)
  {
  }

  lemma Append3<T>(c: seq<T>, a: seq<T>, b: seq<T>)
    ensures c + a + b == c + (a + b)
  {
  }

  predicate IndicesBelow(indices: seq<nat>, n: nat) {
    forall j :: 0 <= j < |indices| ==> indices[j] < n
  }

  /**
   * Index `j` names a vertex with the key of `corners[j]`: the emitted
   * triangles are the requested ones up to vertices merged by key.
   */
  ghost predicate ResolvesTo(key: Vec3 -> string, positions: seq<Vec3>, indices: seq<nat>, corners: seq<Vec3>) {
    && |indices| == |corners|
    && IndicesBelow(indices, |positions|)
    && forall j :: 0 <= j < |indices| ==> key(positions[indices[j]]) == key(corners[j])
  }

  // ---------------------------------------------------------------------
  // The key -> index map
  // ---------------------------------------------------------------------

  /** The map that sends the key of each vertex of `ps` to the vertex's position in `ps`. */
  function KeyIndex(key: Vec3 -> string, ps: seq<Vec3>): map<string, nat> {
    if ps == [] then map[]
    else KeyIndex(key, ps[..|ps| - 1])[key(ps[|ps| - 1]) := |ps| - 1]
  }

  /** Each vertex of `ps` was added under a key that no earlier vertex had. */
  ghost predicate DistinctKeys(key: Vec3 -> string, ps: seq<Vec3>) {
    ps == [] || (DistinctKeys(key, ps[..|ps| - 1]) && key(ps[|ps| - 1]) !in KeyIndex(key, ps[..|ps| - 1]))
  }

  /** Every key of the map names a vertex of `ps` with that key. */
  lemma {:induction false} KeyIndexSound(key: Vec3 -> string, ps: seq<Vec3>)
    ensures forall k :: k in KeyIndex(key, ps) ==>
      KeyIndex(key, ps)[k] < |ps| && key(ps[KeyIndex(key, ps)[k]]) == k
  {
    if ps != [] {
      var init := ps[..|ps| - 1];
      KeyIndexSound(key, init);
      forall k | k in KeyIndex(key, ps)
        ensures KeyIndex(key, ps)[k] < |ps| && key(ps[KeyIndex(key, ps)[k]]) == k
      {
        if k != key(ps[|ps| - 1]) {
          assert ps[KeyIndex(key, init)[k]] == init[KeyIndex(key, init)[k]];
        }
      }
    }
  }

  /** With distinct keys, the map sends the key of vertex `i` back to `i`. */
  lemma {:induction false} KeyIndexComplete(key: Vec3 -> string, ps: seq<Vec3>)
    requires DistinctKeys(key, ps)
    ensures forall i :: 0 <= i < |ps| ==>
      key(ps[i]) in KeyIndex(key, ps) && KeyIndex(key, ps)[key(ps[i])] == i
  {
    if ps != [] {
      var init := ps[..|ps| - 1];
      KeyIndexComplete(key, init);
      forall i | 0 <= i < |ps|
        ensures key(ps[i]) in KeyIndex(key, ps) && KeyIndex(key, ps)[key(ps[i])] == i
      {
        if i < |ps| - 1 {
          assert ps[i] == init[i];
        }
      }
    }
  }

  /** No two vertices with distinct keys share a key. */
  lemma DistinctKeysPairwise(key: Vec3 -> string, ps: seq<Vec3>)
    requires DistinctKeys(key, ps)
    ensures forall i, j :: 0 <= i < j < |ps| ==> key(ps[i]) != key(ps[j])
  {
    KeyIndexComplete(key, ps);
  }

  lemma KeyIndexSoundAt(key: Vec3 -> string, ps: seq<Vec3>, k: string)
    requires k in KeyIndex(key, ps)
    ensures KeyIndex(key, ps)[k] < |ps| && key(ps[KeyIndex(key, ps)[k]]) == k
  {
    KeyIndexSound(key, ps);
  }

  /** With distinct keys, the map has exactly one key per vertex. */
  lemma {:induction false} KeyIndexSize(key: Vec3 -> string, ps: seq<Vec3>)
    requires DistinctKeys(key, ps)
    ensures |KeyIndex(key, ps)| == |ps|
  {
    if ps != [] {
      KeyIndexSize(key, ps[..|ps| - 1]);
    }
  }

  // ---------------------------------------------------------------------
  // Which vertices get stored
  // ---------------------------------------------------------------------

  /** The stored vertices after `addVertex(c)`: `c` is appended unless its key is already stored. */
  function Stored(key: Vec3 -> string, ps: seq<Vec3>, c: Vec3): (qs: seq<Vec3>)
    ensures ps <= qs && |qs| <= |ps| + 1
    ensures key(c) in KeyIndex(key, qs)
  {
    if key(c) in KeyIndex(key, ps) then ps else ps + [c]
  }

  /** The stored vertices after adding the corners `cs`, one by one, to the vertices `ps`. */
  function StoreAll(key: Vec3 -> string, ps: seq<Vec3>, cs: seq<Vec3>): seq<Vec3>
    decreases |cs|
  {
    if cs == [] then ps else StoreAll(key, Stored(key, ps, cs[0]), cs[1..])
  }

  /** The first corner under each key, in order: what an empty builder stores for the corners `cs`. */
  function FirstByKey(key: Vec3 -> string, cs: seq<Vec3>): seq<Vec3> {
    StoreAll(key, [], cs)
  }

  /** Adding two runs of corners stores what adding the first, then the second, stores. */
  lemma {:induction false} StoreAllAppend(key: Vec3 -> string, ps: seq<Vec3>, a: seq<Vec3>, b: seq<Vec3>)
    ensures StoreAll(key, ps, a + b) == StoreAll(key, StoreAll(key, ps, a), b)
    decreases |a|
  {
    if a == [] {
      assert a + b == b;
    } else {
      assert (a + b)[0] == a[0] && (a + b)[1..] == a[1..] + b;
      StoreAllAppend(key, Stored(key, ps, a[0]), a[1..], b);
    }
  }

  lemma StoreAllThree(key: Vec3 -> string, ps: seq<Vec3>, a: Vec3, b: Vec3, c: Vec3)
    ensures StoreAll(key, ps, [a, b, c]) == Stored(key, Stored(key, Stored(key, ps, a), b), c)
  {
    var p1 := Stored(key, ps, a);
    var p2 := Stored(key, p1, b);
    assert [a, b, c][1..] == [b, c] && [b, c][1..] == [c] && [c][1..] == [];
    assert StoreAll(key, ps, [a, b, c]) == StoreAll(key, p1, [b, c]);
    assert StoreAll(key, p1, [b, c]) == StoreAll(key, p2, [c]);
  }

  /**
   * Storing only ever appends, and only corners: the earlier vertices stay a
   * prefix, every stored vertex is an earlier one or a corner, at most one
   * per corner, and every corner's key ends up stored.
   */
  lemma {:induction false} StoreAllMembers(key: Vec3 -> string, ps: seq<Vec3>, cs: seq<Vec3>)
    ensures ps <= StoreAll(key, ps, cs)
    ensures |StoreAll(key, ps, cs)| <= |ps| + |cs|
    ensures forall v :: v in StoreAll(key, ps, cs) ==> v in ps || v in cs
    ensures forall c :: c in cs ==> key(c) in KeyIndex(key, StoreAll(key, ps, cs))
    decreases |cs|
  {
    if cs != [] {
      var qs := Stored(key, ps, cs[0]);
      StoreAllMembers(key, qs, cs[1..]);
      KeyIndexGrows(key, qs, StoreAll(key, qs, cs[1..]));
      forall v | v in StoreAll(key, ps, cs) ensures v in ps || v in cs {
        if v !in qs {
          assert v in cs[1..];
        }
      }
      forall c | c in cs ensures key(c) in KeyIndex(key, StoreAll(key, ps, cs)) {
        if c != cs[0] {
          assert c in cs[1..];
        }
      }
    }
  }

  /** Appending vertices keeps every key already in the map. */
  lemma {:induction false} KeyIndexGrows(key: Vec3 -> string, ps: seq<Vec3>, qs: seq<Vec3>)
    requires ps <= qs
    ensures forall k :: k in KeyIndex(key, ps) ==> k in KeyIndex(key, qs)
    decreases |qs|
  {
    if |qs| > |ps| {
      var init := qs[..|qs| - 1];
      assert ps <= init;
      KeyIndexGrows(key, ps, init);
    } else {
      assert ps == qs;
    }
  }

  // ---------------------------------------------------------------------
  // The builder state: finalPositions, finalIndices, vertexMap, indexCounter
  // ---------------------------------------------------------------------

  class MeshBuilder {
    const key: Vec3 -> string
    const mid: (Vec3, Vec3) -> Vec3
    var finalPositions: seq<Vec3>
    var finalIndices: seq<nat>
    var vertexMap: map<string, nat>
    var indexCounter: nat
    /** The corners handed to `addVertex` for the emitted triangles, in order. */
    ghost var corners: seq<Vec3>

    /**
     * The counter is the number of stored vertices; stored vertices have
     * distinct keys and the map sends each one's key to its position; every
     * emitted index names a stored vertex with the key of the corner it was
     * emitted for.
     */
    ghost predicate Valid()
      reads this
    {
      && indexCounter == |finalPositions|
      && DistinctKeys(key, finalPositions)
      && vertexMap == KeyIndex(key, finalPositions)
      && ResolvesTo(key, finalPositions, finalIndices, corners)
    }

    constructor (key: Vec3 -> string, mid: (Vec3, Vec3) -> Vec3)
      ensures Valid()
      ensures this.key == key && this.mid == mid
      ensures finalPositions == [] && finalIndices == [] && vertexMap == map[] && indexCounter == 0
      ensures corners == []
    {
      this.key := key;
      this.mid := mid;
      finalPositions := [];
      finalIndices := [];
      vertexMap := map[];
      indexCounter := 0;
      corners := [];
    }

    /**
     * `indexCounter` equals the number of keys in `vertexMap`; each key maps to
     * a stored vertex with that key, and each stored vertex's key to its index.
     */
    lemma MapMatchesPositions()
      requires Valid()
      ensures |vertexMap| == indexCounter
      ensures forall k :: k in vertexMap ==>
        vertexMap[k] < indexCounter && key(finalPositions[vertexMap[k]]) == k
      ensures forall i :: 0 <= i < indexCounter ==>
        key(finalPositions[i]) in vertexMap && vertexMap[key(finalPositions[i])] == i
      ensures forall i, j :: 0 <= i < j < indexCounter ==> key(finalPositions[i]) != key(finalPositions[j])
    {
      KeyIndexSize(key, finalPositions);
      KeyIndexSound(key, finalPositions);
      KeyIndexComplete(key, finalPositions);
      DistinctKeysPairwise(key, finalPositions);
    }

    /** `addVertex`: the stored index of the vertex's key, or a new index for a new key. */
    method AddVertex(vec: Vec3) returns (index: nat)
      requires Valid()
      modifies this
      ensures Valid()
      ensures finalIndices == old(finalIndices) && corners == old(corners)
      ensures key(vec) in old(vertexMap) ==>
        && index == old(vertexMap)[key(vec)]
        && finalPositions == old(finalPositions) && vertexMap == old(vertexMap)
        && indexCounter == old(indexCounter)
      ensures key(vec) !in old(vertexMap) ==>
        && index == old(indexCounter)
        && finalPositions == old(finalPositions) + [vec]
        && vertexMap == old(vertexMap)[key(vec) := index]
        && indexCounter == old(indexCounter) + 1
      ensures finalPositions == Stored(key, old(finalPositions), vec)
      ensures old(finalPositions) <= finalPositions
      ensures index < indexCounter && key(finalPositions[index]) == key(vec)
    {
      var k := key(vec);
      if k in vertexMap {
        KeyIndexSoundAt(key, finalPositions, k);
        return vertexMap[k];
      }
      ghost var before := finalPositions;
      finalPositions := finalPositions + [vec];
      assert finalPositions[..|finalPositions| - 1] == before;
      assert ResolvesTo(key, finalPositions, finalIndices, corners) by {
        forall j | 0 <= j < |finalIndices|
          ensures key(finalPositions[finalIndices[j]]) == key(corners[j])
        {
          assert finalPositions[finalIndices[j]] == before[finalIndices[j]];
        }
      }
      vertexMap := vertexMap[k := indexCounter];
      index := indexCounter;
      indexCounter := indexCounter + 1;
    }

    /**
     * `subdivideTriangle`: emits the triangles whose corners are `Leaves`,
     * each corner resolved to a stored vertex with the same key.
     */
    method SubdivideTriangle(v1: Vec3, v2: Vec3, v3: Vec3, depth: int)
      requires Valid()
      modifies this
      decreases Depth(depth), 1
      ensures Valid()
      ensures corners == old(corners) + Leaves(mid, v1, v2, v3, depth)
      ensures finalPositions == StoreAll(key, old(finalPositions), Leaves(mid, v1, v2, v3, depth))
      ensures old(finalPositions) <= finalPositions
      ensures old(finalIndices) <= finalIndices
    {
      if depth <= 0 {
        assert Leaves(mid, v1, v2, v3, depth) == [v1, v2, v3];
        StoreAllThree(key, finalPositions, v1, v2, v3);
        var i1 := AddVertex(v1);
        var i2 := AddVertex(v2);
        assert key(finalPositions[i1]) == key(v1);
        var i3 := AddVertex(v3);
        assert key(finalPositions[i1]) == key(v1) && key(finalPositions[i2]) == key(v2);
        EmitTriangle(i1, i2, i3, v1, v2, v3);
      } else {
        SplitTriangle(v1, v2, v3, depth);
      }
    }

    /**
     * The recursive case of `subdivideTriangle`: the midpoints, then the four
     * parts at depth - 1, corners first, middle last.
     */
    method SplitTriangle(v1: Vec3, v2: Vec3, v3: Vec3, depth: int)
      requires Valid() && depth > 0
      modifies this
      decreases Depth(depth), 0
      ensures Valid()
      ensures corners == old(corners) + Leaves(mid, v1, v2, v3, depth)
      ensures finalPositions == StoreAll(key, old(finalPositions), Leaves(mid, v1, v2, v3, depth))
      ensures old(finalPositions) <= finalPositions
      ensures old(finalIndices) <= finalIndices
    {
      var v12 := mid(v1, v2);
      var v23 := mid(v2, v3);
      var v31 := mid(v3, v1);
      ghost var l1, l2 := Leaves(mid, v1, v12, v31, depth - 1), Leaves(mid, v2, v23, v12, depth - 1);
      ghost var l3, l4 := Leaves(mid, v3, v31, v23, depth - 1), Leaves(mid, v12, v23, v31, depth - 1);
      LeavesSplit(mid, v1, v2, v3, depth);
      Append3(l1 + l2, l3, l4);
      ghost var p0, c0 := finalPositions, corners;
      SubdividePair(v1, v12, v31, v2, v23, v12, depth - 1);
      SubdividePair(v3, v31, v23, v12, v23, v31, depth - 1);
      Append3(c0, l1 + l2, l3 + l4);
      StoreAllAppend(key, p0, l1 + l2, l3 + l4);
    }

    /** Two consecutive recursive calls of `subdivideTriangle`, at the same depth. */
    method SubdividePair(a1: Vec3, a2: Vec3, a3: Vec3, b1: Vec3, b2: Vec3, b3: Vec3, depth: int)
      requires Valid()
      modifies this
      decreases Depth(depth), 2
      ensures Valid()
      ensures corners == old(corners) + (Leaves(mid, a1, a2, a3, depth) + Leaves(mid, b1, b2, b3, depth))
      ensures finalPositions == StoreAll(key, old(finalPositions), Leaves(mid, a1, a2, a3, depth) + Leaves(mid, b1, b2, b3, depth))
      ensures old(finalPositions) <= finalPositions
      ensures old(finalIndices) <= finalIndices
    {
      ghost var p0, c0 := finalPositions, corners;
      SubdivideTriangle(a1, a2, a3, depth);
      SubdivideTriangle(b1, b2, b3, depth);
      Append3(c0, Leaves(mid, a1, a2, a3, depth), Leaves(mid, b1, b2, b3, depth));
      StoreAllAppend(key, p0, Leaves(mid, a1, a2, a3, depth), Leaves(mid, b1, b2, b3, depth));
    }

    /** `finalIndices.push(i1, i2, i3)` for stored vertices keyed like the corners `c1`, `c2`, `c3`. */
    method EmitTriangle(i1: nat, i2: nat, i3: nat, ghost c1: Vec3, ghost c2: Vec3, ghost c3: Vec3)
      requires Valid()
      requires i1 < indexCounter && i2 < indexCounter && i3 < indexCounter
      requires key(finalPositions[i1]) == key(c1)
      requires key(finalPositions[i2]) == key(c2)
      requires key(finalPositions[i3]) == key(c3)
      modifies this
      ensures Valid()
      ensures finalPositions == old(finalPositions) && vertexMap == old(vertexMap)
      ensures indexCounter == old(indexCounter)
      ensures finalIndices == old(finalIndices) + [i1, i2, i3]
      ensures corners == old(corners) + [c1, c2, c3]
    {
      finalIndices := finalIndices + [i1, i2, i3];
      corners := corners + [c1, c2, c3];
    }
  }

  // ---------------------------------------------------------------------
  // createGoldbergPolyhedron
  // ---------------------------------------------------------------------

  /** The midpoint rule used for subdivision, as a value. */
  function MidpointFn(normalize: Vec3 -> Vec3): (Vec3, Vec3) -> Vec3 {
    (a: Vec3, b: Vec3) => Midpoint(normalize, a, b)
  }

  /** The corners emitted for the first `n` base faces, in face order. */
  function FaceLeaves(mid: (Vec3, Vec3) -> Vec3, base: seq<Vec3>, n: nat, detail: int): seq<Vec3>
    requires |base| == BaseVertexCount && n <= |BaseFaces|
  {
    if n == 0 then []
    else
      BaseFacesValid();
      var f := BaseFaces[n - 1];
      FaceLeaves(mid, base, n - 1, detail) + Leaves(mid, base[f.0], base[f.1], base[f.2], detail)
  }

  /** Each face contributes 4^detail triangles (one when `detail` is 0 or less). */
  lemma {:induction false} FaceLeavesCount(mid: (Vec3, Vec3) -> Vec3, base: seq<Vec3>, n: nat, detail: int)
    requires |base| == BaseVertexCount && n <= |BaseFaces|
    ensures |FaceLeaves(mid, base, n, detail)| == n * (3 * Pow4(Depth(detail)))
  {
    if n > 0 {
      BaseFacesValid();
      var f := BaseFaces[n - 1];
      FaceLeavesCount(mid, base, n - 1, detail);
      LeavesCount(mid, base[f.0], base[f.1], base[f.2], detail);
      MulStep(n, 3 * Pow4(Depth(detail)));
    }
  }

  lemma MulStep(n: nat, p: nat)
    requires n > 0
    ensures n * p == (n - 1) * p + p
  {
  }

  /**
   * The radial displacement factor (`treshold`) for a noise value: zero inside
   * [-0.5, 0.5], the noise moved 0.1 further from zero outside it.
   */
  function Threshold(noiseVal: real): (t: real)
    ensures t == 0.0 <==> -0.5 <= noiseVal <= 0.5
    ensures t > 0.0 <==> noiseVal > 0.5
    ensures t != 0.0 ==> t > 0.6 || t < -0.6
  {
    if noiseVal < -0.5 then -0.1 + noiseVal
    else if noiseVal > 0.5 then 0.1 + noiseVal
    else 0.0
  }

  /** The displacement is symmetric about zero noise. */
  lemma ThresholdOdd(noiseVal: real)
    ensures Threshold(-noiseVal) == -Threshold(noiseVal)
  {
  }

  /** More noise never gives a smaller displacement. */
  lemma ThresholdMonotone(a: real, b: real)
    requires a <= b
    ensures Threshold(a) <= Threshold(b)
  {
  }

  /** A vertex scaled by `radius * (1 + offset)`, the offset coming from the noise at the vertex. */
  function Placed(radius: real, roughness: real, noise: Vec3 -> real, v: Vec3): Vec3 {
    Scale(v, radius * (1.0 + Threshold(noise(v)) * roughness))
  }

  /** Without roughness, or with noise inside [-0.5, 0.5], a vertex is only scaled by the radius. */
  lemma PlacedOnSphere(radius: real, roughness: real, noise: Vec3 -> real, v: Vec3)
    requires roughness == 0.0 || -0.5 <= noise(v) <= 0.5
    ensures Placed(radius, roughness, noise, v) == Scale(v, radius)
  {
  }

  /**
   * `createGoldbergPolyhedron`: the position array (three coordinates per
   * stored vertex, each vertex displaced) and the index list of the subdivided
   * icosahedron.  `vertices` are the stored vertices before displacement.
   */
  method CreateGoldbergPolyhedron(radius: real, detail: int, roughness: real, t: real,
                                  normalize: Vec3 -> Vec3, key: Vec3 -> string, noise: Vec3 -> real)
    returns (positionArray: array<real>, indices: seq<nat>, ghost vertices: seq<Vec3>)
    ensures fresh(positionArray)
    ensures |indices| == 60 * Pow4(Depth(detail))
    ensures forall i, j :: 0 <= i < j < |vertices| ==> key(vertices[i]) != key(vertices[j])
    ensures ResolvesTo(key, vertices, indices,
                       FaceLeaves(MidpointFn(normalize), BaseVertices(t, normalize), |BaseFaces|, detail))
    ensures vertices == FirstByKey(key, FaceLeaves(MidpointFn(normalize), BaseVertices(t, normalize), |BaseFaces|, detail))
    ensures forall v :: v in vertices ==> v in FaceLeaves(MidpointFn(normalize), BaseVertices(t, normalize), |BaseFaces|, detail)
    ensures positionArray.Length == 3 * |vertices|
    ensures forall i :: 0 <= i < |vertices| ==>
      var p := Placed(radius, roughness, noise, vertices[i]);
      positionArray[3 * i] == p.x && positionArray[3 * i + 1] == p.y && positionArray[3 * i + 2] == p.z
  {
    var mid := MidpointFn(normalize);
    var baseVertices := BaseVertices(t, normalize);
    var builder := new MeshBuilder(key, mid);
    SubdivideFaces(builder, baseVertices, detail);
    BaseFacesValid();
    FaceLeavesCount(mid, baseVertices, 20, detail);
    DistinctKeysPairwise(key, builder.finalPositions);
    StoreAllMembers(key, [], FaceLeaves(mid, baseVertices, |BaseFaces|, detail));
    vertices := builder.finalPositions;
    indices := builder.finalIndices;
    positionArray := Displace(builder, radius, roughness, noise);
  }

  /** The loop over the base faces: subdivides each one in turn. */
  method SubdivideFaces(builder: MeshBuilder, baseVertices: seq<Vec3>, detail: int)
    requires builder.Valid() && builder.corners == []
    requires |baseVertices| == BaseVertexCount
    modifies builder
    ensures builder.Valid()
    ensures builder.corners == FaceLeaves(builder.mid, baseVertices, |BaseFaces|, detail)
    ensures builder.finalPositions
      == StoreAll(builder.key, old(builder.finalPositions), FaceLeaves(builder.mid, baseVertices, |BaseFaces|, detail))
    ensures old(builder.finalIndices) <= builder.finalIndices
  {
    BaseFacesValid();
    for f := 0 to |BaseFaces|
      invariant builder.Valid()
      invariant builder.corners == FaceLeaves(builder.mid, baseVertices, f, detail)
      invariant builder.finalPositions
        == StoreAll(builder.key, old(builder.finalPositions), FaceLeaves(builder.mid, baseVertices, f, detail))
      invariant old(builder.finalIndices) <= builder.finalIndices
    {
      var face := BaseFaces[f];
      builder.SubdivideTriangle(baseVertices[face.0], baseVertices[face.1], baseVertices[face.2], detail);
      StoreAllAppend(builder.key, old(builder.finalPositions), FaceLeaves(builder.mid, baseVertices, f, detail),
                     Leaves(builder.mid, baseVertices[face.0], baseVertices[face.1], baseVertices[face.2], detail));
    }
  }

  /**
   * The displacement loop: scales every stored vertex in place and writes its
   * coordinates into a new array.
   */
  method Displace(builder: MeshBuilder, radius: real, roughness: real, noise: Vec3 -> real)
    returns (positionArray: array<real>)
    modifies builder
    ensures fresh(positionArray)
    ensures builder.finalIndices == old(builder.finalIndices)
    ensures builder.vertexMap == old(builder.vertexMap) && builder.indexCounter == old(builder.indexCounter)
    ensures builder.corners == old(builder.corners)
    ensures |builder.finalPositions| == |old(builder.finalPositions)|
    ensures positionArray.Length == 3 * |builder.finalPositions|
    ensures forall i :: 0 <= i < |builder.finalPositions| ==>
      builder.finalPositions[i] == Placed(radius, roughness, noise, old(builder.finalPositions)[i])
    ensures forall i :: 0 <= i < |builder.finalPositions| ==>
      var p := Placed(radius, roughness, noise, old(builder.finalPositions)[i]);
      positionArray[3 * i] == p.x && positionArray[3 * i + 1] == p.y && positionArray[3 * i + 2] == p.z
  {
    ghost var vertices := builder.finalPositions;
    positionArray := new real[|builder.finalPositions| * 3];
    for i := 0 to |builder.finalPositions|
      invariant builder.finalIndices == old(builder.finalIndices)
      invariant builder.vertexMap == old(builder.vertexMap) && builder.indexCounter == old(builder.indexCounter)
      invariant builder.corners == old(builder.corners)
      invariant |builder.finalPositions| == |vertices|
      invariant forall j :: 0 <= j < i ==>
        builder.finalPositions[j] == Placed(radius, roughness, noise, vertices[j])
      invariant forall j :: i <= j < |vertices| ==> builder.finalPositions[j] == vertices[j]
      invariant forall j :: 0 <= j < i ==>
        var p := Placed(radius, roughness, noise, vertices[j]);
        positionArray[3 * j] == p.x && positionArray[3 * j + 1] == p.y && positionArray[3 * j + 2] == p.z
    {
      DisplaceVertex(builder, positionArray, i, radius, roughness, noise);
    }
  }

  /** One pass of the displacement loop: vertex `i` is scaled in place and its coordinates written out. */
  method DisplaceVertex(builder: MeshBuilder, positionArray: array<real>, i: nat,
                        radius: real, roughness: real, noise: Vec3 -> real)
    requires i < |builder.finalPositions| && positionArray.Length == 3 * |builder.finalPositions|
    modifies builder, positionArray
    ensures builder.finalIndices == old(builder.finalIndices)
    ensures builder.vertexMap == old(builder.vertexMap) && builder.indexCounter == old(builder.indexCounter)
    ensures builder.corners == old(builder.corners)
    ensures builder.finalPositions
         == old(builder.finalPositions)[i := Placed(radius, roughness, noise, old(builder.finalPositions)[i])]
    ensures forall k :: 0 <= k < positionArray.Length && k != 3 * i && k != 3 * i + 1 && k != 3 * i + 2 ==>
      positionArray[k] == old(positionArray[k])
    ensures
      var p := Placed(radius, roughness, noise, old(builder.finalPositions)[i]);
      positionArray[3 * i] == p.x && positionArray[3 * i + 1] == p.y && positionArray[3 * i + 2] == p.z
  {
    var v := builder.finalPositions[i];
    var noiseVal := noise(v);
    var treshold := 0.0;
    if noiseVal > 0.5 {
      treshold := 0.1 + noiseVal;
    }
    if noiseVal < -0.5 {
      treshold := -0.1 + noiseVal;
    }
    assert treshold == Threshold(noiseVal);
    var offset := treshold * roughness;
    var p := Scale(v, radius * (1.0 + offset));
    assert p == Placed(radius, roughness, noise, v);
    builder.finalPositions := builder.finalPositions[i := p];
    positionArray[3 * i] := p.x;
    positionArray[3 * i + 1] := p.y;
    positionArray[3 * i + 2] := p.z;
  }
}
