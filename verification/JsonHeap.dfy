/** `find`, `getAt` and `setAt` as they run: on a tree of maps that is walked by reference and changed in place. Each
    is proved against Get and Put of the tree it represents. */
module JsonHeap {
  import opened Wrappers
  import opened Json
  import Patterns
  import Workload

  /** A map in the tree. Its place in the tree is only spoken of in proofs. */
  class Node {
    var fields: map<string, Val>
    ghost const path: Path

    constructor (ghost path: Path)
      ensures this.path == path && fields == map[]
    {
      this.path, fields := path, map[];
    }
  }

  datatype Val = VNull | VScalar(raw: string) | VArray(items: seq<Val>) | VMap(node: Node)

  /** A reflect.Value: invalid, of interface kind, or of the kind of what it holds. */
  datatype Value = Invalid | Wrapped(v: Val) | Bare(v: Val)

  datatype Found = Found(value: Value, parent: Option<Node>, lastKey: string)

  /** What the maps hold at one moment. */
  type Heap = map<Node, map<string, Val>>

  ghost function Snapshot(S: set<Node>): Heap
    reads S
  {
    map n | n in S :: n.fields
  }

  /** The maps in `v` are where `p` says. */
  ghost predicate Placed(v: Val, p: Path, H: Heap)
  {
    match v
    case VMap(n) => n in H && n.path == p
    case VArray(items) => forall i :: 0 <= i < |items| ==> Placed(items[i], p + [Index(i)], H)
    case _ => true
  }

  /** Every map is in one place only. */
  ghost predicate Tree(H: Heap)
  {
    forall n, k :: n in H && k in H[n] ==> Placed(H[n][k], n.path + [Key(k)], H)
  }

  /** `v` represents `j`. */
  ghost predicate Rep(v: Val, j: Json, H: Heap)
    decreases j
  {
    match j
    case Null => v.VNull?
    case Scalar(raw) => v == VScalar(raw)
    case Array(items) =>
      v.VArray? && |v.items| == |items| && forall i :: 0 <= i < |items| ==> Rep(v.items[i], items[i], H)
    case Object(f) =>
      v.VMap? && v.node in H && H[v.node].Keys == f.Keys && forall k :: k in f ==> Rep(H[v.node][k], f[k], H)
  }

  /** `K` extends `H` and has not changed the maps at or below `p`. */
  ghost predicate Untouched(p: Path, H: Heap, K: Heap)
  {
    forall n :: n in H ==> n in K && (p <= n.path ==> K[n] == H[n])
  }

  lemma {:induction false} PlacedMore(v: Val, p: Path, H: Heap, K: Heap)
    requires Placed(v, p, H) && H.Keys <= K.Keys
    ensures Placed(v, p, K)
    decreases v
  {
    if v.VArray? {
      forall i | 0 <= i < |v.items|
        ensures Placed(v.items[i], p + [Index(i)], K)
      {
        PlacedMore(v.items[i], p + [Index(i)], H, K);
      }
    }
  }

  lemma UntouchedBelow(p: Path, s: PathStep, H: Heap, K: Heap)
    requires Untouched(p, H, K)
    ensures Untouched(p + [s], H, K)
  {
    forall n | n in H && p + [s] <= n.path
      ensures p <= n.path
    {
    }
  }

  /** What is represented at a place that has not been touched stays represented. */
  lemma {:induction false} RepUntouched(v: Val, j: Json, p: Path, H: Heap, K: Heap)
    requires Rep(v, j, H) && Tree(H) && Placed(v, p, H) && Untouched(p, H, K)
    ensures Rep(v, j, K)
    decreases j
  {
    if j.Array? {
      forall i | 0 <= i < |j.items|
        ensures Rep(v.items[i], j.items[i], K)
      {
        UntouchedBelow(p, Index(i), H, K);
        RepUntouched(v.items[i], j.items[i], p + [Index(i)], H, K);
      }
    } else if j.Object? {
      forall k | k in j.fields
        ensures Rep(K[v.node][k], j.fields[k], K)
      {
        UntouchedBelow(p, Key(k), H, K);
        RepUntouched(H[v.node][k], j.fields[k], p + [Key(k)], H, K);
      }
    }
  }

  /** Following the keys from `v`, the map that is to hold the last one is `target`. */
  ghost predicate Reaches(v: Val, keys: seq<string>, target: Node, H: Heap)
    decreases |keys|
  {
    && keys != [] && v.VMap? && v.node in H
    && if |keys| == 1 then v.node == target
       else keys[0] in H[v.node] && Reaches(H[v.node][keys[0]], keys[1..], target, H)
  }

  /** The tree after one child of a map has been replaced or changed. */
  lemma ChildChanged(n: Node, j: Json, k: string, w: Val, x: Json, p: Path, H: Heap, K: Heap)
    requires Rep(VMap(n), j, H) && Tree(H) && Placed(VMap(n), p, H)
    requires forall m :: m in H ==> m in K && (m == n || p + [Key(k)] <= m.path || K[m] == H[m])
    requires n in K && K[n] == H[n][k := w]
    requires Rep(w, x, K)
    ensures Rep(VMap(n), Object(Fields(j)[k := x]), K)
  {
    var f := Fields(j)[k := x];
    forall l | l in f
      ensures Rep(K[n][l], f[l], K)
    {
      if l != k {
        forall m | m in H && p + [Key(l)] <= m.path
          ensures K[m] == H[m]
        {
          assert m.path[|p|] == Key(l);
          assert m != n && !(p + [Key(k)] <= m.path);
        }
        RepUntouched(H[n][l], f[l], p + [Key(l)], H, K);
      }
    }
  }

  lemma PathAbove(p: Path, keys: seq<string>)
    requires |keys| > 1
    ensures keys[1..][|keys| - 2] == keys[|keys| - 1]
    ensures p + [Key(keys[0])] + Patterns.Keys(keys[1..][..|keys| - 2]) == p + Patterns.Keys(keys[..|keys| - 1]) != p
  {
    assert keys[..|keys| - 1] == [keys[0]] + keys[1..][..|keys| - 2];
  }

  /** The assignment was made further down. */
  lemma ChildAssigned(n: Node, j: Json, k: string, x: Json, target: Node, p: Path, H: Heap, K: Heap)
    requires Rep(VMap(n), j, H) && Tree(H) && Placed(VMap(n), p, H) && k in H[n] && Rep(H[n][k], x, K)
    requires p + [Key(k)] <= target.path && forall m :: m in H ==> m in K && (m == target || K[m] == H[m])
    ensures Rep(VMap(n), Object(Fields(j)[k := x]), K)
  {
    assert H[n][k := H[n][k]] == H[n];
    assert |target.path| > |p|;
    ChildChanged(n, j, k, H[n][k], x, p, H, K);
  }

  lemma AssignHere(v: Val, k: string, j: Json, p: Path, out: Val, x: Json, H: Heap, K: Heap)
    requires Rep(v, j, H) && Tree(H) && Placed(v, p, H) && v.VMap?
    requires forall m :: m in H ==> m in K && (m == v.node || K[m] == H[m])
    requires K[v.node] == H[v.node][k := out] && Rep(out, x, K)
    ensures Put(j, Patterns.Keys([k]), x).Ok? && Rep(v, Put(j, Patterns.Keys([k]), x).value, K)
  {
    assert Patterns.Keys([k])[1..] == [];
    ChildChanged(v.node, j, k, out, x, p, H, K);
  }

  /** Assigning the last key in the map that the keys reach is a Put. */
  lemma {:induction false} AssignIsPut(v: Val, keys: seq<string>, target: Node, j: Json, p: Path, out: Val, x: Json,
                                       H: Heap, K: Heap)
    requires Rep(v, j, H) && Tree(H) && Placed(v, p, H) && Reaches(v, keys, target, H) && target in H
    requires forall m :: m in H ==> m in K && (m == target || K[m] == H[m])
    requires K[target] == H[target][keys[|keys| - 1] := out]
    requires Rep(out, x, K)
    ensures target.path == p + Patterns.Keys(keys[..|keys| - 1])
    ensures Put(j, Patterns.Keys(keys), x).Ok? && Rep(v, Put(j, Patterns.Keys(keys), x).value, K)
    decreases |keys|
  {
    if |keys| == 1 {
      assert keys == [keys[0]] && p + Patterns.Keys(keys[..0]) == p;
      AssignHere(v, keys[0], j, p, out, x, H, K);
    } else {
      Patterns.FieldStepsTail(keys);
      AssignIsPut(H[v.node][keys[0]], keys[1..], target, j.fields[keys[0]], p + [Key(keys[0])], out, x, H, K);
      PathAbove(p, keys);
      ChildAssigned(v.node, j, keys[0], Put(j.fields[keys[0]], Patterns.Keys(keys[1..]), x).value, target, p, H, K);
    }
  }

  /* ---- find ---- */

  ghost predicate Denotes(value: Value, j: Json, p: Path, H: Heap)
  {
    match value
    case Invalid => j == Null
    case Wrapped(v) => Placed(v, p, H) && Rep(v, j, H)
    case Bare(v) => v != VNull && Placed(v, p, H) && Rep(v, j, H)
  }

  /** The IsNil test, which panics on a scalar that is not wrapped. */
  predicate IsNil(value: Value)
  {
    value.Invalid? || value.v.VNull?
  }

  /** `find` without creation: the remaining keys decrease, or an interface is unwrapped. */
  method FindExisting(value: Value, parent: Option<Node>, keys: seq<string>, lastKey: string, ghost j: Json,
                      ghost p: Path, ghost S: set<Node>)
    returns (r: Outcome<Found>)
    requires Tree(Snapshot(S)) && Denotes(value, j, p, Snapshot(S))
    ensures r.Ok? <==> (Get(j, Patterns.Keys(keys)).Ok? && !(value.Bare? && value.v.VScalar?))
    ensures r.Error? ==> Get(j, Patterns.Keys(keys)).Error?
    ensures r.Panic? ==> Get(j, Patterns.Keys(keys)).Panic? || (value.Bare? && value.v.VScalar?)
    ensures r.Ok? ==> if Get(j, Patterns.Keys(keys)).value == Null then IsNil(r.value.value)
                      else Denotes(r.value.value, Get(j, Patterns.Keys(keys)).value, p + Patterns.Keys(keys),
                                   Snapshot(S))
    decreases |keys|, if value.Wrapped? then 1 else 0
  {
    if value.Bare? && value.v.VScalar? {
      return Panic;
    }
    if IsNil(value) {
      Patterns.NullThroughout(keys);
      return Ok(Found(Invalid, None, ""));
    }
    if |keys| == 0 {
      assert p + Patterns.Keys(keys) == p;
      return Ok(Found(value, parent, lastKey));
    }
    Patterns.FieldStepsTail(keys);
    if value.Wrapped? {
      r := FindExisting(Bare(value.v), None, keys, lastKey, j, p, S);
      return;
    }
    match value.v {
      case VMap(n) =>
        var k := keys[0];
        var next := if k in n.fields then Wrapped(n.fields[k]) else Invalid;
        assert p + [Key(k)] + Patterns.Keys(keys[1..]) == p + Patterns.Keys(keys);
        r := FindExisting(next, Some(n), keys[1..], k, Child(j, k), p + [Key(k)], S);
      case VArray(_) =>
        return Error;
    }
  }

  /** getAt, up to decoding: the value at the keys, or nothing when it is missing or null. */
  method GetAt(start: Value, keys: seq<string>, ghost j: Json, ghost p: Path, ghost S: set<Node>)
    returns (r: Outcome<Option<Val>>)
    requires Tree(Snapshot(S)) && Denotes(start, j, p, Snapshot(S)) && (start.Bare? ==> start.v.VMap?)
    ensures r.Ok? <==> Get(j, Patterns.Keys(keys)).Ok?
    ensures r.Error? <==> Get(j, Patterns.Keys(keys)).Error?
    ensures r.Ok? ==> if Get(j, Patterns.Keys(keys)).value == Null then r.value.None?
                      else r.value.Some? && Rep(r.value.value, Get(j, Patterns.Keys(keys)).value, Snapshot(S))
  {
    var found := FindExisting(start, None, keys, "", j, p, S);
    if found.Error? { return Error; }
    if found.Panic? { return Panic; }
    var value := found.value.value;
    if IsNil(value) {
      return Ok(None);
    }
    r := Ok(Some(value.v));
  }

  /* ---- find with creation ---- */

  /** What a location holds after it has been found with creation. */
  ghost function Leaf(j: Json, keys: seq<string>): Json
  {
    var g := Get(j, Patterns.Keys(keys));
    if g.Ok? && g.value != Null then g.value else Object(map[])
  }

  /** The effect of a successful find: the tree at `p` now represents `j` with the parents and the location itself
      created, the map to assign the last key in has been reached, and nothing else has changed. */
  ghost predicate Created(top: Val, j: Json, keys: seq<string>, f: Found, p: Path, H: Heap, K: Heap)
  {
    var path := Patterns.Keys(keys);
    && H.Keys <= K.Keys && Tree(K) && Placed(top, p, K)
    && Put(j, path, Leaf(j, keys)).Ok? && Rep(top, Put(j, path, Leaf(j, keys)).value, K)
    && (keys != [] ==> f.parent.Some? && f.lastKey == keys[|keys| - 1] && Reaches(top, keys, f.parent.value, K))
  }

  ghost predicate OnlyBelow(p: Path, H: Heap, K: Heap)
  {
    forall n :: n in H ==> n in K && (p <= n.path || K[n] == H[n])
  }

  /** The value has been put into its parent, and nothing else has changed that is not below it. */
  ghost predicate Linked(parent: Node, lastKey: string, top: Val, p: Path, H: Heap, K: Heap)
  {
    && parent in H && parent in K && K[parent] == H[parent][lastKey := top]
    && forall n :: n in H && n != parent && !(p <= n.path) ==> n in K && K[n] == H[n]
  }

  /** The heap with a new, empty map in place of a missing or null value. */
  ghost function WithEmpty(parent: Node, lastKey: string, n: Node, H: Heap): Heap
    requires parent in H
  {
    H[parent := H[parent][lastKey := VMap(n)]][n := map[]]
  }

  lemma CreatedEmpty(parent: Node, lastKey: string, n: Node, H: Heap, K: Heap)
    requires parent in H && Tree(H) && n !in H && n.path == parent.path + [Key(lastKey)]
    requires K == WithEmpty(parent, lastKey, n, H)
    ensures Tree(K) && Placed(VMap(n), n.path, K) && Rep(VMap(n), Object(map[]), K)
  {
    forall m, k | m in K && k in K[m]
      ensures Placed(K[m][k], m.path + [Key(k)], K)
    {
      if !(m == parent && k == lastKey) {
        PlacedMore(H[m][k], m.path + [Key(k)], H, K);
      }
    }
  }

  lemma EmptyLikeNull(keys: seq<string>, x: Json)
    ensures keys != [] ==> Get(Object(map[]), Patterns.Keys(keys)) == Get(Null, Patterns.Keys(keys)) == Ok(Null)
    ensures keys != [] ==> Put(Object(map[]), Patterns.Keys(keys), x) == Put(Null, Patterns.Keys(keys), x)
    ensures Leaf(Object(map[]), keys) == Leaf(Null, keys) == Object(map[])
    ensures Put(Object(map[]), Patterns.Keys(keys), Object(map[])) == Put(Null, Patterns.Keys(keys), Object(map[]))
  {
    Patterns.NullThroughout(keys);
    if keys != [] {
      Patterns.FieldStepsTail(keys);
      Patterns.NullThroughout(keys[1..]);
    }
  }

  lemma CreatedFromNull(top: Val, keys: seq<string>, f: Found, p: Path, H: Heap, K: Heap)
    requires Created(top, Object(map[]), keys, f, p, H, K)
    ensures Created(top, Null, keys, f, p, H, K)
  {
    EmptyLikeNull(keys, Object(map[]));
  }

  /** What has been found below the new map has been created in place of null. */
  lemma CreatedInNew(parent: Node, lastKey: string, n: Node, keys: seq<string>, f: Found, p: Path, H: Heap, K: Heap)
    requires parent in H && n !in H && p == parent.path + [Key(lastKey)]
    requires Created(VMap(n), Object(map[]), keys, f, p, WithEmpty(parent, lastKey, n, H), K)
    requires OnlyBelow(p, WithEmpty(parent, lastKey, n, H), K)
    ensures Created(VMap(n), Null, keys, f, p, H, K) && Linked(parent, lastKey, VMap(n), p, H, K)
  {
    CreatedFromNull(VMap(n), keys, f, p, WithEmpty(parent, lastKey, n, H), K);
    assert parent in WithEmpty(parent, lastKey, n, H);
  }

  /** From the child to the map that holds it. */
  lemma CreatedAbove(n: Node, j: Json, keys: seq<string>, w: Val, f: Found, p: Path, H: Heap, K: Heap)
    requires keys != [] && Rep(VMap(n), j, H) && Tree(H) && Placed(VMap(n), p, H)
    requires Created(w, Child(j, keys[0]), keys[1..], f, p + [Key(keys[0])], H, K)
    requires |keys| == 1 ==> f.parent == Some(n) && f.lastKey == keys[0]
    requires forall m :: m in H ==> m in K && (m == n || p + [Key(keys[0])] <= m.path || K[m] == H[m])
    requires K[n] == H[n][keys[0] := w]
    ensures Created(VMap(n), j, keys, f, p, H, K)
  {
    var k, below := keys[0], keys[1..];
    Patterns.FieldStepsTail(keys);
    assert Leaf(j, keys) == Leaf(Child(j, k), below);
    ChildChanged(n, j, k, w, Put(Child(j, k), Patterns.Keys(below), Leaf(j, keys)).value, p, H, K);
    if |keys| > 1 {
      assert below[|below| - 1] == keys[|keys| - 1];
    }
  }

  /** `find` with creation. A missing or null value is replaced by an empty map in its parent, also at the last key. */
  method FindCreating(value: Value, parent: Option<Node>, keys: seq<string>, lastKey: string, ghost j: Json,
                      ghost p: Path, ghost S: set<Node>)
    returns (r: Outcome<Found>, ghost T: set<Node>, ghost top: Val)
    requires Tree(Snapshot(S)) && Denotes(value, j, p, Snapshot(S))
    requires value.Bare? ==> !value.v.VScalar?
    requires parent.Some? ==> parent.value in S && p == parent.value.path + [Key(lastKey)]
    requires IsNil(value) ==> parent.Some?
    modifies S
    ensures r.Ok? <==> Get(j, Patterns.Keys(keys)).Ok?
    ensures r.Error? <==> Get(j, Patterns.Keys(keys)).Error?
    ensures S <= T && fresh(T - S)
    ensures r.Ok? ==> Created(top, j, keys, r.value, p, old(Snapshot(S)), Snapshot(T))
    ensures !r.Ok? ==> Snapshot(S) == old(Snapshot(S))
    ensures r.Ok? && keys == [] ==> r.value.parent == parent && r.value.lastKey == lastKey
    ensures r.Ok? && !IsNil(value) ==> top == value.v && OnlyBelow(p, old(Snapshot(S)), Snapshot(T))
    ensures r.Ok? && IsNil(value) ==> Linked(parent.value, lastKey, top, p, old(Snapshot(S)), Snapshot(T))
    decreases |keys|, if IsNil(value) then 3 else if value.Wrapped? then 2 else 1
  {
    if IsNil(value) {
      Patterns.NullThroughout(keys);
      r, T, top := FindInNew(parent.value, keys, lastKey, p, S);
      return;
    }
    T, top := S, value.v;
    if |keys| == 0 {
      return Ok(Found(value, parent, lastKey)), T, top;
    }
    if value.Wrapped? {
      if value.v.VScalar? {
        Patterns.FieldStepsTail(keys);
        return Panic, T, top;
      }
      r, T, top := FindCreating(Bare(value.v), None, keys, lastKey, j, p, S);
      return;
    }
    match value.v {
      case VMap(n) =>
        r, T := FindInMap(n, keys, j, p, S);
      case VArray(_) =>
        Patterns.FieldStepsTail(keys);
        return Error, T, top;
    }
  }

  /** A new map is put into its parent. */
  method LinkEmpty(parent: Node, lastKey: string, ghost p: Path, ghost S: set<Node>)
    returns (n: Node, ghost T: set<Node>)
    requires parent in S
    modifies parent
    ensures fresh(n) && n.path == p && T == S + {n}
    ensures Snapshot(T) == WithEmpty(parent, lastKey, n, old(Snapshot(S)))
  {
    n := new Node(p);
    parent.fields := parent.fields[lastKey := VMap(n)];
    T := S + {n};
  }

  /** The creation at the head of `find`. */
  method FindInNew(parent: Node, keys: seq<string>, lastKey: string, ghost p: Path, ghost S: set<Node>)
    returns (r: Outcome<Found>, ghost T: set<Node>, ghost top: Val)
    requires Tree(Snapshot(S)) && parent in S && p == parent.path + [Key(lastKey)]
    modifies S
    ensures r.Ok? && S <= T && fresh(T - S)
    ensures Created(top, Null, keys, r.value, p, old(Snapshot(S)), Snapshot(T))
    ensures keys == [] ==> r.value.parent == Some(parent) && r.value.lastKey == lastKey
    ensures Linked(parent, lastKey, top, p, old(Snapshot(S)), Snapshot(T))
    decreases |keys|, 2
  {
    ghost var H := Snapshot(S);
    var n;
    n, T := LinkEmpty(parent, lastKey, p, S);
    CreatedEmpty(parent, lastKey, n, H, Snapshot(T));
    EmptyLikeNull(keys, Object(map[]));
    r, T, top := FindCreating(Bare(VMap(n)), Some(parent), keys, lastKey, Object(map[]), p, T);
    CreatedInNew(parent, lastKey, n, keys, r.value, p, H, Snapshot(T));
  }

  /** What the search below a map has done to the map. */
  lemma StepIntoMap(n: Node, j: Json, keys: seq<string>, next: Value, w: Val, f: Found, p: Path, H: Heap, K: Heap)
    requires keys != [] && Rep(VMap(n), j, H) && Tree(H) && Placed(VMap(n), p, H)
    requires next == if keys[0] in H[n] then Wrapped(H[n][keys[0]]) else Invalid
    requires Created(w, Child(j, keys[0]), keys[1..], f, p + [Key(keys[0])], H, K)
    requires |keys| == 1 ==> f.parent == Some(n) && f.lastKey == keys[0]
    requires if IsNil(next) then Linked(n, keys[0], w, p + [Key(keys[0])], H, K)
             else w == next.v && OnlyBelow(p + [Key(keys[0])], H, K)
    ensures Created(VMap(n), j, keys, f, p, H, K) && OnlyBelow(p, H, K)
  {
    assert K[n] == H[n][keys[0] := w];
    CreatedAbove(n, j, keys, w, f, p, H, K);
    forall m | m in H && p + [Key(keys[0])] <= m.path
      ensures p <= m.path
    {
    }
  }

  /** The step of `find` into a map. */
  method FindInMap(n: Node, keys: seq<string>, ghost j: Json, ghost p: Path, ghost S: set<Node>)
    returns (r: Outcome<Found>, ghost T: set<Node>)
    requires Tree(Snapshot(S)) && Placed(VMap(n), p, Snapshot(S)) && Rep(VMap(n), j, Snapshot(S)) && keys != []
    modifies S
    ensures r.Ok? <==> Get(j, Patterns.Keys(keys)).Ok?
    ensures r.Error? <==> Get(j, Patterns.Keys(keys)).Error?
    ensures S <= T && fresh(T - S)
    ensures r.Ok? ==> Created(VMap(n), j, keys, r.value, p, old(Snapshot(S)), Snapshot(T))
    ensures !r.Ok? ==> Snapshot(S) == old(Snapshot(S))
    ensures r.Ok? ==> OnlyBelow(p, old(Snapshot(S)), Snapshot(T))
    decreases |keys|, 0
  {
    ghost var H := Snapshot(S);
    var k := keys[0];
    var next := if k in n.fields then Wrapped(n.fields[k]) else Invalid;
    ghost var w;
    Patterns.FieldStepsTail(keys);
    assert Denotes(next, Child(j, k), p + [Key(k)], H);
    r, T, w := FindCreating(next, Some(n), keys[1..], k, Child(j, k), p + [Key(k)], S);
    if r.Ok? {
      StepIntoMap(n, j, keys, next, w, r.value, p, H, Snapshot(T));
    }
  }

  /* ---- setAt ---- */

  lemma AssignKeepsTree(target: Node, k: string, out: Val, H: Heap, K: Heap)
    requires target in H && Tree(H) && Placed(out, target.path + [Key(k)], H) && K == H[target := H[target][k := out]]
    ensures Tree(K)
  {
    forall m, l | m in K && l in K[m]
      ensures Placed(K[m][l], m.path + [Key(l)], K)
    {
      PlacedMore(if m == target && l == k then out else H[m][l], m.path + [Key(l)], H, K);
    }
  }

  lemma {:induction false} ReachesMore(v: Val, keys: seq<string>, target: Node, H: Heap, K: Heap)
    requires Reaches(v, keys, target, H) && forall n :: n in H ==> n in K && K[n] == H[n]
    ensures Reaches(v, keys, target, K)
    decreases |keys|
  {
    if |keys| > 1 {
      ReachesMore(H[v.node][keys[0]], keys[1..], target, H, K);
    }
  }

  lemma {:induction false} TargetInHeap(v: Val, keys: seq<string>, target: Node, H: Heap)
    requires Reaches(v, keys, target, H)
    ensures target in H
    decreases |keys|
  {
    if |keys| > 1 {
      TargetInHeap(H[v.node][keys[0]], keys[1..], target, H);
    }
  }

  /** Two separate trees side by side, and what each of them represents. */
  lemma SideBySide(A: Heap, B: Heap, H: Heap, v: Val, j: Json, q: Path, out: Val, x: Json, p: Path)
    requires Tree(A) && Placed(v, q, A) && Rep(v, j, A) && Tree(B) && Placed(out, p, B) && Rep(out, x, B)
    requires H.Keys == A.Keys + B.Keys && (forall n :: n in A ==> H[n] == A[n]) && (forall n :: n in B ==> H[n] == B[n])
    ensures Tree(H) && Placed(v, q, H) && Rep(v, j, H) && Placed(out, p, H)
  {
    forall m, l | m in H && l in H[m]
      ensures Placed(H[m][l], m.path + [Key(l)], H)
    {
      PlacedMore(H[m][l], m.path + [Key(l)], if m in A then A else B, H);
    }
    PlacedMore(v, q, A, H);
    PlacedMore(out, p, B, H);
    RepUntouched(v, j, q, A, H);
  }

  lemma LastKey(keys: seq<string>)
    requires keys != []
    ensures Patterns.Keys(keys) == Patterns.Keys(keys[..|keys| - 1]) + [Key(keys[|keys| - 1])]
  {
  }

  /** `H` holds the two trees, and `K` is `H` after the assignment. */
  ghost predicate Assigned(f: Found, out: Val, A: Heap, B: Heap, H: Heap, K: Heap)
  {
    && H.Keys == A.Keys + B.Keys && (forall n :: n in A ==> H[n] == A[n]) && (forall n :: n in B ==> H[n] == B[n])
    && f.parent.Some? && f.parent.value in A && f.parent.value !in B
    && K == H[f.parent.value := H[f.parent.value][f.lastKey := out]]
  }

  /** In a heap that holds both trees. */
  lemma AssignInOne(top: Val, keys: seq<string>, f: Found, created: Json, p: Path, out: Val, x: Json, H: Heap, K: Heap)
    requires Tree(H) && Placed(top, p, H) && Rep(top, created, H)
    requires keys != [] && f.parent.Some? && f.lastKey == keys[|keys| - 1]
    requires f.parent.value in H && Reaches(top, keys, f.parent.value, H)
    requires Placed(out, p + Patterns.Keys(keys), H) && Rep(out, x, K)
    requires K == H[f.parent.value := H[f.parent.value][f.lastKey := out]]
    ensures Tree(K) && Put(created, Patterns.Keys(keys), x).Ok?
    ensures Rep(top, Put(created, Patterns.Keys(keys), x).value, K)
    ensures p <= f.parent.value.path
  {
    AssignIsPut(top, keys, f.parent.value, created, p, out, x, H, K);
    LastKey(keys);
    assert p + Patterns.Keys(keys) == f.parent.value.path + [Key(f.lastKey)];
    AssignKeepsTree(f.parent.value, f.lastKey, out, H, K);
  }

  lemma AssignCreated(top: Val, keys: seq<string>, f: Found, created: Json, p: Path, out: Val, x: Json, A: Heap,
                      B: Heap, H: Heap, K: Heap)
    requires Tree(A) && Placed(top, p, A) && Rep(top, created, A) && Assigned(f, out, A, B, H, K)
    requires keys != [] && f.lastKey == keys[|keys| - 1] && Reaches(top, keys, f.parent.value, A)
    requires Tree(B) && Placed(out, p + Patterns.Keys(keys), B) && Rep(out, x, B)
    ensures Tree(K) && Put(created, Patterns.Keys(keys), x).Ok?
    ensures Rep(top, Put(created, Patterns.Keys(keys), x).value, K)
    ensures p <= f.parent.value.path
  {
    SideBySide(A, B, H, top, created, p, out, x, p + Patterns.Keys(keys));
    ReachesMore(top, keys, f.parent.value, A, H);
    RepUntouched(out, x, p + Patterns.Keys(keys), B, K);
    AssignInOne(top, keys, f, created, p, out, x, H, K);
  }

  /** Creating the parents and assigning the last key is a Put. */
  lemma CreateThenAssign(top: Val, keys: seq<string>, f: Found, j: Json, p: Path, out: Val, x: Json, O: Heap, A: Heap,
                         B: Heap, H: Heap, K: Heap)
    requires keys != [] && Created(top, j, keys, f, p, O, A) && Assigned(f, out, A, B, H, K)
    requires Tree(B) && Placed(out, p + Patterns.Keys(keys), B) && Rep(out, x, B)
    ensures Tree(K) && Put(j, Patterns.Keys(keys), x).Ok? && Rep(top, Put(j, Patterns.Keys(keys), x).value, K)
    ensures p <= f.parent.value.path
  {
    var path := Patterns.Keys(keys);
    var leaf := Leaf(j, keys);
    AssignCreated(top, keys, f, Put(j, path, leaf).value, p, out, x, A, B, H, K);
    PutPut(j, path, leaf, x);
  }

  /* ---- from a part of the tree to the whole ---- */

  /** `v` is what the path leads to from `top`. */
  ghost predicate At(top: Val, p: Path, v: Val, H: Heap)
    decreases |p|
  {
    if p == [] then top == v
    else match p[0]
    case Key(k) => top.VMap? && top.node in H && k in H[top.node] && At(H[top.node][k], p[1..], v, H)
    case Index(i) => top.VArray? && i < |top.items| && At(top.items[i], p[1..], v, H)
  }

  lemma {:induction false} AtRepresents(top: Val, j: Json, q: Path, p: Path, v: Val, H: Heap)
    requires Tree(H) && Placed(top, q, H) && Rep(top, j, H) && At(top, p, v, H)
    ensures Get(j, p).Ok? && Rep(v, Get(j, p).value, H) && Placed(v, q + p, H)
    decreases |p|
  {
    if p == [] {
      assert q + p == q;
    } else {
      assert q + p == q + [p[0]] + p[1..];
      match p[0]
      case Key(k) => AtRepresents(H[top.node][k], j.fields[k], q + [Key(k)], p[1..], v, H);
      case Index(i) => AtRepresents(top.items[i], j.items[i], q + [Index(i)], p[1..], v, H);
    }
  }

  lemma ItemUntouched(q: Path, p: Path, l: nat, H: Heap, K: Heap)
    requires OnlyBelow(q + p, H, K) && p != [] && p[0] != Index(l)
    ensures Untouched(q + [Index(l)], H, K)
  {
    forall n | n in H && q + [Index(l)] <= n.path
      ensures K[n] == H[n]
    {
      assert n.path[|q|] == Index(l);
      assert (q + p)[|q|] == p[0];
    }
  }

  /** A change at and below `p` only is a Put of what is represented there afterwards. */
  lemma {:induction false} LocalChange(top: Val, j: Json, q: Path, p: Path, v: Val, x: Json, H: Heap, K: Heap)
    requires Tree(H) && Placed(top, q, H) && Rep(top, j, H) && At(top, p, v, H)
    requires OnlyBelow(q + p, H, K) && Rep(v, x, K)
    ensures Put(j, p, x).Ok? && Rep(top, Put(j, p, x).value, K)
    decreases |p|
  {
    if p != [] {
      assert q + p == q + [p[0]] + p[1..];
      match p[0]
      case Key(k) =>
        var w := H[top.node][k];
        LocalChange(w, j.fields[k], q + [Key(k)], p[1..], v, x, H, K);
        assert H[top.node][k := w] == H[top.node];
        ChildChanged(top.node, j, k, w, Put(j.fields[k], p[1..], x).value, q, H, K);
      case Index(i) =>
        LocalChange(top.items[i], j.items[i], q + [Index(i)], p[1..], v, x, H, K);
        forall l | 0 <= l < |j.items| && l != i
          ensures Rep(top.items[l], j.items[l], K)
        {
          ItemUntouched(q, p, l, H, K);
          RepUntouched(top.items[l], j.items[l], q + [Index(l)], H, K);
        }
    }
  }

  lemma {:induction false} PutSplit(j: Json, p: Path, q: Path, x: Json)
    requires Get(j, p).Ok? && Put(Get(j, p).value, q, x).Ok?
    ensures Put(j, p + q, x) == Put(j, p, Put(Get(j, p).value, q, x).value)
    decreases |p|
  {
    if p == [] {
      assert p + q == q;
    } else {
      assert (p + q)[0] == p[0] && (p + q)[1..] == p[1..] + q;
      match p[0]
      case Key(k) => PutSplit(Child(j, k), p[1..], q, x);
      case Index(i) => PutSplit(j.items[i], p[1..], q, x);
    }
  }

  /** SetMapIndex. */
  method Assign(target: Node, k: string, out: Val, ghost S: set<Node>)
    requires target in S
    modifies target
    ensures Snapshot(S) == old(Snapshot(S))[target := old(target.fields)[k := out]]
  {
    target.fields := target.fields[k := out];
  }

  /** The end of setAt: the assignment where `find` has led. */
  method AssignFound(found: Found, keys: seq<string>, out: Val, ghost x: Json, ghost F: set<Node>, ghost j: Json,
                     ghost p: Path, ghost top: Val, ghost O: Heap, ghost S: set<Node>)
    returns (ghost T: set<Node>)
    requires keys != [] && Created(top, j, keys, found, p, O, Snapshot(S)) && OnlyBelow(p, O, Snapshot(S))
    requires Tree(Snapshot(F)) && Placed(out, p + Patterns.Keys(keys), Snapshot(F)) && Rep(out, x, Snapshot(F))
    requires F !! S
    modifies S
    ensures T == S + F && Tree(Snapshot(T)) && OnlyBelow(p, O, Snapshot(T))
    ensures Put(j, Patterns.Keys(keys), x).Ok? && Rep(top, Put(j, Patterns.Keys(keys), x).value, Snapshot(T))
  {
    ghost var A, B := Snapshot(S), Snapshot(F);
    var target := found.parent.value;
    TargetInHeap(top, keys, target, A);
    T := S + F;
    ghost var H := Snapshot(T);
    Assign(target, found.lastKey, out, T);
    CreateThenAssign(top, keys, found, j, p, out, x, O, A, B, H, Snapshot(T));
  }

  /** setAt as seen from the value it starts at, after encoding: `out` is the encoded value, a tree of maps `F` of its
      own. A failed call has changed nothing. */
  method SetBelow(start: Value, keys: seq<string>, out: Val, ghost x: Json, ghost F: set<Node>, ghost j: Json,
                  ghost p: Path, ghost S: set<Node>)
    returns (r: Outcome<()>, ghost T: set<Node>)
    requires Tree(Snapshot(S)) && !start.Invalid? && Denotes(start, j, p, Snapshot(S))
    requires start.Bare? ==> start.v.VMap?
    requires Tree(Snapshot(F)) && Placed(out, p + Patterns.Keys(keys), Snapshot(F)) && Rep(out, x, Snapshot(F))
    requires F !! S
    modifies S
    ensures r.Ok? <==> keys != [] && j != Null && Put(j, Patterns.Keys(keys), x).Ok?
    ensures r.Error? <==> keys != [] && j != Null && Put(j, Patterns.Keys(keys), x).Error?
    ensures r.Ok? ==> S + F <= T && fresh(T - S - F) && Tree(Snapshot(T)) && OnlyBelow(p, old(Snapshot(S)), Snapshot(T))
    ensures r.Ok? ==> Rep(start.v, Put(j, Patterns.Keys(keys), x).value, Snapshot(T))
    ensures r.Error? ==> Snapshot(S) == old(Snapshot(S))
  {
    T := S;
    if IsNil(start) {
      return Panic, T;
    }
    var found;
    ghost var top;
    ghost var O := Snapshot(S);
    found, T, top := FindCreating(start, None, keys, "", j, p, S);
    PutOkIffGetOk(j, Patterns.Keys(keys), x);
    if found.Error? { return Error, T; }
    if found.Panic? || found.value.parent.None? { return Panic, T; }
    T := AssignFound(found.value, keys, out, x, F, j, p, top, O, T);
    r := Ok(());
  }

  /** setAt on the workload, starting at the value found at `node`. The whole tree then represents the workload that
      the write makes of it, and a failed call has changed nothing. */
  method SetAt(root: Node, start: Value, keys: seq<string>, out: Val, ghost x: Json, ghost F: set<Node>, ghost j: Json,
               ghost node: Path, ghost S: set<Node>)
    returns (r: Outcome<()>, ghost T: set<Node>)
    requires root in S && root.path == [] && Tree(Snapshot(S)) && Rep(VMap(root), j, Snapshot(S))
    requires !start.Invalid? && (start.Bare? ==> start.v.VMap?) && At(VMap(root), node, start.v, Snapshot(S))
    requires Tree(Snapshot(F)) && Placed(out, node + Patterns.Keys(keys), Snapshot(F)) && Rep(out, x, Snapshot(F))
    requires F !! S
    modifies S
    ensures r.Ok? <==> Workload.SetAt(j, node, keys, x).Ok?
    ensures r.Error? <==> Workload.SetAt(j, node, keys, x).Error?
    ensures r.Ok? ==>
      S + F <= T && fresh(T - S - F) && Tree(Snapshot(T)) && OnlyBelow(node, old(Snapshot(S)), Snapshot(T))
    ensures r.Ok? ==> Rep(VMap(root), Workload.SetAt(j, node, keys, x).value, Snapshot(T))
    ensures r.Error? ==> Snapshot(S) == old(Snapshot(S))
  {
    ghost var H := Snapshot(S);
    ghost var path := Patterns.Keys(keys);
    AtRepresents(VMap(root), j, [], node, start.v, H);
    ghost var w := Get(j, node).value;
    assert [] + node == node;
    r, T := SetBelow(start, keys, out, x, F, w, node, S);
    PutOkIffGetOk(w, path, x);
    PutOkIffGetOk(j, node + path, x);
    Patterns.GetSplit(j, node, path);
    if r.Ok? {
      PutSplit(j, node, path, x);
      LocalChange(VMap(root), j, [], node, start.v, Put(w, path, x).value, H, Snapshot(T));
    }
  }
}
