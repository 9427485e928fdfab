/** Copying a value into a tree of maps and back, searching the tree for nodes, and what keeps a node where it is. */
module HeapTrees {
  import opened Wrappers
  import opened Json
  import opened JsonHeap
  import Patterns

  /** The maps `S` hold the workload `j`, from `root`. */
  ghost predicate Holds(root: Node, j: Json, S: set<Node>)
    reads S
  {
    root in S && root.path == [] && Tree(Snapshot(S)) && Rep(VMap(root), j, Snapshot(S))
  }

  /* ---- copying ---- */

  /** The maps `F` form a tree, and those of `v` are where `p` says. */
  ghost predicate Stands(v: Val, p: Path, F: set<Node>)
    reads F
  {
    Tree(Snapshot(F)) && Placed(v, p, Snapshot(F))
  }

  ghost predicate Extends(H: Heap, K: Heap)
  {
    forall n :: n in H ==> n in K && K[n] == H[n]
  }

  lemma Extended(v: Val, j: Json, p: Path, H: Heap, K: Heap)
    requires Tree(H) && Placed(v, p, H) && Rep(v, j, H) && Extends(H, K)
    ensures Placed(v, p, K) && Rep(v, j, K)
  {
    PlacedMore(v, p, H, K);
    RepUntouched(v, j, p, H, K);
  }

  lemma TreesTogether(A: Heap, B: Heap, H: Heap)
    requires Tree(A) && Tree(B) && H.Keys == A.Keys + B.Keys && Extends(A, H) && Extends(B, H)
    ensures Tree(H)
  {
    forall m, l | m in H && l in H[m]
      ensures Placed(H[m][l], m.path + [Key(l)], H)
    {
      PlacedMore(H[m][l], m.path + [Key(l)], if m in A then A else B, H);
    }
  }

  /** The values of an object under construction. */
  ghost predicate FieldsStand(vs: map<string, Val>, js: map<string, Json>, p: Path, H: Heap)
  {
    forall k :: k in vs ==> k in js && Placed(vs[k], p + [Key(k)], H) && Rep(vs[k], js[k], H)
  }

  ghost predicate Built(vs: map<string, Val>, js: map<string, Json>, p: Path, F: set<Node>)
    reads F
  {
    Tree(Snapshot(F)) && FieldsStand(vs, js, p, Snapshot(F))
  }

  lemma FieldsExtended(vs: map<string, Val>, js: map<string, Json>, p: Path, H: Heap, K: Heap)
    requires Tree(H) && FieldsStand(vs, js, p, H) && Extends(H, K)
    ensures FieldsStand(vs, js, p, K)
  {
    forall k | k in vs
      ensures Placed(vs[k], p + [Key(k)], K) && Rep(vs[k], js[k], K)
    {
      Extended(vs[k], js[k], p + [Key(k)], H, K);
    }
  }

  /** The items of an array under construction. */
  ghost predicate ItemsStand(vs: seq<Val>, js: seq<Json>, p: Path, H: Heap)
  {
    |vs| <= |js| && forall i :: 0 <= i < |vs| ==> Placed(vs[i], p + [Index(i)], H) && Rep(vs[i], js[i], H)
  }

  lemma ItemsExtended(vs: seq<Val>, js: seq<Json>, p: Path, H: Heap, K: Heap)
    requires Tree(H) && ItemsStand(vs, js, p, H) && Extends(H, K)
    ensures ItemsStand(vs, js, p, K)
  {
    forall i | 0 <= i < |vs|
      ensures Placed(vs[i], p + [Index(i)], K) && Rep(vs[i], js[i], K)
    {
      Extended(vs[i], js[i], p + [Index(i)], H, K);
    }
  }

  /** A new map over values that are there. */
  lemma MapAdded(n: Node, vs: map<string, Val>, x: Json, p: Path, A: Heap, H: Heap)
    requires x.Object? && vs.Keys == x.fields.Keys && n.path == p && n !in A
    requires Tree(A) && FieldsStand(vs, x.fields, p, A)
    requires H.Keys == A.Keys + {n} && H[n] == vs && Extends(A, H)
    ensures Tree(H) && Placed(VMap(n), p, H) && Rep(VMap(n), x, H)
  {
    FieldsExtended(vs, x.fields, p, A, H);
    forall m, l | m in H && l in H[m]
      ensures Placed(H[m][l], m.path + [Key(l)], H)
    {
      if m != n {
        PlacedMore(H[m][l], m.path + [Key(l)], A, H);
      }
    }
  }

  method NewMap(vs: map<string, Val>, ghost x: Json, ghost p: Path, ghost S: set<Node>)
    returns (v: Val, ghost F: set<Node>)
    requires x.Object? && (forall k :: k in vs <==> k in x.fields) && Built(vs, x.fields, p, S)
    ensures S <= F && fresh(F - S) && Stands(v, p, F) && Rep(v, x, Snapshot(F)) && v.VMap?
  {
    var n := new Node(p);
    n.fields := vs;
    F := S + {n};
    v := VMap(n);
    assert vs.Keys == x.fields.Keys;
    MapAdded(n, vs, x, p, Snapshot(S), Snapshot(F));
  }

  /** A copy of a value, in a tree of maps of its own. */
  method Copy(x: Json, ghost p: Path) returns (v: Val, ghost F: set<Node>)
    ensures fresh(F) && Stands(v, p, F) && Rep(v, x, Snapshot(F))
    ensures x.Object? ==> v.VMap?
    decreases x, 2
  {
    match x
    case Null => return VNull, {};
    case Scalar(raw) => return VScalar(raw), {};
    case Array(items) => v, F := CopyItems(x, p);
    case Object(fields) =>
      var vs;
      vs, F := CopyFields(x, p);
      v, F := NewMap(vs, x, p, F);
  }

  method CopyItems(x: Json, ghost p: Path) returns (v: Val, ghost F: set<Node>)
    requires x.Array?
    ensures fresh(F) && Stands(v, p, F) && Rep(v, x, Snapshot(F))
    decreases x, 1
  {
    var vs: seq<Val> := [];
    F := {};
    for i := 0 to |x.items|
      invariant fresh(F) && Tree(Snapshot(F)) && |vs| == i && ItemsStand(vs, x.items, p, Snapshot(F))
    {
      ghost var A := Snapshot(F);
      ghost var G;
      var w;
      w, G := Copy(x.items[i], p + [Index(i)]);
      ghost var B, H := Snapshot(G), Snapshot(F + G);
      TreesTogether(A, B, H);
      ItemsExtended(vs, x.items, p, A, H);
      Extended(w, x.items[i], p + [Index(i)], B, H);
      vs, F := vs + [w], F + G;
    }
    v := VArray(vs);
  }

  /** Visits the entries in whatever order the map yields them. */
  method CopyFields(x: Json, ghost p: Path) returns (vs: map<string, Val>, ghost F: set<Node>)
    requires x.Object?
    ensures fresh(F) && Built(vs, x.fields, p, F)
    ensures forall k :: k in vs <==> k in x.fields
    decreases x, 1
  {
    var todo := x.fields.Keys;
    vs, F := map[], {};
    while todo != {}
      invariant fresh(F) && Built(vs, x.fields, p, F)
      invariant forall k :: k in x.fields <==> k in vs || k in todo
      decreases |todo|
    {
      var k :| k in todo;
      vs, F := CopyField(x, k, vs, p, F);
      todo := todo - {k};
    }
  }

  lemma ValueAdded(vs: map<string, Val>, k: string, w: Val, js: map<string, Json>, p: Path, F: set<Node>, G: set<Node>)
    requires Built(vs, js, p, F) && Stands(w, p + [Key(k)], G) && k in js && Rep(w, js[k], Snapshot(G))
    ensures Built(vs[k := w], js, p, F + G)
  {
    var A, B, H := Snapshot(F), Snapshot(G), Snapshot(F + G);
    TreesTogether(A, B, H);
    FieldsExtended(vs, js, p, A, H);
    Extended(w, js[k], p + [Key(k)], B, H);
  }

  method CopyField(x: Json, k: string, vs: map<string, Val>, ghost p: Path, ghost S: set<Node>)
    returns (r: map<string, Val>, ghost F: set<Node>)
    requires x.Object? && k in x.fields && Built(vs, x.fields, p, S)
    ensures S <= F && fresh(F - S) && Built(r, x.fields, p, F)
    ensures forall l :: l in r <==> l in vs || l == k
    decreases x, 0
  {
    ghost var G;
    var w;
    w, G := Copy(x.fields[k], p + [Key(k)]);
    ValueAdded(vs, k, w, x.fields, p, S, G);
    r, F := vs[k := w], S + G;
  }

  /** The value a part of the tree represents. */
  method Decode(v: Val, ghost j: Json, ghost S: set<Node>) returns (r: Json)
    requires Rep(v, j, Snapshot(S))
    ensures r == j
    decreases j, 1
  {
    match v
    case VNull => r := Null;
    case VScalar(raw) => r := Scalar(raw);
    case VArray(vs) =>
      var items: seq<Json> := [];
      for i := 0 to |vs|
        invariant items == j.items[..i]
      {
        var item := Decode(vs[i], j.items[i], S);
        items := items + [item];
      }
      r := Array(items);
    case VMap(n) => r := DecodeFields(n, j, S);
  }

  method DecodeFields(n: Node, ghost j: Json, ghost S: set<Node>) returns (r: Json)
    requires Rep(VMap(n), j, Snapshot(S))
    ensures r == j
    decreases j, 0
  {
    var fields: map<string, Json> := map[];
    var todo := n.fields.Keys;
    while todo != {}
      invariant forall k :: k in j.fields <==> k in fields || k in todo
      invariant forall k :: k in fields ==> fields[k] == j.fields[k]
      decreases |todo|
    {
      var k :| k in todo;
      todo := todo - {k};
      var field := Decode(n.fields[k], j.fields[k], S);
      fields := fields[k := field];
    }
    assert fields == j.fields;
    r := Object(fields);
  }

  /* ---- searching ---- */

  /** The values found are those at the given locations. */
  ghost predicate AllAt(top: Val, ps: seq<Path>, vs: seq<Val>, H: Heap)
  {
    |ps| == |vs| && forall i :: 0 <= i < |ps| ==> At(top, ps[i], vs[i], H)
  }

  lemma AllAtPrefixed(top: Val, s: PathStep, w: Val, ps: seq<Path>, vs: seq<Val>, H: Heap)
    requires AllAt(w, ps, vs, H) && At(top, [s], w, H)
    ensures AllAt(top, Patterns.Prefix(s, ps), vs, H)
  {
    forall i | 0 <= i < |ps|
      ensures At(top, Patterns.Prefix(s, ps)[i], vs[i], H)
    {
      assert Patterns.Prefix(s, ps)[i] == [s] + ps[i];
      assert ([s] + ps[i])[1..] == ps[i];
      assert [s][1..] == [];
    }
  }

  ghost predicate Finds(top: Val, ps: Option<seq<Path>>, vs: Option<seq<Val>>, H: Heap)
  {
    (ps.Some? <==> vs.Some?) && (ps.Some? ==> AllAt(top, ps.value, vs.value, H))
  }

  /** FindResults, on the tree. */
  method FindResults(s: Patterns.Pattern, v: Val, ghost j: Json, ghost S: set<Node>) returns (r: Option<seq<Val>>)
    requires Rep(v, j, Snapshot(S))
    ensures Finds(v, Patterns.Nodes(s, j), r, Snapshot(S))
    decreases |s|, 1
  {
    if s == [] {
      return Some([v]);
    }
    match s[0]
    case Field(k) =>
      if v.VMap? && k in v.node.fields {
        r := FindResults(s[1..], v.node.fields[k], j.fields[k], S);
        if r.Some? {
          assert [Key(k)][1..] == [];
          AllAtPrefixed(v, Key(k), v.node.fields[k], Patterns.Nodes(s[1..], j.fields[k]).value, r.value, Snapshot(S));
        }
      } else {
        r := Some([]);
      }
    case All =>
      if v.VNull? {
        r := Some([]);
      } else if v.VArray? {
        r := FindInItems(s, v, j, S);
      } else {
        r := None;
      }
  }

  lemma ItemFound(v: Val, rs: seq<Option<seq<Path>>>, i: nat, before: Option<seq<Val>>, below: Option<seq<Val>>,
                  H: Heap)
    requires v.VArray? && i < |v.items| && i < |rs|
    requires Finds(v, Patterns.Gather(rs[..i]), before, H) && Finds(v.items[i], rs[i], below, H)
    ensures Finds(v, Patterns.Gather(rs[..i + 1]),
              if before.Some? && below.Some? then Some(before.value + below.value) else None, H)
  {
    assert rs[..i + 1][..i] == rs[..i] && rs[..i + 1][i] == rs[i];
    if before.Some? && below.Some? {
      assert [Index(i)][1..] == [];
      AllAtPrefixed(v, Index(i), v.items[i], rs[i].value, below.value, H);
    }
  }

  method FindInItems(s: Patterns.Pattern, v: Val, ghost j: Json, ghost S: set<Node>) returns (r: Option<seq<Val>>)
    requires Rep(v, j, Snapshot(S)) && v.VArray? && s != []
    ensures Finds(v, Patterns.Gather(Patterns.ItemNodes(s[1..], j.items)), r, Snapshot(S))
    decreases |s|, 0
  {
    ghost var rs := Patterns.ItemNodes(s[1..], j.items);
    r := Some([]);
    for i := 0 to |v.items|
      invariant Finds(v, Patterns.Gather(rs[..i]), r, Snapshot(S))
    {
      var below := FindResults(s[1..], v.items[i], j.items[i], S);
      ItemFound(v, rs, i, r, below, Snapshot(S));
      r := if r.Some? && below.Some? then Some(r.value + below.value) else None;
    }
    assert rs[..|rs|] == rs;
  }

  /** A node stays where it is through changes at and below places that are no higher. */
  lemma {:induction false} AtKept(top: Val, p: Path, q: Path, v: Val, below: Path, H: Heap, K: Heap)
    requires Tree(H) && Placed(top, p, H) && At(top, q, v, H) && OnlyBelow(below, H, K) && |p| + |q| <= |below|
    ensures At(top, q, v, K)
    decreases |q|
  {
    if q != [] {
      match q[0]
      case Key(k) => AtKept(H[top.node][k], p + [Key(k)], q[1..], v, below, H, K);
      case Index(i) => AtKept(top.items[i], p + [Index(i)], q[1..], v, below, H, K);
    }
  }
}
