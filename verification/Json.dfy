/** Unstructured workloads, and reading and writing one location in them. */
module Json {
  import opened Wrappers

  datatype Json = Null | Scalar(raw: string) | Array(items: seq<Json>) | Object(fields: map<string, Json>)

  /** An unstructured workload is an object. */
  type Resource = j: Json | j.Object? witness Object(map[])

  datatype PathStep = Key(name: string) | Index(i: nat)

  type Path = seq<PathStep>

  /** What is below a key. A missing key and a key with a null value are the same to the reader. */
  function Child(j: Json, k: string): Json
  {
    if j.Object? && k in j.fields then j.fields[k] else Null
  }

  /** The entries of an object; a missing or null parent is created empty. */
  function Fields(j: Json): map<string, Json>
  {
    if j.Object? then j.fields else map[]
  }

  /** `find` without creation. An array where an object is expected is an error; a scalar makes IsNil panic. */
  function Get(j: Json, p: Path): Outcome<Json>
    decreases |p|
  {
    if p == [] then Ok(j)
    else match p[0]
    case Key(k) => if j.Array? then Error else if j.Scalar? then Panic else Get(Child(j, k), p[1..])
    case Index(i) => if j.Array? && i < |j.items| then Get(j.items[i], p[1..]) else Error
  }

  /** `find` with creation followed by SetMapIndex. */
  function Put(j: Json, p: Path, x: Json): Outcome<Json>
    decreases |p|
  {
    if p == [] then Ok(x)
    else match p[0]
    case Key(k) =>
      if j.Array? then Error
      else if j.Scalar? then Panic
      else
        var child :- Put(Child(j, k), p[1..], x);
        Ok(Object(Fields(j)[k := child]))
    case Index(i) =>
      if j.Array? && i < |j.items| then
        var item :- Put(j.items[i], p[1..], x);
        Ok(Array(j.items[i := item]))
      else Error
  }

  /** The location exists: every key on the way is there. */
  predicate Present(j: Json, p: Path)
    decreases |p|
  {
    p == [] ||
    match p[0]
    case Key(k) => j.Object? && k in j.fields && Present(j.fields[k], p[1..])
    case Index(i) => j.Array? && i < |j.items| && Present(j.items[i], p[1..])
  }

  /** The two workloads cannot be told apart at a location: not by what is read there, nor by whether it exists. */
  predicate SameAt(j: Json, k: Json, q: Path)
  {
    Get(j, q) == Get(k, q) && (Present(j, q) <==> Present(k, q))
  }

  /** Neither location contains the other. Both see the same kind of node where they part. */
  predicate Diverge(p: Path, q: Path)
    decreases |p|
  {
    p != [] && q != [] && if p[0] == q[0] then Diverge(p[1..], q[1..]) else p[0].Key? == q[0].Key?
  }

  /* ---- lens laws of one location ---- */

  /** A location can be written exactly when it can be read, and fails in the same way. */
  lemma {:induction false} PutOkIffGetOk(j: Json, p: Path, x: Json)
    ensures Put(j, p, x).Ok? <==> Get(j, p).Ok?
    ensures Put(j, p, x).Error? <==> Get(j, p).Error?
    decreases |p|
  {
    if p != [] {
      match p[0]
      case Key(k) =>
        PutOkIffGetOk(Child(j, k), p[1..], x);
      case Index(i) =>
        if j.Array? && i < |j.items| {
          PutOkIffGetOk(j.items[i], p[1..], x);
        }
    }
  }

  /** What has been written is read back. */
  lemma {:induction false} PutGet(j: Json, p: Path, x: Json)
    requires Put(j, p, x).Ok?
    ensures Get(Put(j, p, x).value, p) == Ok(x)
    decreases |p|
  {
    if p != [] {
      match p[0]
      case Key(k) => PutGet(Child(j, k), p[1..], x);
      case Index(i) => PutGet(j.items[i], p[1..], x);
    }
  }

  /** A second write to a location makes the first one irrelevant. */
  lemma {:induction false} PutPut(j: Json, p: Path, x: Json, y: Json)
    requires Put(j, p, x).Ok?
    ensures Put(Put(j, p, x).value, p, y) == Put(j, p, y)
    decreases |p|
  {
    if p != [] {
      match p[0]
      case Key(k) =>
        var u := Put(Child(j, k), p[1..], x).value;
        PutPut(Child(j, k), p[1..], x, y);
        if Put(u, p[1..], y).Ok? {
          var w := Put(u, p[1..], y).value;
          assert Fields(j)[k := u][k := w] == Fields(j)[k := w];
        }
      case Index(i) =>
        var u := Put(j.items[i], p[1..], x).value;
        PutPut(j.items[i], p[1..], x, y);
        if Put(u, p[1..], y).Ok? {
          var w := Put(u, p[1..], y).value;
          assert j.items[i := u][i := w] == j.items[i := w];
        }
    }
  }

  /** Writing back what is there changes nothing. */
  lemma {:induction false} GetPut(j: Json, p: Path)
    requires Present(j, p)
    ensures Get(j, p).Ok? && Put(j, p, Get(j, p).value) == Ok(j)
    decreases |p|
  {
    if p != [] {
      match p[0]
      case Key(k) =>
        GetPut(j.fields[k], p[1..]);
        assert j.fields[k := j.fields[k]] == j.fields;
      case Index(i) =>
        GetPut(j.items[i], p[1..]);
        assert j.items[i := j.items[i]] == j.items;
    }
  }

  lemma {:induction false} PutIsPresent(j: Json, p: Path, x: Json)
    requires Put(j, p, x).Ok?
    ensures Present(Put(j, p, x).value, p)
    decreases |p|
  {
    if p != [] {
      match p[0]
      case Key(k) => PutIsPresent(Child(j, k), p[1..], x);
      case Index(i) => PutIsPresent(j.items[i], p[1..], x);
    }
  }

  lemma {:induction false} DivergeSymmetric(p: Path, q: Path)
    ensures Diverge(p, q) <==> Diverge(q, p)
    decreases |p|
  {
    if p != [] && q != [] && p[0] == q[0] {
      DivergeSymmetric(p[1..], q[1..]);
    }
  }

  /** A write is not seen at a location that diverges from it. */
  lemma {:induction false} GetOther(j: Json, p: Path, x: Json, q: Path)
    requires Put(j, p, x).Ok? && Diverge(p, q)
    ensures Get(Put(j, p, x).value, q) == Get(j, q)
    decreases |p|
  {
    if p[0] == q[0] {
      match p[0]
      case Key(k) => GetOther(Child(j, k), p[1..], x, q[1..]);
      case Index(i) => GetOther(j.items[i], p[1..], x, q[1..]);
    }
  }

  /** Nor does it make a location appear or disappear there. */
  lemma {:induction false} PresentOther(j: Json, p: Path, x: Json, q: Path)
    requires Put(j, p, x).Ok? && Diverge(p, q)
    ensures Present(Put(j, p, x).value, q) <==> Present(j, q)
    decreases |p|
  {
    if p[0] == q[0] {
      match p[0]
      case Key(k) =>
        PresentOther(Child(j, k), p[1..], x, q[1..]);
      case Index(i) => PresentOther(j.items[i], p[1..], x, q[1..]);
    }
  }

  lemma KeysCommute(j: Json, k: string, p: Path, x: Json, l: string, q: Path, y: Json)
    requires k != l && !j.Array? && !j.Scalar?
    requires Put(Child(j, k), p, x).Ok? && Put(Child(j, l), q, y).Ok?
    ensures Put(j, [Key(k)] + p, x).Ok? && Put(j, [Key(l)] + q, y).Ok?
    ensures Put(Put(j, [Key(k)] + p, x).value, [Key(l)] + q, y).Ok?
    ensures Put(Put(j, [Key(k)] + p, x).value, [Key(l)] + q, y) == Put(Put(j, [Key(l)] + q, y).value, [Key(k)] + p, x)
  {
    var u, w := Put(Child(j, k), p, x).value, Put(Child(j, l), q, y).value;
    var f := Fields(j);
    assert ([Key(k)] + p)[1..] == p && ([Key(l)] + q)[1..] == q;
    assert Put(j, [Key(k)] + p, x) == Ok(Object(f[k := u]));
    assert Put(j, [Key(l)] + q, y) == Ok(Object(f[l := w]));
    assert Child(Object(f[k := u]), l) == Child(j, l) && Child(Object(f[l := w]), k) == Child(j, k);
    assert f[k := u][l := w] == f[l := w][k := u];
  }

  lemma ItemsCommute(j: Json, i: nat, p: Path, x: Json, l: nat, q: Path, y: Json)
    requires i != l && j.Array? && i < |j.items| && l < |j.items|
    requires Put(j.items[i], p, x).Ok? && Put(j.items[l], q, y).Ok?
    ensures Put(j, [Index(i)] + p, x).Ok? && Put(j, [Index(l)] + q, y).Ok?
    ensures Put(Put(j, [Index(i)] + p, x).value, [Index(l)] + q, y).Ok?
    ensures Put(Put(j, [Index(i)] + p, x).value, [Index(l)] + q, y)
         == Put(Put(j, [Index(l)] + q, y).value, [Index(i)] + p, x)
  {
    var u, w := Put(j.items[i], p, x).value, Put(j.items[l], q, y).value;
    assert ([Index(i)] + p)[1..] == p && ([Index(l)] + q)[1..] == q;
    assert Put(j, [Index(i)] + p, x) == Ok(Array(j.items[i := u]));
    assert Put(j, [Index(l)] + q, y) == Ok(Array(j.items[l := w]));
    assert j.items[i := u][l := w] == j.items[l := w][i := u];
  }

  lemma Overwrite(f: map<string, Json>, k: string, u: Json, z: Json)
    ensures f[k := u][k := z] == f[k := z]
  {
  }

  lemma SameKeyCommutes(j: Json, k: string, p: Path, x: Json, q: Path, y: Json)
    requires !j.Array? && !j.Scalar? && Put(Child(j, k), p, x).Ok? && Put(Child(j, k), q, y).Ok?
    requires Put(Put(Child(j, k), p, x).value, q, y).Ok?
    requires Put(Put(Child(j, k), p, x).value, q, y) == Put(Put(Child(j, k), q, y).value, p, x)
    ensures Put(j, [Key(k)] + p, x).Ok? && Put(j, [Key(k)] + q, y).Ok?
    ensures Put(Put(j, [Key(k)] + p, x).value, [Key(k)] + q, y).Ok?
    ensures Put(Put(j, [Key(k)] + p, x).value, [Key(k)] + q, y) == Put(Put(j, [Key(k)] + q, y).value, [Key(k)] + p, x)
  {
    var u, w := Put(Child(j, k), p, x).value, Put(Child(j, k), q, y).value;
    var z := Put(u, q, y).value;
    var f := Fields(j);
    assert ([Key(k)] + p)[1..] == p && ([Key(k)] + q)[1..] == q;
    assert Put(j, [Key(k)] + p, x) == Ok(Object(f[k := u]));
    assert Put(j, [Key(k)] + q, y) == Ok(Object(f[k := w]));
    Overwrite(f, k, u, z);
    Overwrite(f, k, w, z);
    assert Put(Object(f[k := u]), [Key(k)] + q, y) == Ok(Object(f[k := u][k := z]));
    assert Put(Object(f[k := w]), [Key(k)] + p, x) == Ok(Object(f[k := w][k := z]));
  }

  lemma SameItemCommutes(j: Json, i: nat, p: Path, x: Json, q: Path, y: Json)
    requires j.Array? && i < |j.items| && Put(j.items[i], p, x).Ok? && Put(j.items[i], q, y).Ok?
    requires Put(Put(j.items[i], p, x).value, q, y).Ok?
    requires Put(Put(j.items[i], p, x).value, q, y) == Put(Put(j.items[i], q, y).value, p, x)
    ensures Put(j, [Index(i)] + p, x).Ok? && Put(j, [Index(i)] + q, y).Ok?
    ensures Put(Put(j, [Index(i)] + p, x).value, [Index(i)] + q, y).Ok?
    ensures Put(Put(j, [Index(i)] + p, x).value, [Index(i)] + q, y)
         == Put(Put(j, [Index(i)] + q, y).value, [Index(i)] + p, x)
  {
    var u, w := Put(j.items[i], p, x).value, Put(j.items[i], q, y).value;
    var z := Put(u, q, y).value;
    assert ([Index(i)] + p)[1..] == p && ([Index(i)] + q)[1..] == q;
    assert Put(j, [Index(i)] + p, x) == Ok(Array(j.items[i := u]));
    assert Put(j, [Index(i)] + q, y) == Ok(Array(j.items[i := w]));
    assert j.items[i := u][i := z] == j.items[i := z] == j.items[i := w][i := z];
  }

  lemma Uncons(p: Path)
    requires p != []
    ensures p == [p[0]] + p[1..]
  {
  }

  /** Writes to diverging locations commute. */
  lemma {:induction false} PutsCommute(j: Json, p: Path, x: Json, q: Path, y: Json)
    requires Diverge(p, q) && Put(j, p, x).Ok? && Put(j, q, y).Ok?
    ensures Put(Put(j, p, x).value, q, y).Ok?
    ensures Put(Put(j, p, x).value, q, y) == Put(Put(j, q, y).value, p, x)
    decreases |p|
  {
    Uncons(p);
    Uncons(q);
    match p[0]
    case Key(k) =>
      if p[0] != q[0] {
        KeysCommute(j, k, p[1..], x, q[0].name, q[1..], y);
      } else {
        PutsCommute(Child(j, k), p[1..], x, q[1..], y);
        SameKeyCommutes(j, k, p[1..], x, q[1..], y);
      }
    case Index(i) =>
      if p[0] != q[0] {
        ItemsCommute(j, i, p[1..], x, q[0].i, q[1..], y);
      } else {
        PutsCommute(j.items[i], p[1..], x, q[1..], y);
        SameItemCommutes(j, i, p[1..], x, q[1..], y);
      }
  }

  /* ---- many writes ---- */

  datatype Update = Update(path: Path, value: Json)

  function PutAll(j: Json, ws: seq<Update>): Outcome<Json>
    decreases |ws|
  {
    if ws == [] then Ok(j)
    else
      var next :- Put(j, ws[0].path, ws[0].value);
      PutAll(next, ws[1..])
  }

  ghost predicate PairwiseDiverge(ws: seq<Update>)
  {
    forall i, k :: 0 <= i < k < |ws| ==> Diverge(ws[i].path, ws[k].path)
  }

  ghost predicate DivergesFromAll(p: Path, ws: seq<Update>)
  {
    forall i :: 0 <= i < |ws| ==> Diverge(ws[i].path, p)
  }

  ghost predicate Writable(j: Json, ws: seq<Update>)
  {
    forall i :: 0 <= i < |ws| ==> Get(j, ws[i].path).Ok?
  }

  lemma FirstWrite(j: Json, ws: seq<Update>)
    requires ws != [] && PairwiseDiverge(ws) && Writable(j, ws)
    ensures Put(j, ws[0].path, ws[0].value).Ok?
    ensures PairwiseDiverge(ws[1..]) && DivergesFromAll(ws[0].path, ws[1..])
    ensures Writable(Put(j, ws[0].path, ws[0].value).value, ws[1..])
  {
    PutOkIffGetOk(j, ws[0].path, ws[0].value);
    forall i | 0 <= i < |ws[1..]|
      ensures Diverge(ws[1..][i].path, ws[0].path)
      ensures Get(Put(j, ws[0].path, ws[0].value).value, ws[1..][i].path).Ok?
    {
      assert ws[1..][i] == ws[i + 1];
      DivergeSymmetric(ws[0].path, ws[i + 1].path);
      GetOther(j, ws[0].path, ws[0].value, ws[i + 1].path);
    }
  }

  lemma {:induction false} PutAllOk(j: Json, ws: seq<Update>)
    requires PairwiseDiverge(ws) && Writable(j, ws)
    ensures PutAll(j, ws).Ok?
    decreases |ws|
  {
    if ws != [] {
      FirstWrite(j, ws);
      PutAllOk(Put(j, ws[0].path, ws[0].value).value, ws[1..]);
    }
  }

  lemma {:induction false} PutAllOther(j: Json, ws: seq<Update>, q: Path)
    requires PutAll(j, ws).Ok? && DivergesFromAll(q, ws)
    ensures SameAt(PutAll(j, ws).value, j, q)
    decreases |ws|
  {
    if ws != [] {
      GetOther(j, ws[0].path, ws[0].value, q);
      PresentOther(j, ws[0].path, ws[0].value, q);
      PutAllOther(Put(j, ws[0].path, ws[0].value).value, ws[1..], q);
    }
  }

  lemma {:induction false} PutAllGet(j: Json, ws: seq<Update>, i: nat)
    requires PutAll(j, ws).Ok? && PairwiseDiverge(ws) && i < |ws|
    ensures Get(PutAll(j, ws).value, ws[i].path) == Ok(ws[i].value) && Present(PutAll(j, ws).value, ws[i].path)
    decreases |ws|
  {
    var next := Put(j, ws[0].path, ws[0].value).value;
    if i == 0 {
      PutGet(j, ws[0].path, ws[0].value);
      PutIsPresent(j, ws[0].path, ws[0].value);
      forall k | 0 <= k < |ws[1..]|
        ensures Diverge(ws[1..][k].path, ws[0].path)
      {
        DivergeSymmetric(ws[0].path, ws[k + 1].path);
      }
      PutAllOther(next, ws[1..], ws[0].path);
    } else {
      PutAllGet(next, ws[1..], i - 1);
    }
  }

  /** A write may be moved past others it diverges from. */
  lemma {:induction false} PutPastAll(j: Json, p: Path, x: Json, ws: seq<Update>)
    requires Put(j, p, x).Ok? && PutAll(j, ws).Ok? && DivergesFromAll(p, ws)
    ensures PutAll(Put(j, p, x).value, ws).Ok?
    ensures Put(PutAll(j, ws).value, p, x) == PutAll(Put(j, p, x).value, ws)
    decreases |ws|
  {
    if ws != [] {
      PutsCommute(j, ws[0].path, ws[0].value, p, x);
      PutPastAll(Put(j, ws[0].path, ws[0].value).value, p, x, ws[1..]);
    }
  }

  ghost predicate SamePaths(ws: seq<Update>, xs: seq<Update>)
  {
    |ws| == |xs| && forall i :: 0 <= i < |ws| ==> ws[i].path == xs[i].path
  }

  /** A second round of writes to the same locations makes the first one irrelevant. */
  lemma {:induction false} PutAllPutAll(j: Json, ws: seq<Update>, xs: seq<Update>)
    requires PairwiseDiverge(ws) && SamePaths(ws, xs) && Writable(j, ws)
    ensures PutAll(j, ws).Ok? && PutAll(PutAll(j, ws).value, xs) == PutAll(j, xs)
    decreases |ws|
  {
    PutAllOk(j, ws);
    if ws != [] {
      var p, x, y := ws[0].path, ws[0].value, xs[0].value;
      var a := Put(j, p, x).value;
      FirstWrite(j, ws);
      PutAllOk(a, ws[1..]);
      PutOkIffGetOk(j, p, y);
      PutPut(j, p, x, y);
      PutPastAll(a, p, y, ws[1..]);
      var b := Put(j, p, y).value;
      forall i | 0 <= i < |ws[1..]|
        ensures Get(b, ws[1..][i].path).Ok?
      {
        GetOther(j, p, y, ws[i + 1].path);
      }
      PutAllPutAll(b, ws[1..], xs[1..]);
    }
  }

  /** Writing to many locations changes nothing exactly when each is there and holds what is written to it. */
  lemma {:induction false} PutAllRestores(j: Json, ws: seq<Update>)
    requires PairwiseDiverge(ws)
    ensures PutAll(j, ws) == Ok(j) <==> forall w :: w in ws ==> Present(j, w.path) && Get(j, w.path) == Ok(w.value)
    decreases |ws|
  {
    if PutAll(j, ws) == Ok(j) {
      forall w | w in ws
        ensures Present(j, w.path) && Get(j, w.path) == Ok(w.value)
      {
        var i :| 0 <= i < |ws| && ws[i] == w;
        PutAllGet(j, ws, i);
      }
    } else if ws != [] {
      if Present(j, ws[0].path) && Get(j, ws[0].path) == Ok(ws[0].value) {
        GetPut(j, ws[0].path);
        PutAllRestores(j, ws[1..]);
      }
      assert ws[0] in ws && forall w :: w in ws[1..] ==> w in ws;
    }
  }
}
