/** Container paths: expressions of field steps and `[*]` that match any number of nodes. */
module Patterns {
  import opened Wrappers
  import opened Json

  datatype PatternStep = Field(name: string) | All

  type Pattern = seq<PatternStep>

  function Prefix(s: PathStep, ps: seq<Path>): seq<Path>
  {
    seq(|ps|, i requires 0 <= i < |ps| => [s] + ps[i])
  }

  /** The results of the items of an array, in order; one failed item fails the search. */
  function Gather(rs: seq<Option<seq<Path>>>): Option<seq<Path>>
    decreases |rs|
  {
    if rs == [] then Some([])
    else
      var n := |rs| - 1;
      var before := Gather(rs[..n]);
      if before.None? || rs[n].None? then None else Some(before.value + Prefix(Index(n), rs[n].value))
  }

  /** FindResults: where the nodes are that an expression matches. Missing and null nodes match nothing; `[*]`
      on something that is not an array fails the whole search. */
  function Nodes(s: Pattern, j: Json): Option<seq<Path>>
    decreases |s|, 0
  {
    if s == [] then Some([[]])
    else match s[0]
    case Field(k) =>
      if j.Object? && k in j.fields then
        var below := Nodes(s[1..], j.fields[k]);
        if below.None? then None else Some(Prefix(Key(k), below.value))
      else Some([])
    case All =>
      if j.Null? then Some([])
      else if j.Array? then Gather(ItemNodes(s[1..], j.items))
      else None
  }

  function ItemNodes(s: Pattern, items: seq<Json>): seq<Option<seq<Path>>>
    decreases |s|, 1
  {
    seq(|items|, i requires 0 <= i < |items| => Nodes(s, items[i]))
  }

  /** The callers skip an expression whose search fails. */
  function Located(s: Pattern, j: Json): seq<Path>
  {
    if Nodes(s, j).None? then [] else Nodes(s, j).value
  }

  function FieldSteps(keys: seq<string>): Pattern
  {
    seq(|keys|, i requires 0 <= i < |keys| => Field(keys[i]))
  }

  function Keys(keys: seq<string>): Path
  {
    seq(|keys|, i requires 0 <= i < |keys| => Key(keys[i]))
  }

  predicate StepMatches(s: PatternStep, p: PathStep)
  {
    match s
    case Field(k) => p == Key(k)
    case All => p.Index?
  }

  predicate Matches(s: Pattern, p: Path)
  {
    |s| == |p| && forall i :: 0 <= i < |s| ==> StepMatches(s[i], p[i])
  }

  /** The two expressions can never reach the same or nested nodes: at some field they name different keys. */
  predicate Apart(s: Pattern, t: Pattern)
    decreases |s|
  {
    s != [] && t != [] &&
    match (s[0], t[0])
    case (Field(a), Field(b)) => a != b || Apart(s[1..], t[1..])
    case (All, All) => Apart(s[1..], t[1..])
    case (_, _) => false
  }

  /** A location the expression can never reach, nor pass through to reach its nodes. */
  predicate Misses(s: Pattern, p: Path)
    decreases |s|
  {
    s != [] && p != [] &&
    match (s[0], p[0])
    case (Field(a), Key(b)) => a != b || Misses(s[1..], p[1..])
    case (All, Index(_)) => Misses(s[1..], p[1..])
    case (_, _) => false
  }

  /** A node that is there and not null. */
  predicate Solid(j: Json, p: Path)
  {
    Get(j, p).Ok? && Get(j, p).value != Null
  }

  /* ---- expressions and locations ---- */

  lemma {:induction false} ApartMisses(s: Pattern, t: Pattern, p: Path)
    requires Apart(s, t) && Matches(t, p)
    ensures Misses(s, p)
    decreases |s|
  {
    assert StepMatches(t[0], p[0]);
    if !(s[0].Field? && t[0].Field? && s[0].name != t[0].name) {
      ApartMisses(s[1..], t[1..], p[1..]);
    }
  }

  /** An expression that part of it keeps apart from another is apart itself, unless the other one continues it. */
  lemma {:induction false} ApartOrPrefix(s: Pattern, u: Pattern, t: Pattern)
    requires Apart(t, s + u)
    ensures Apart(s, t) || (s <= t && |s| < |t|)
    decreases |s|
  {
    if s != [] {
      assert (s + u)[1..] == s[1..] + u;
      if !(s[0].Field? && t[0].Field? && s[0].name != t[0].name) {
        ApartOrPrefix(s[1..], u, t[1..]);
      }
    }
  }

  lemma {:induction false} MissesDiverges(s: Pattern, p: Path, q: Path)
    requires Misses(s, q) && Matches(s, p)
    ensures Diverge(p, q)
    decreases |s|
  {
    assert StepMatches(s[0], p[0]);
    if p[0] == q[0] {
      MissesDiverges(s[1..], p[1..], q[1..]);
    }
  }

  lemma ApartDiverges(s: Pattern, t: Pattern, p: Path, q: Path)
    requires Apart(s, t) && Matches(s, p) && Matches(t, q)
    ensures Diverge(p, q)
  {
    ApartMisses(s, t, q);
    MissesDiverges(s, p, q);
  }

  lemma {:induction false} ApartSymmetric(s: Pattern, t: Pattern)
    ensures Apart(s, t) <==> Apart(t, s)
    decreases |s|
  {
    if s != [] && t != [] && (s[0].All? <==> t[0].All?) {
      ApartSymmetric(s[1..], t[1..]);
    }
  }

  lemma {:induction false} SamePatternDiverges(s: Pattern, p: Path, q: Path)
    requires Matches(s, p) && Matches(s, q)
    ensures p == q || Diverge(p, q)
    decreases |s|
  {
    if s != [] {
      assert StepMatches(s[0], p[0]) && StepMatches(s[0], q[0]);
      assert p == [p[0]] + p[1..] && q == [q[0]] + q[1..];
      SamePatternDiverges(s[1..], p[1..], q[1..]);
    }
  }

  lemma {:induction false} DivergeExtends(p: Path, q: Path, r: Path, t: Path)
    requires Diverge(p, q)
    ensures Diverge(p + r, q + t)
    decreases |p|
  {
    assert (p + r)[0] == p[0] && (q + t)[0] == q[0];
    assert (p + r)[1..] == p[1..] + r && (q + t)[1..] == q[1..] + t;
    if p[0] == q[0] {
      DivergeExtends(p[1..], q[1..], r, t);
    }
  }

  lemma {:induction false} GetSplit(j: Json, p: Path, q: Path)
    ensures Get(j, p + q) == if Get(j, p).Ok? then Get(Get(j, p).value, q) else Get(j, p)
    decreases |p|
  {
    if p == [] {
      assert p + q == q;
    } else {
      assert (p + q)[0] == p[0] && (p + q)[1..] == p[1..] + q;
      match p[0]
      case Key(k) => GetSplit(Child(j, k), p[1..], q);
      case Index(i) =>
        if j.Array? && i < |j.items| {
          GetSplit(j.items[i], p[1..], q);
        }
    }
  }

  lemma {:induction false} NullHasNothing(p: Path)
    ensures !Solid(Null, p)
    decreases |p|
  {
    if p != [] && p[0].Key? {
      NullHasNothing(p[1..]);
    }
  }

  lemma SolidPrefix(j: Json, p: Path, n: nat)
    requires Solid(j, p) && n <= |p|
    ensures Solid(j, p[..n])
  {
    assert p == p[..n] + p[n..];
    GetSplit(j, p[..n], p[n..]);
    if Get(j, p[..n]).Ok? {
      NullHasNothing(p[n..]);
    }
  }

  /** A node stays there through a write below it or beside it. */
  lemma {:induction false} SolidAfterPut(j: Json, p: Path, x: Json, q: Path)
    requires Put(j, p, x).Ok? && Solid(j, q)
    requires Diverge(p, q) || (|q| < |p| && p[..|q|] == q)
    ensures Solid(Put(j, p, x).value, q)
    decreases |q|
  {
    if Diverge(p, q) {
      GetOther(j, p, x, q);
    } else if q != [] {
      assert p[0] == q[0] && p[1..][..|q| - 1] == q[1..];
      match p[0]
      case Key(k) => SolidAfterPut(Child(j, k), p[1..], x, q[1..]);
      case Index(i) => SolidAfterPut(j.items[i], p[1..], x, q[1..]);
    }
  }

  lemma {:induction false} SolidIsPresent(j: Json, p: Path)
    requires Solid(j, p)
    ensures Present(j, p)
    decreases |p|
  {
    if p != [] {
      match p[0]
      case Key(k) =>
        if !(j.Object? && k in j.fields) {
          NullHasNothing(p[1..]);
        }
        SolidIsPresent(Child(j, k), p[1..]);
      case Index(i) => SolidIsPresent(j.items[i], p[1..]);
    }
  }

  /* ---- nodes found ---- */

  lemma FieldStepsTail(keys: seq<string>)
    requires keys != []
    ensures FieldSteps(keys)[1..] == FieldSteps(keys[1..])
    ensures Keys(keys)[0] == Key(keys[0]) && Keys(keys)[1..] == Keys(keys[1..])
    ensures Keys(keys) == [Key(keys[0])] + Keys(keys[1..])
  {
  }

  /** Below null there is nothing but null. */
  lemma {:induction false} NullThroughout(keys: seq<string>)
    ensures Get(Null, Keys(keys)) == Ok(Null)
    decreases |keys|
  {
    if keys != [] {
      FieldStepsTail(keys);
      NullThroughout(keys[1..]);
    }
  }

  /** An expression of fields finds the one location it names, when it is there. */
  lemma {:induction false} FieldNode(keys: seq<string>, j: Json)
    ensures Nodes(FieldSteps(keys), j) == Some(if Present(j, Keys(keys)) then [Keys(keys)] else [])
    decreases |keys|
  {
    if keys == [] {
      assert Keys(keys) == [];
    } else {
      FieldStepsTail(keys);
      if j.Object? && keys[0] in j.fields {
        FieldNode(keys[1..], j.fields[keys[0]]);
        if Present(j, Keys(keys)) {
          assert Prefix(Key(keys[0]), [Keys(keys[1..])]) == [Keys(keys)];
        } else {
          assert Prefix(Key(keys[0]), []) == [];
        }
      }
    }
  }

  lemma {:induction false} GatherMember(rs: seq<Option<seq<Path>>>, p: Path)
    requires Gather(rs).Some? && p in Gather(rs).value
    ensures p != [] && p[0].Index? && p[0].i < |rs| && rs[p[0].i].Some? && p[1..] in rs[p[0].i].value
    decreases |rs|
  {
    var n := |rs| - 1;
    var before, last := Gather(rs[..n]).value, rs[n].value;
    if p in before {
      GatherMember(rs[..n], p);
    } else {
      var i :| 0 <= i < |last| && p == [Index(n)] + last[i];
      assert p[1..] == last[i];
    }
  }

  /** A node found matches the expression and can be read. */
  lemma {:induction false} NodeFound(s: Pattern, j: Json, p: Path)
    requires Nodes(s, j).Some? && p in Nodes(s, j).value
    ensures Matches(s, p) && Get(j, p).Ok?
    decreases |s|
  {
    if s != [] {
      match s[0]
      case Field(k) =>
        var below := Nodes(s[1..], j.fields[k]).value;
        var i :| 0 <= i < |below| && p == [Key(k)] + below[i];
        assert p[1..] == below[i];
        NodeFound(s[1..], j.fields[k], p[1..]);
      case All =>
        GatherMember(ItemNodes(s[1..], j.items), p);
        NodeFound(s[1..], j.items[p[0].i], p[1..]);
    }
  }

  lemma PrefixDistinct(s: PathStep, ps: seq<Path>)
    requires forall i, k :: 0 <= i < k < |ps| ==> ps[i] != ps[k]
    ensures forall i, k :: 0 <= i < k < |Prefix(s, ps)| ==> Prefix(s, ps)[i] != Prefix(s, ps)[k]
  {
    forall i, k | 0 <= i < k < |ps|
      ensures [s] + ps[i] != [s] + ps[k]
    {
      assert ([s] + ps[i])[1..] == ps[i] && ([s] + ps[k])[1..] == ps[k];
    }
  }

  lemma {:induction false} GatherDistinct(rs: seq<Option<seq<Path>>>)
    requires Gather(rs).Some?
    requires forall n :: 0 <= n < |rs| && rs[n].Some? ==>
      forall i, k :: 0 <= i < k < |rs[n].value| ==> rs[n].value[i] != rs[n].value[k]
    ensures forall i, k :: 0 <= i < k < |Gather(rs).value| ==> Gather(rs).value[i] != Gather(rs).value[k]
    decreases |rs|
  {
    if rs != [] {
      var n := |rs| - 1;
      GatherDistinct(rs[..n]);
      PrefixDistinct(Index(n), rs[n].value);
      var before := Gather(rs[..n]).value;
      forall i | 0 <= i < |before|
        ensures before[i] != [] && before[i][0] != Index(n)
      {
        GatherMember(rs[..n], before[i]);
      }
    }
  }

  /** No node is found twice. */
  lemma {:induction false} NodesDistinct(s: Pattern, j: Json)
    requires Nodes(s, j).Some?
    ensures forall i, k :: 0 <= i < k < |Nodes(s, j).value| ==> Nodes(s, j).value[i] != Nodes(s, j).value[k]
    decreases |s|
  {
    if s != [] {
      match s[0]
      case Field(k) =>
        if j.Object? && k in j.fields {
          NodesDistinct(s[1..], j.fields[k]);
          PrefixDistinct(Key(k), Nodes(s[1..], j.fields[k]).value);
        }
      case All =>
        if j.Array? {
          var rs := ItemNodes(s[1..], j.items);
          forall n | 0 <= n < |rs| && rs[n].Some?
            ensures forall i, k :: 0 <= i < k < |rs[n].value| ==> rs[n].value[i] != rs[n].value[k]
          {
            NodesDistinct(s[1..], j.items[n]);
          }
          GatherDistinct(rs);
        }
    }
  }

  /** Two nodes found by one expression lie beside each other. */
  lemma NodesDiverge(s: Pattern, j: Json, i: nat, k: nat)
    requires i < k < |Located(s, j)|
    ensures Diverge(Located(s, j)[i], Located(s, j)[k])
  {
    NodesDistinct(s, j);
    NodeFound(s, j, Located(s, j)[i]);
    NodeFound(s, j, Located(s, j)[k]);
    SamePatternDiverges(s, Located(s, j)[i], Located(s, j)[k]);
  }

  /* ---- the search is stable under the writes that follow it ---- */

  /** Writing at `p` neither creates nor destroys a node on the way of the expression. */
  predicate Calm(s: Pattern, j: Json, p: Path)
  {
    Misses(s, p) || (|s| < |p| && Matches(s, p[..|s|]) && Solid(j, p[..|s|]))
  }

  lemma {:induction false} NothingInNull(s: Pattern, p: Path, x: Json)
    requires Misses(s, p) && Put(Null, p, x).Ok?
    ensures Nodes(s, Null) == Some([]) == Nodes(s, Put(Null, p, x).value)
    decreases |s|
  {
    if s[0].Field? && p[0] == Key(s[0].name) {
      NothingInNull(s[1..], p[1..], x);
      assert Put(Null, p, x).value.fields[s[0].name] == Put(Null, p[1..], x).value;
      assert Prefix(p[0], []) == [];
    }
  }

  lemma CalmInNull(s: Pattern, p: Path)
    requires Calm(s, Null, p)
    ensures Misses(s, p)
  {
    if !Misses(s, p) {
      NullHasNothing(p[..|s|]);
    }
  }

  lemma CalmBelow(s: Pattern, j: Json, p: Path)
    requires s != [] && Calm(s, j, p)
    ensures p != []
    ensures s[0].All? ==> p[0].Index?
    ensures s[0].Field? ==> p[0].Key?
    ensures s[0].Field? && p[0] == Key(s[0].name) ==> Calm(s[1..], Child(j, s[0].name), p[1..])
    ensures s[0].All? && j.Array? && p[0].i < |j.items| ==> Calm(s[1..], j.items[p[0].i], p[1..])
  {
    if !Misses(s, p) {
      assert StepMatches(s[0], p[..|s|][0]);
      assert p[..|s|][1..] == p[1..][..|s| - 1];
      forall i | 0 <= i < |s| - 1
        ensures StepMatches(s[1..][i], p[1..][..|s| - 1][i])
      {
        assert StepMatches(s[i + 1], p[..|s|][i + 1]);
      }
    }
  }

  /** The nodes an expression finds are the same before and after a calm write. */
  lemma {:induction false} NodesStable(s: Pattern, j: Json, p: Path, x: Json)
    requires Put(j, p, x).Ok? && Calm(s, j, p)
    ensures Nodes(s, Put(j, p, x).value) == Nodes(s, j)
    decreases |s|
  {
    if s != [] {
      var r := Put(j, p, x).value;
      match s[0]
      case Field(k) =>
        CalmBelow(s, j, p);
        if p[0] == Key(k) {
          if j.Object? && k in j.fields {
            NodesStable(s[1..], j.fields[k], p[1..], x);
          } else {
            assert Child(j, k) == Null;
            CalmInNull(s[1..], p[1..]);
            NothingInNull(s[1..], p[1..], x);
            assert Prefix(Key(k), []) == [];
          }
        }
      case All =>
        CalmBelow(s, j, p);
        var i := p[0].i;
        NodesStable(s[1..], j.items[i], p[1..], x);
        assert ItemNodes(s[1..], r.items) == ItemNodes(s[1..], j.items);
    }
  }
}
