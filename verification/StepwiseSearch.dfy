/** FindResults as the JSONPath library runs it: one step of the expression after the other, over all values found so
    far. For its callers, who skip an expression whose search fails, it finds what the depth-first search finds. */
module StepwiseSearch {
  import opened Wrappers
  import opened Json
  import opened Patterns

  /** A value found, and where. */
  type Hits = seq<(Path, Json)>

  function Paths(hits: Hits): seq<Path>
  {
    seq(|hits|, i requires 0 <= i < |hits| => hits[i].0)
  }

  /** A field of each value that has it. Null values and values of other kinds are passed over. */
  function EvalField(k: string, hits: Hits): Hits
    decreases |hits|
  {
    if hits == [] then []
    else
      var (p, j) := hits[0];
      (if j.Object? && k in j.fields then [(p + [Key(k)], j.fields[k])] else []) + EvalField(k, hits[1..])
  }

  function ItemsOf(p: Path, items: seq<Json>): Hits
  {
    seq(|items|, i requires 0 <= i < |items| => (p + [Index(i)], items[i]))
  }

  /** The items of each array. Null values are passed over, and a value of another kind is an error. */
  function EvalAll(hits: Hits): Option<Hits>
    decreases |hits|
  {
    if hits == [] then Some([])
    else
      var (p, j) := hits[0];
      var rest := EvalAll(hits[1..]);
      if rest.None? then None
      else if j.Null? then rest
      else if j.Array? then Some(ItemsOf(p, j.items) + rest.value)
      else None
  }

  /** It is an error when none of the values has the field. */
  function Eval(s: Pattern, hits: Hits): Option<Hits>
    decreases |s|
  {
    if s == [] then Some(hits)
    else match s[0]
    case Field(k) =>
      var next := EvalField(k, hits);
      if next == [] && hits != [] then None else Eval(s[1..], next)
    case All =>
      var next := EvalAll(hits);
      if next.None? then None else Eval(s[1..], next.value)
  }

  /* ---- the depth-first search, from many values ---- */

  function PrefixAll(p: Path, ps: seq<Path>): seq<Path>
  {
    seq(|ps|, i requires 0 <= i < |ps| => p + ps[i])
  }

  function Both(a: Option<seq<Path>>, b: Option<seq<Path>>): Option<seq<Path>>
  {
    if a.None? || b.None? then None else Some(a.value + b.value)
  }

  function Under(p: Path, o: Option<seq<Path>>): Option<seq<Path>>
  {
    if o.None? then None else Some(PrefixAll(p, o.value))
  }

  function Deep(s: Pattern, hits: Hits): Option<seq<Path>>
    decreases |hits|
  {
    if hits == [] then Some([]) else Both(Under(hits[0].0, Nodes(s, hits[0].1)), Deep(s, hits[1..]))
  }

  lemma BothTwice(a: Option<seq<Path>>, b: Option<seq<Path>>, c: Option<seq<Path>>)
    ensures Both(Both(a, b), c) == Both(a, Both(b, c))
    ensures Both(Some([]), a) == a == Both(a, Some([]))
  {
    if a.Some? {
      assert [] + a.value == a.value == a.value + [];
      if b.Some? && c.Some? {
        assert a.value + b.value + c.value == a.value + (b.value + c.value);
      }
    }
  }

  lemma UnderStep(p: Path, s: PathStep, o: Option<seq<Path>>)
    ensures Under(p, if o.None? then None else Some(Prefix(s, o.value))) == Under(p + [s], o)
  {
    if o.Some? {
      forall i | 0 <= i < |o.value|
        ensures p + ([s] + o.value[i]) == p + [s] + o.value[i]
      {
      }
      assert PrefixAll(p, Prefix(s, o.value)) == PrefixAll(p + [s], o.value);
    }
  }

  lemma {:induction false} DeepAppend(s: Pattern, a: Hits, b: Hits)
    ensures Deep(s, a + b) == Both(Deep(s, a), Deep(s, b))
    decreases |a|
  {
    if a == [] {
      assert a + b == b;
      BothTwice(Deep(s, b), Deep(s, b), Deep(s, b));
    } else {
      assert (a + b)[0] == a[0] && (a + b)[1..] == a[1..] + b;
      DeepAppend(s, a[1..], b);
      BothTwice(Under(a[0].0, Nodes(s, a[0].1)), Deep(s, a[1..]), Deep(s, b));
    }
  }

  lemma DeepOne(s: Pattern, p: Path, j: Json)
    ensures Deep(s, [(p, j)]) == Under(p, Nodes(s, j))
  {
    var one: Hits := [(p, j)];
    assert one[1..] == [];
    BothTwice(Under(p, Nodes(s, j)), None, None);
  }

  /** A field step, taken first. */
  lemma {:induction false} DeepField(s: Pattern, k: string, hits: Hits)
    requires s != [] && s[0] == Field(k)
    ensures Deep(s, hits) == Deep(s[1..], EvalField(k, hits))
    decreases |hits|
  {
    if hits != [] {
      var (p, j) := hits[0];
      DeepField(s, k, hits[1..]);
      if j.Object? && k in j.fields {
        var hit := (p + [Key(k)], j.fields[k]);
        UnderStep(p, Key(k), Nodes(s[1..], j.fields[k]));
        DeepAppend(s[1..], [hit], EvalField(k, hits[1..]));
        DeepOne(s[1..], p + [Key(k)], j.fields[k]);
      } else {
        assert PrefixAll(p, []) == [];
        BothTwice(Deep(s, hits[1..]), None, None);
        assert [] + EvalField(k, hits[1..]) == EvalField(k, hits[1..]);
      }
    }
  }

  lemma UnderBoth(p: Path, a: Option<seq<Path>>, b: Option<seq<Path>>)
    ensures Under(p, Both(a, b)) == Both(Under(p, a), Under(p, b))
  {
    if a.Some? && b.Some? {
      assert PrefixAll(p, a.value + b.value) == PrefixAll(p, a.value) + PrefixAll(p, b.value);
    }
  }

  /** The items of one array. */
  lemma {:induction false} DeepItems(s: Pattern, p: Path, items: seq<Json>, n: nat)
    requires n <= |items|
    ensures Under(p, Gather(ItemNodes(s, items)[..n])) == Deep(s, ItemsOf(p, items)[..n])
    decreases n
  {
    var rs, hits := ItemNodes(s, items), ItemsOf(p, items);
    if n == 0 {
      assert PrefixAll(p, []) == [];
    } else {
      DeepItems(s, p, items, n - 1);
      assert rs[..n][..n - 1] == rs[..n - 1] && rs[..n][n - 1] == rs[n - 1];
      assert hits[..n] == hits[..n - 1] + [hits[n - 1]];
      DeepAppend(s, hits[..n - 1], [hits[n - 1]]);
      DeepOne(s, p + [Index(n - 1)], items[n - 1]);
      UnderStep(p, Index(n - 1), rs[n - 1]);
      UnderBoth(p, Gather(rs[..n - 1]), if rs[n - 1].None? then None else Some(Prefix(Index(n - 1), rs[n - 1].value)));
    }
  }

  /** An item step, taken first. */
  lemma {:induction false} DeepAll(s: Pattern, hits: Hits)
    requires s != [] && s[0] == PatternStep.All
    ensures Deep(s, hits) == if EvalAll(hits).None? then None else Deep(s[1..], EvalAll(hits).value)
    decreases |hits|
  {
    if hits != [] {
      var (p, j) := hits[0];
      DeepAll(s, hits[1..]);
      if j.Null? {
        assert PrefixAll(p, []) == [];
        BothTwice(Deep(s, hits[1..]), None, None);
      } else if j.Array? {
        var items := ItemsOf(p, j.items);
        DeepItems(s[1..], p, j.items, |j.items|);
        assert items[..|items|] == items && ItemNodes(s[1..], j.items)[..|j.items|] == ItemNodes(s[1..], j.items);
        if EvalAll(hits[1..]).Some? {
          DeepAppend(s[1..], items, EvalAll(hits[1..]).value);
        }
      }
    }
  }

  /* ---- agreement ---- */

  function OrNothing(o: Option<seq<Path>>): seq<Path>
  {
    if o.None? then [] else o.value
  }

  function HitPaths(o: Option<Hits>): seq<Path>
  {
    if o.None? then [] else Paths(o.value)
  }

  lemma {:induction false} DeepHere(hits: Hits)
    ensures Deep([], hits) == Some(Paths(hits))
    decreases |hits|
  {
    if hits == [] {
      assert Paths(hits) == [];
    } else {
      DeepHere(hits[1..]);
      var here: seq<Path> := [[]];
      assert hits[0].0 + here[0] == hits[0].0;
      assert PrefixAll(hits[0].0, here) == [hits[0].0];
      assert Paths(hits) == [hits[0].0] + Paths(hits[1..]);
    }
  }

  lemma {:induction false} EvalAgrees(s: Pattern, hits: Hits)
    ensures HitPaths(Eval(s, hits)) == OrNothing(Deep(s, hits))
    decreases |s|
  {
    if s == [] {
      DeepHere(hits);
    } else {
      match s[0]
      case Field(k) =>
        DeepField(s, k, hits);
        EvalAgrees(s[1..], EvalField(k, hits));
      case All =>
        DeepAll(s, hits);
        if EvalAll(hits).Some? {
          EvalAgrees(s[1..], EvalAll(hits).value);
        }
    }
  }

  /** Each value found is the one at its place in the workload. */
  ghost predicate InPlace(j: Json, hits: Hits)
  {
    forall h :: h in hits ==> Get(j, h.0) == Ok(h.1)
  }

  lemma {:induction false} FieldsInPlace(j: Json, k: string, hits: Hits)
    requires InPlace(j, hits)
    ensures InPlace(j, EvalField(k, hits))
    decreases |hits|
  {
    if hits != [] {
      assert hits[0] in hits;
      FieldsInPlace(j, k, hits[1..]);
      GetSplit(j, hits[0].0, [Key(k)]);
      assert [Key(k)][1..] == [];
    }
  }

  lemma {:induction false} ItemsInPlace(j: Json, hits: Hits)
    requires InPlace(j, hits) && EvalAll(hits).Some?
    ensures InPlace(j, EvalAll(hits).value)
    decreases |hits|
  {
    if hits != [] {
      var (p, a) := hits[0];
      assert hits[0] in hits;
      ItemsInPlace(j, hits[1..]);
      if a.Array? {
        forall i | 0 <= i < |a.items|
          ensures Get(j, p + [Index(i)]) == Ok(a.items[i])
        {
          GetSplit(j, p, [Index(i)]);
          assert [Index(i)][1..] == [];
        }
      }
    }
  }

  lemma {:induction false} EvalInPlace(j: Json, s: Pattern, hits: Hits)
    requires InPlace(j, hits) && Eval(s, hits).Some?
    ensures InPlace(j, Eval(s, hits).value)
    decreases |s|
  {
    if s != [] {
      match s[0]
      case Field(k) =>
        FieldsInPlace(j, k, hits);
        EvalInPlace(j, s[1..], EvalField(k, hits));
      case All =>
        ItemsInPlace(j, hits);
        EvalInPlace(j, s[1..], EvalAll(hits).value);
    }
  }

  /** The library's search finds the located nodes, in the same order, and the values that are there. */
  lemma SearchAgrees(s: Pattern, j: Json)
    ensures HitPaths(Eval(s, [([], j)])) == Located(s, j)
    ensures Eval(s, [([], j)]).Some? ==> InPlace(j, Eval(s, [([], j)]).value)
  {
    if Eval(s, [([], j)]).Some? {
      EvalInPlace(j, s, [([], j)]);
    }
    EvalAgrees(s, [([], j)]);
    DeepOne(s, [], j);
    if Nodes(s, j).Some? {
      var nodes := Nodes(s, j).value;
      assert forall i :: 0 <= i < |nodes| ==> [] + nodes[i] == nodes[i];
      assert PrefixAll([], nodes) == nodes;
    }
  }
}
