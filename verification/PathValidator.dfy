/** The admission check of restricted JSONPath expressions against the code that consumes them. */
module PathValidator {
  import opened Wrappers
  import opened Json
  import opened Patterns

  /** A parsed expression: lists nest, fields are leaves, everything else is unsupported. */
  datatype Node = ListNode(nodes: seq<Node>) | FieldNode(value: string) | OtherNode(text: string)

  datatype PathError = TooManyRoots | Unsupported(text: string)

  /* ---- the consumer: fieldKeys ---- */

  /** The keys of an expression, None when some node is unsupported. */
  function FieldKeys(n: Node): Option<seq<string>>
    decreases n, 0
  {
    match n
    case ListNode(nodes) => AllFieldKeys(nodes)
    case FieldNode(value) => Some([value])
    case OtherNode(_) => None
  }

  function AllFieldKeys(ns: seq<Node>): Option<seq<string>>
    decreases ns, 1
  {
    if ns == [] then Some([])
    else
      var first, rest := FieldKeys(ns[0]), AllFieldKeys(ns[1..]);
      if first.None? || rest.None? then None else Some(first.value + rest.value)
  }

  /* ---- what the check must report ---- */

  /** The unsupported nodes reachable through lists, depth first. */
  function UnsupportedIn(n: Node): seq<string>
    decreases n, 0
  {
    match n
    case ListNode(nodes) => AllUnsupported(nodes)
    case FieldNode(_) => []
    case OtherNode(text) => [text]
  }

  function AllUnsupported(ns: seq<Node>): seq<string>
    decreases ns, 1
  {
    if ns == [] then [] else UnsupportedIn(ns[0]) + AllUnsupported(ns[1..])
  }

  /** The number of nodes, which bounds how often the worklist can grow. */
  function Size(n: Node): nat
    decreases n, 0
  {
    match n
    case ListNode(nodes) => 1 + TotalSize(nodes)
    case _ => 1
  }

  function TotalSize(ns: seq<Node>): nat
    decreases ns, 1
  {
    if ns == [] then 0 else Size(ns[0]) + TotalSize(ns[1..])
  }

  lemma {:induction false} TotalSizeAppend(a: seq<Node>, b: seq<Node>)
    ensures TotalSize(a + b) == TotalSize(a) + TotalSize(b)
  {
    if a == [] {
      assert a + b == b;
    } else {
      assert (a + b)[0] == a[0] && (a + b)[1..] == a[1..] + b;
      TotalSizeAppend(a[1..], b);
    }
  }

  lemma {:induction false} UnsupportedAppend(a: seq<Node>, b: seq<Node>)
    ensures AllUnsupported(a + b) == AllUnsupported(a) + AllUnsupported(b)
  {
    if a == [] {
      assert a + b == b;
    } else {
      assert (a + b)[0] == a[0] && (a + b)[1..] == a[1..] + b;
      UnsupportedAppend(a[1..], b);
    }
  }

  function Texts(errs: seq<PathError>): seq<string>
  {
    if errs == [] then []
    else if errs[0].Unsupported? then [errs[0].text] + Texts(errs[1..])
    else Texts(errs[1..])
  }

  lemma {:induction false} TextsAppend(a: seq<PathError>, b: seq<PathError>)
    ensures Texts(a + b) == Texts(a) + Texts(b)
  {
    if a == [] {
      assert a + b == b;
    } else {
      assert (a + b)[0] == a[0] && (a + b)[1..] == a[1..] + b;
      TextsAppend(a[1..], b);
    }
  }

  /** What is left of a worklist after its head has been visited. */
  function Visited(work: seq<Node>): seq<Node>
    requires work != []
  {
    if work[0].ListNode? then work[1..] + work[0].nodes else work[1..]
  }

  function Reported(n: Node): seq<PathError>
  {
    if n.OtherNode? then [Unsupported(n.text)] else []
  }

  /** A visit makes the worklist smaller and moves what the head reports from the list to the errors. */
  lemma VisitAccounts(work: seq<Node>)
    requires work != []
    ensures TotalSize(Visited(work)) < TotalSize(work)
    ensures multiset(AllUnsupported(work))
         == multiset(Texts(Reported(work[0]))) + multiset(AllUnsupported(Visited(work)))
    ensures |AllUnsupported(work)| == |Reported(work[0])| + |AllUnsupported(Visited(work))|
  {
    var rest := work[1..];
    match work[0] {
      case ListNode(children) =>
        TotalSizeAppend(rest, children);
        UnsupportedAppend(rest, children);
      case FieldNode(_) =>
      case OtherNode(text) =>
        assert Reported(work[0])[1..] == [];
    }
  }

  /** The errors so far and what the worklist still holds add up to what must be reported. */
  ghost predicate Accounted(root: seq<Node>, errs: seq<PathError>, work: seq<Node>)
  {
    && multiset(Texts(errs)) + multiset(AllUnsupported(work)) == multiset(AllUnsupported(root))
    && |errs| + |AllUnsupported(work)| == |AllUnsupported(root)| + (if |root| == 1 then 0 else 1)
    && (TooManyRoots in errs <==> |root| != 1)
  }

  lemma VisitKeepsAccount(root: seq<Node>, errs: seq<PathError>, work: seq<Node>)
    requires work != [] && Accounted(root, errs, work)
    ensures Accounted(root, errs + Reported(work[0]), Visited(work))
    ensures TotalSize(Visited(work)) < TotalSize(work)
  {
    VisitAccounts(work);
    TextsAppend(errs, Reported(work[0]));
  }

  lemma NextWork(nodes: seq<Node>, i: nat, children: seq<Node>)
    requires i < |nodes|
    requires children == if nodes[i].ListNode? then nodes[i].nodes else []
    ensures (nodes + children)[i + 1..] == Visited(nodes[i..])
  {
  }

  /** What one round of the loop does to the list and to the errors. */
  lemma NextVisited(root: seq<Node>, errs: seq<PathError>, nodes: seq<Node>, i: nat)
    requires i < |nodes| && Accounted(root, errs, nodes[i..])
    ensures var more := if nodes[i].ListNode? then nodes + nodes[i].nodes else nodes;
      var found := if nodes[i].OtherNode? then errs + [Unsupported(nodes[i].text)] else errs;
      Accounted(root, found, more[i + 1..]) && TotalSize(more[i + 1..]) < TotalSize(nodes[i..])
  {
    var children := if nodes[i].ListNode? then nodes[i].nodes else [];
    VisitKeepsAccount(root, errs, nodes[i..]);
    NextWork(nodes, i, children);
    assert errs + [] == errs && nodes + [] == nodes;
  }

  /** validateRestrictedJsonPath after parsing: the list grows by the children of the lists met in it. There is
      one error for a wrong number of roots and one for each unsupported node, wherever it is nested. */
  method ValidateRestrictedJsonPath(root: seq<Node>) returns (errs: seq<PathError>)
    ensures multiset(Texts(errs)) == multiset(AllUnsupported(root))
    ensures |errs| == |AllUnsupported(root)| + if |root| == 1 then 0 else 1
    ensures TooManyRoots in errs <==> |root| != 1
  {
    errs := [];
    if |root| != 1 {
      errs := errs + [TooManyRoots];
    }
    var nodes := root;
    var i := 0;
    assert nodes[0..] == nodes;
    while i < |nodes|
      invariant 0 <= i <= |nodes|
      invariant Accounted(root, errs, nodes[i..])
      decreases TotalSize(nodes[i..])
    {
      NextVisited(root, errs, nodes, i);
      match nodes[i] {
        case ListNode(children) => nodes := nodes + children;
        case FieldNode(_) =>
        case OtherNode(text) => errs := errs + [Unsupported(text)];
      }
      i := i + 1;
    }
    assert nodes[|nodes|..] == [];
  }

  lemma {:induction false} KeysExactly(n: Node)
    ensures FieldKeys(n).Some? <==> UnsupportedIn(n) == []
    decreases n, 0
  {
    if n.ListNode? {
      AllKeysExactly(n.nodes);
    }
  }

  lemma {:induction false} AllKeysExactly(ns: seq<Node>)
    ensures AllFieldKeys(ns).Some? <==> AllUnsupported(ns) == []
    decreases ns, 1
  {
    if ns != [] {
      KeysExactly(ns[0]);
      AllKeysExactly(ns[1..]);
    }
  }

  /** Validator and consumer agree: an expression is accepted exactly when it has one root and its keys can be
      extracted. */
  method Accepts(root: seq<Node>) returns (accepted: bool)
    ensures accepted <==> |root| == 1 && FieldKeys(ListNode(root)).Some?
  {
    var errs := ValidateRestrictedJsonPath(root);
    AllKeysExactly(root);
    accepted := |errs| == 0;
  }

  /* ---- what the keys mean ---- */

  /** What an expression evaluates to in a workload: a field steps into the value below it, a list is followed from left
      to right, and nothing else can be followed. */
  function Evaluate(n: Node, j: Json): Outcome<Json>
    decreases n, 0
  {
    match n
    case ListNode(nodes) => EvaluateAll(nodes, j)
    case FieldNode(value) => if j.Array? then Error else if j.Scalar? then Panic else Ok(Child(j, value))
    case OtherNode(_) => Error
  }

  function EvaluateAll(ns: seq<Node>, j: Json): Outcome<Json>
    decreases ns, 1
  {
    if ns == [] then Ok(j)
    else
      var next :- Evaluate(ns[0], j);
      EvaluateAll(ns[1..], next)
  }

  lemma KeysJoin(a: seq<string>, b: seq<string>)
    ensures Keys(a + b) == Keys(a) + Keys(b)
  {
  }

  /** The keys extracted from an expression lead where the expression leads, and fail as it fails. */
  lemma {:induction false} KeysLead(n: Node, j: Json)
    requires FieldKeys(n).Some?
    ensures Get(j, Keys(FieldKeys(n).value)) == Evaluate(n, j)
    decreases n, 0
  {
    match n
    case ListNode(nodes) => AllKeysLead(nodes, j);
    case FieldNode(value) =>
      FieldStepsTail([value]);
      assert Keys([value])[1..] == [];
  }

  lemma {:induction false} AllKeysLead(ns: seq<Node>, j: Json)
    requires AllFieldKeys(ns).Some?
    ensures Get(j, Keys(AllFieldKeys(ns).value)) == EvaluateAll(ns, j)
    decreases ns, 1
  {
    if ns == [] {
      assert Keys([]) == [];
    } else {
      var first, rest := FieldKeys(ns[0]).value, AllFieldKeys(ns[1..]).value;
      KeysLead(ns[0], j);
      KeysJoin(first, rest);
      GetSplit(j, Keys(first), Keys(rest));
      if Evaluate(ns[0], j).Ok? {
        AllKeysLead(ns[1..], Evaluate(ns[0], j).value);
      }
    }
  }

  function FieldNodes(keys: seq<string>): seq<Node>
  {
    seq(|keys|, i requires 0 <= i < |keys| => FieldNode(keys[i]))
  }

  /** The keys of a list of fields are the fields, in order. */
  lemma {:induction false} KeysOfFields(keys: seq<string>)
    ensures FieldKeys(ListNode(FieldNodes(keys))) == Some(keys) && AllFieldKeys(FieldNodes(keys)) == Some(keys)
    decreases |keys|
  {
    if keys != [] {
      assert FieldNodes(keys)[1..] == FieldNodes(keys[1..]);
      KeysOfFields(keys[1..]);
      assert FieldKeys(FieldNodes(keys)[0]) == Some([keys[0]]);
      assert [keys[0]] + keys[1..] == keys;
    }
  }

  /** An accepted expression has keys, and they lead where its one root leads. */
  lemma AcceptedLeads(root: seq<Node>, j: Json)
    requires |root| == 1 && FieldKeys(ListNode(root)).Some?
    ensures Get(j, Keys(FieldKeys(ListNode(root)).value)) == Evaluate(root[0], j)
  {
    AllKeysLead(root, j);
    assert root[1..] == [];
    assert forall v :: EvaluateAll(root[1..], v) == Ok(v);
  }

  function Leaves(n: Node): nat
    decreases n, 0
  {
    match n
    case ListNode(nodes) => AllLeaves(nodes)
    case _ => 1
  }

  function AllLeaves(ns: seq<Node>): nat
    decreases ns, 1
  {
    if ns == [] then 0 else Leaves(ns[0]) + AllLeaves(ns[1..])
  }

  /** Extraction yields one key for every leaf, so nothing of an accepted expression is dropped. */
  lemma {:induction false} KeysCoverLeaves(n: Node)
    requires FieldKeys(n).Some?
    ensures |FieldKeys(n).value| == Leaves(n)
    decreases n, 0
  {
    if n.ListNode? {
      AllKeysCoverLeaves(n.nodes);
    }
  }

  lemma {:induction false} AllKeysCoverLeaves(ns: seq<Node>)
    requires AllFieldKeys(ns).Some?
    ensures |AllFieldKeys(ns).value| == AllLeaves(ns)
    decreases ns, 1
  {
    if ns != [] {
      KeysCoverLeaves(ns[0]);
      AllKeysCoverLeaves(ns[1..]);
    }
  }
}
