/** Which workloads a binding selects: the admission webhook's answer and the controller's. */
module Selection {
  import opened Wrappers
  import opened Filtering

  datatype Selector = Selector(raw: string)

  type Labels = map<string, string>

  datatype ObjectKey = ObjectKey(group: string, kind: string, namespace: string)

  datatype Workload = Workload(key: ObjectKey, name: string, labels: Labels)

  datatype Binding = Binding(key: ObjectKey, terminating: bool, name: string, selector: Option<Selector>)

  /** Label selector evaluation, shared by both sides: whether a selector is well formed, and what it matches. */
  datatype Evaluator = Evaluator(parses: Selector -> bool, matches: (Selector, Labels) -> bool)

  predicate SelectorMatches(e: Evaluator, s: Option<Selector>, labels: Labels)
  {
    s.Some? && e.parses(s.value) && e.matches(s.value, labels)
  }

  /* ---- the webhook ---- */

  predicate Active(e: Evaluator, b: Binding, w: Workload)
  {
    !b.terminating && (b.name == w.name || SelectorMatches(e, b.selector, w.labels))
  }

  function ActiveFor(e: Evaluator, w: Workload): Binding -> bool
  {
    (b: Binding) => Active(e, b, w)
  }

  /** The selection loop of the admission webhook over the bindings listed for the workload's group, kind and
      namespace: those that are not being deleted, and name the workload or carry a well-formed selector that
      matches it. */
  method ActiveBindings(e: Evaluator, listed: seq<Binding>, w: Workload) returns (active: seq<Binding>)
    ensures active == Filter(ActiveFor(e, w), listed)
    ensures forall b :: b in active ==> !b.terminating
    ensures forall b :: b in active <==>
              && b in listed && !b.terminating
              && (b.name == w.name
                  || (b.selector.Some? && e.parses(b.selector.value) && e.matches(b.selector.value, w.labels)))
  {
    active := [];
    for i := 0 to |listed|
      invariant active == Filter(ActiveFor(e, w), listed[..i])
    {
      var sb := listed[i];
      FilterNext(ActiveFor(e, w), listed, i);
      if sb.terminating {
        continue;
      }
      if sb.name == w.name {
        active := active + [sb];
        continue;
      }
      if sb.selector.Some? {
        if !e.parses(sb.selector.value) {
          continue;
        }
        if e.matches(sb.selector.value, w.labels) {
          active := active + [sb];
          continue;
        }
      }
    }
    assert listed[..|listed|] == listed;
    forall b
      ensures b in active <==> b in listed && Active(e, b, w)
    {
      FilterMember(ActiveFor(e, w), listed, b);
    }
  }

  /* ---- the controller ---- */

  /** The named object of a kind in a namespace. */
  method Get(cluster: seq<Workload>, key: ObjectKey, name: string) returns (r: Option<Workload>)
    ensures r.Some? ==> r.value in cluster && r.value.key == key && r.value.name == name
    ensures r.None? ==> forall w :: w in cluster ==> !(w.key == key && w.name == name)
  {
    for i := 0 to |cluster|
      invariant forall w :: w in cluster[..i] ==> !(w.key == key && w.name == name)
    {
      assert cluster[..i + 1] == cluster[..i] + [cluster[i]];
      if cluster[i].key == key && cluster[i].name == name {
        return Some(cluster[i]);
      }
    }
    assert cluster[..|cluster|] == cluster;
    r := None;
  }

  /** Names are unique within a kind and namespace. */
  ghost predicate UniqueNames(cluster: seq<Workload>)
  {
    forall v, w :: v in cluster && w in cluster && v.key == w.key && v.name == w.name ==> v == w
  }

  /** What LookupWorkloads selects. A binding with neither a name nor a selector selects nothing. */
  predicate Selects(e: Evaluator, b: Binding, w: Workload)
  {
    w.key == b.key && if b.name != "" then b.name == w.name else SelectorMatches(e, b.selector, w.labels)
  }

  function SelectedBy(e: Evaluator, b: Binding): Workload -> bool
  {
    (w: Workload) => Selects(e, b, w)
  }

  /** LookupWorkloads: by name when there is one, by selector otherwise. Only a lookup by name can fail to find. */
  method LookupWorkloads(e: Evaluator, cluster: seq<Workload>, b: Binding) returns (r: Outcome<seq<Workload>>)
    requires UniqueNames(cluster)
    ensures !r.Panic?
    ensures r.Ok? ==> forall w :: w in r.value <==> w in cluster && Selects(e, b, w)
    ensures r.Ok? ==> forall w :: w in r.value ==>
              && w.key == b.key
              && (if b.name != "" then w.name == b.name
                  else b.selector.Some? && e.parses(b.selector.value) && e.matches(b.selector.value, w.labels))
    ensures r.Ok? ==> if b.name != "" then |r.value| == 1 else r.value == Filter(SelectedBy(e, b), cluster)
    ensures r.Error? <==>
      if b.name != "" then forall w :: w in cluster ==> !Selects(e, b, w)
      else b.selector.Some? && !e.parses(b.selector.value)
  {
    if b.name != "" {
      var found := Get(cluster, b.key, b.name);
      if found.None? {
        return Error;
      }
      return Ok([found.value]);
    }
    if b.selector.Some? && !e.parses(b.selector.value) {
      return Error;
    }
    var result: seq<Workload> := [];
    for i := 0 to |cluster|
      invariant result == Filter(SelectedBy(e, b), cluster[..i])
    {
      var w := cluster[i];
      FilterNext(SelectedBy(e, b), cluster, i);
      if w.key == b.key && b.selector.Some? && e.matches(b.selector.value, w.labels) {
        result := result + [w];
      }
    }
    assert cluster[..|cluster|] == cluster;
    forall w
      ensures w in result <==> w in cluster && Selects(e, b, w)
    {
      FilterMember(SelectedBy(e, b), cluster, w);
    }
    r := Ok(result);
  }

  /* ---- agreement ---- */

  /** What ServiceBindingWorkloadReference.validate accepts: exactly one of a name and a well-formed selector. */
  predicate Validated(e: Evaluator, b: Binding)
  {
    && !(b.name == "" && b.selector.None?)
    && !(b.name != "" && b.selector.Some?)
    && (b.selector.Some? ==> e.parses(b.selector.value))
  }

  /** The two sides disagree about a workload in exactly two cases, both for a binding that is not being deleted: one
      that names another workload also carries a selector that matches, or neither the binding nor the workload has a
      name and the selector does not match. */
  lemma AgreementExactly(e: Evaluator, b: Binding, w: Workload)
    requires b.key == w.key
    ensures (Active(e, b, w) <==> !b.terminating && Selects(e, b, w))
       <==> || b.terminating
            || (&& !(b.name != "" && b.name != w.name && SelectorMatches(e, b.selector, w.labels))
                && !(b.name == "" && w.name == "" && !SelectorMatches(e, b.selector, w.labels)))
  {
  }

  /** So a workload that is in the cluster, under its name, is projected into by the webhook exactly for the validated
      bindings whose controller finds it and is to project, not to withdraw. */
  method SidesAgree(e: Evaluator, cluster: seq<Workload>, listed: seq<Binding>, b: Binding, w: Workload)
    returns (active: seq<Binding>, found: Outcome<seq<Workload>>)
    requires UniqueNames(cluster) && w in cluster && w.name != ""
    requires b in listed && b.key == w.key && Validated(e, b)
    ensures b in active <==> found.Ok? && w in found.value && !b.terminating
  {
    active := ActiveBindings(e, listed, w);
    found := LookupWorkloads(e, cluster, b);
    AgreementExactly(e, b, w);
  }
}
