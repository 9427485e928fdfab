/** In which order bindings are projected, and exactly when the result shows it. */
module Orders {
  import opened Wrappers
  import opened Bindings
  import opened Names
  import opened Filtering
  import opened Ordering
  import opened StableSort
  import opened Projection
  import opened EnvLaws
  import opened ContainerLaws
  import opened TemplateLaws
  import opened Runs

  /* ---- what a container shows of the order ---- */

  /** The variables of one name that two bindings add. */
  function Contested(b: ServiceBinding, d: ServiceBinding, name: string): set<EnvVar>
  {
    set e | e in EnvAdditions(b) + EnvAdditions(d) && e.name == name
  }

  function Among(es: set<EnvVar>): EnvVar -> bool
  {
    (e: EnvVar) => e in es
  }

  function Shown(es: set<EnvVar>, env: seq<EnvVar>): seq<EnvVar>
  {
    Filter(Among(es), env)
  }

  /** Two bindings with secrets of their own that both add variables of one name. */
  ghost predicate Rivals(t: Tenancy, b: ServiceBinding, d: ServiceBinding, name: string)
  {
    && Respects(t, b) && Respects(t, d) && b.uid != d.uid
    && SecretName(b) != "" && SecretName(d) != ""
    && (exists m :: m in b.env && m.name == name)
    && (exists m :: m in d.env && m.name == name)
  }

  lemma RivalsSwap(b: ServiceBinding, d: ServiceBinding, name: string)
    ensures Contested(b, d, name) == Contested(d, b, name)
  {
  }

  /** No binding adds what another one adds. */
  lemma AdditionsDiffer(t: Tenancy, b: ServiceBinding, d: ServiceBinding, e: EnvVar)
    requires Respects(t, b) && Respects(t, d) && b.uid != d.uid && SecretName(b) != "" && SecretName(d) != ""
    requires e in EnvAdditions(b)
    ensures e !in EnvAdditions(d)
  {
    if e in EnvAdditions(d) {
      AdditionsShape(d, e);
      AdditionsForeign(b, d.uid, SecretName(d), e);
    }
  }

  /** Unprojecting a binding removes all that it may have added. */
  lemma AdditionsOwned(t: Tenancy, b: ServiceBinding, v: PodTemplate, i: nat, e: EnvVar)
    requires Admissible(t, v) && Respects(t, b) && SecretName(b) != ""
    requires i < |v.containers| && e in v.containers[i].env && e in EnvAdditions(b)
    ensures EnvOwned(b.uid, LookupSecret(v.annotations, b.uid), e)
  {
    AdditionsShape(b, e);
    assert EnvAdmissible(t, v.annotations, e);
  }

  lemma ContestedIsRanked(t: Tenancy, b: ServiceBinding, d: ServiceBinding, name: string, v: PodTemplate, i: nat,
                          e: EnvVar)
    requires Admissible(t, v) && Rivals(t, b, d, name)
    requires i < |v.containers| && e in v.containers[i].env && e in Contested(b, d, name)
    ensures EnvRank(KnownSecrets(v.annotations))(e) == Named(name)
  {
    var x := if e in EnvAdditions(b) then b else d;
    AdditionsShape(x, e);
    PrefixesRecognise(x.uid);
    assert EnvAdmissible(t, v.annotations, e);
    if RefersTo(e, SecretName(x)) {
      assert SecretAnnotation(x.uid) in v.annotations && v.annotations[SecretAnnotation(x.uid)] == SecretName(x);
      AdditionsAreProjected(x, KnownSecrets(v.annotations), e);
    } else {
      var k :| 0 <= k < |x.env| && e == EnvFor(x, x.env[k]);
    }
  }

  lemma NoRootContested(b: ServiceBinding, d: ServiceBinding, name: string)
    ensures DefaultRoot() !in Contested(b, d, name)
  {
    if DefaultRoot() in Contested(b, d, name) {
      AdditionsShape(if DefaultRoot() in EnvAdditions(b) then b else d, DefaultRoot());
    }
  }

  lemma ShownInTurn(es: set<EnvVar>, env: seq<EnvVar>, added: seq<EnvVar>)
    requires DefaultRoot() !in es
    ensures Shown(es, WithRoot(env) + added) == Shown(es, env) + Shown(es, added)
  {
    FilterAppend(Among(es), WithRoot(env), added);
    FilterAppend(Among(es), env, [DefaultRoot()]);
    FilterNone(Among(es), [DefaultRoot()]);
  }

  /** Variables of one rank stay in order of arrival. */
  lemma SortKeepsArrival(es: set<EnvVar>, x: ServiceBinding, known: set<string>, env: seq<EnvVar>, name: string)
    requires DefaultRoot() !in es
    requires forall e :: e in es && e in ProjectEnv(x, known, WithRoot(env)) ==> EnvRank(known)(e) == Named(name)
    ensures Shown(es, ProjectEnv(x, known, WithRoot(env))) == Shown(es, env) + Shown(es, EnvAdditions(x))
  {
    var all := WithRoot(env) + EnvAdditions(x);
    forall e | e in all && e in es
      ensures EnvRank(known)(e) == Named(name)
    {
      SortMember(EnvRank(known), all, e);
    }
    OneRankSorted(EnvRank(known), Among(es), all, Named(name));
    ShownInTurn(es, env, EnvAdditions(x));
  }

  /** Projecting adds to the end of what a container shows. */
  lemma AddShows(t: Tenancy, b: ServiceBinding, d: ServiceBinding, name: string, x: ServiceBinding, v: PodTemplate,
                 i: nat)
    requires Admissible(t, v) && Rivals(t, b, d, name) && Respects(t, x) && SecretName(x) != ""
    requires i < |v.containers| && Bindable(x, v.containers[i].name)
    ensures |Project(x, v).containers| == |v.containers|
    ensures Shown(Contested(b, d, name), Project(x, v).containers[i].env)
         == Shown(Contested(b, d, name), Unproject(x.uid, v).containers[i].env)
            + Shown(Contested(b, d, name), EnvAdditions(x))
  {
    var w, u := Project(x, v), Unproject(x.uid, v);
    ProjectAdmissible(t, x, v);
    NoRootContested(b, d, name);
    forall e | e in Contested(b, d, name) && e in w.containers[i].env
      ensures EnvRank(KnownSecrets(w.annotations))(e) == Named(name)
    {
      ContestedIsRanked(t, b, d, name, w, i, e);
    }
    SortKeepsArrival(Contested(b, d, name), x, KnownSecrets(w.annotations), u.containers[i].env, name);
  }

  /** What a container shows after a projection: what the removal leaves, then what the binding adds. */
  lemma ProjectShows(t: Tenancy, b: ServiceBinding, d: ServiceBinding, name: string, x: ServiceBinding, v: PodTemplate,
                     i: nat)
    requires Admissible(t, v) && Rivals(t, b, d, name) && Respects(t, x) && i < |v.containers|
    ensures |Project(x, v).containers| == |v.containers|
    ensures Shown(Contested(b, d, name), Project(x, v).containers[i].env)
         == Filter(Kept(x.uid, LookupSecret(v.annotations, x.uid)),
                   Shown(Contested(b, d, name), v.containers[i].env))
            + if SecretName(x) != "" && Bindable(x, v.containers[i].name)
              then Shown(Contested(b, d, name), EnvAdditions(x)) else []
  {
    FilterCommutes(Among(Contested(b, d, name)), Kept(x.uid, LookupSecret(v.annotations, x.uid)), v.containers[i].env);
    if SecretName(x) != "" {
      ProjectedContainerAt(x, v, i);
      if Bindable(x, v.containers[i].name) {
        AddShows(t, b, d, name, x, v, i);
      }
    }
  }

  /** The steps are all of other bindings. */
  ghost predicate Others(steps: seq<Step>, u: string, w: string)
  {
    forall k :: 0 <= k < |steps| ==> steps[k].Uid() != u && steps[k].Uid() != w
  }

  /** The projection or removal of a third binding changes nothing of it. */
  lemma BystanderShows(t: Tenancy, b: ServiceBinding, d: ServiceBinding, name: string, x: ServiceBinding,
                       v: PodTemplate, i: nat)
    requires Admissible(t, v) && Rivals(t, b, d, name) && Respects(t, x) && i < |v.containers|
    requires x.uid != b.uid && x.uid != d.uid
    ensures |Project(x, v).containers| == |v.containers|
    ensures Shown(Contested(b, d, name), Project(x, v).containers[i].env)
         == Shown(Contested(b, d, name), v.containers[i].env)
  {
    var es, recorded := Contested(b, d, name), LookupSecret(v.annotations, x.uid);
    var shown := Shown(es, v.containers[i].env);
    ProjectShows(t, b, d, name, x, v, i);
    SecretsApart(t, b, x.uid, v);
    SecretsApart(t, d, x.uid, v);
    forall e | e in shown
      ensures Kept(x.uid, recorded)(e)
    {
      FilterMember(Among(es), v.containers[i].env, e);
      AdditionsForeign(if e in EnvAdditions(b) then b else d, x.uid, recorded, e);
    }
    FilterAll(Kept(x.uid, recorded), shown);
    if SecretName(x) != "" {
      forall e | e in EnvAdditions(x)
        ensures e !in es
      {
        AdditionsDiffer(t, x, b, e);
        AdditionsDiffer(t, x, d, e);
      }
      FilterNone(Among(es), EnvAdditions(x));
    }
  }

  lemma {:induction false} BystandersShow(t: Tenancy, b: ServiceBinding, d: ServiceBinding, name: string,
                                          steps: seq<Step>, v: PodTemplate, i: nat)
    requires Admissible(t, v) && Rivals(t, b, d, name) && AllRespect(t, steps) && i < |v.containers|
    requires Others(steps, b.uid, d.uid)
    ensures |Run(steps, v).containers| == |v.containers|
    ensures Shown(Contested(b, d, name), Run(steps, v).containers[i].env)
         == Shown(Contested(b, d, name), v.containers[i].env)
  {
    if steps != [] {
      var n := |steps| - 1;
      BystandersShow(t, b, d, name, steps[..n], v, i);
      RunAdmissible(t, steps[..n], v);
      BystanderShows(t, b, d, name, Effect(steps[n]), Run(steps[..n], v), i);
    }
  }

  /** What a rival adds comes last, and what it added before is gone. */
  lemma RivalShows(t: Tenancy, b: ServiceBinding, d: ServiceBinding, name: string, v: PodTemplate, i: nat)
      returns (rest: seq<EnvVar>)
    requires Admissible(t, v) && Rivals(t, b, d, name) && i < |v.containers| && Bindable(b, v.containers[i].name)
    ensures |Project(b, v).containers| == |v.containers|
    ensures Shown(Contested(b, d, name), Project(b, v).containers[i].env)
         == rest + Shown(Contested(b, d, name), EnvAdditions(b))
    ensures forall e :: e in rest ==> e in EnvAdditions(d)
  {
    var es, kept := Contested(b, d, name), Kept(b.uid, LookupSecret(v.annotations, b.uid));
    ProjectShows(t, b, d, name, b, v, i);
    rest := Filter(kept, Shown(es, v.containers[i].env));
    forall e | e in rest
      ensures e in EnvAdditions(d)
    {
      FilterMember(kept, Shown(es, v.containers[i].env), e);
      FilterMember(Among(es), v.containers[i].env, e);
      if e in EnvAdditions(b) {
        AdditionsOwned(t, b, v, i, e);
      }
    }
  }

  lemma FromRival(b: ServiceBinding, d: ServiceBinding, name: string)
    ensures forall e :: e in Shown(Contested(b, d, name), EnvAdditions(b)) ==> e in EnvAdditions(b)
  {
    forall e | e in Shown(Contested(b, d, name), EnvAdditions(b))
      ensures e in EnvAdditions(b)
    {
      FilterMember(Among(Contested(b, d, name)), EnvAdditions(b), e);
    }
  }

  /** Removing one rival leaves what the other one adds. */
  lemma RivalKept(t: Tenancy, b: ServiceBinding, d: ServiceBinding, name: string, v: PodTemplate)
    requires Admissible(t, v) && Rivals(t, b, d, name)
    ensures var added := Shown(Contested(b, d, name), EnvAdditions(b));
      Filter(Kept(d.uid, LookupSecret(v.annotations, d.uid)), added) == added
  {
    var added, recorded := Shown(Contested(b, d, name), EnvAdditions(b)), LookupSecret(v.annotations, d.uid);
    SecretsApart(t, b, d.uid, v);
    FromRival(b, d, name);
    forall e | e in added
      ensures Kept(d.uid, recorded)(e)
    {
      AdditionsForeign(b, d.uid, recorded, e);
    }
    FilterAll(Kept(d.uid, recorded), added);
  }

  /** Removing a binding removes what it has added. */
  lemma OwnGone(t: Tenancy, d: ServiceBinding, own: seq<EnvVar>, v: PodTemplate, i: nat)
    requires Admissible(t, v) && Respects(t, d) && SecretName(d) != "" && i < |v.containers|
    requires forall e :: e in own ==> e in v.containers[i].env && e in EnvAdditions(d)
    ensures Filter(Kept(d.uid, LookupSecret(v.annotations, d.uid)), own) == []
  {
    forall e | e in own
      ensures !Kept(d.uid, LookupSecret(v.annotations, d.uid))(e)
    {
      AdditionsOwned(t, d, v, i, e);
    }
    FilterNone(Kept(d.uid, LookupSecret(v.annotations, d.uid)), own);
  }

  lemma ShownAreThere(es: set<EnvVar>, env: seq<EnvVar>, first: seq<EnvVar>, rest: seq<EnvVar>)
    requires Shown(es, env) == first + rest
    ensures forall e :: e in first ==> e in env
  {
    forall e | e in first
      ensures e in env
    {
      assert e in first + rest;
      FilterMember(Among(es), env, e);
    }
  }

  /** Of what both rivals have added, removing one leaves what the other added last. */
  lemma RivalLeft(t: Tenancy, b: ServiceBinding, d: ServiceBinding, name: string, stale: seq<EnvVar>, v: PodTemplate,
                  i: nat)
    requires Admissible(t, v) && Rivals(t, b, d, name) && i < |v.containers|
    requires Shown(Contested(b, d, name), v.containers[i].env) == stale + Shown(Contested(b, d, name), EnvAdditions(b))
    requires forall e :: e in stale ==> e in EnvAdditions(d)
    ensures Filter(Kept(d.uid, LookupSecret(v.annotations, d.uid)), Shown(Contested(b, d, name), v.containers[i].env))
         == Shown(Contested(b, d, name), EnvAdditions(b))
  {
    var es, added := Contested(b, d, name), Shown(Contested(b, d, name), EnvAdditions(b));
    FilterAppend(Kept(d.uid, LookupSecret(v.annotations, d.uid)), stale, added);
    ShownAreThere(es, v.containers[i].env, stale, added);
    OwnGone(t, d, stale, v, i);
    RivalKept(t, b, d, name, v);
  }

  /** When one rival is projected after the other, what both add is shown in that order. */
  lemma SecondShows(t: Tenancy, b: ServiceBinding, d: ServiceBinding, name: string, stale: seq<EnvVar>, v: PodTemplate,
                    i: nat)
    requires Admissible(t, v) && Rivals(t, b, d, name) && i < |v.containers| && Bindable(d, v.containers[i].name)
    requires Shown(Contested(b, d, name), v.containers[i].env) == stale + Shown(Contested(b, d, name), EnvAdditions(b))
    requires forall e :: e in stale ==> e in EnvAdditions(d)
    ensures |Project(d, v).containers| == |v.containers|
    ensures Shown(Contested(b, d, name), Project(d, v).containers[i].env)
         == Shown(Contested(b, d, name), EnvAdditions(b)) + Shown(Contested(b, d, name), EnvAdditions(d))
  {
    RivalLeft(t, b, d, name, stale, v, i);
    ProjectShows(t, b, d, name, d, v, i);
  }

  lemma {:induction false} RunAppend(a: seq<Step>, b: seq<Step>, v: PodTemplate)
    ensures Run(a + b, v) == Run(b, Run(a, v))
    decreases |b|
  {
    if b == [] {
      assert a + b == a;
    } else {
      var n := |b| - 1;
      assert a + b == (a + b[..n]) + [b[n]];
      RunSnoc(a + b[..n], b[n], v);
      RunAppend(a, b[..n], v);
    }
  }

  /** The two rivals are projected in this order, among steps of other bindings. */
  function InTurn(a: seq<Step>, b: ServiceBinding, m: seq<Step>, d: ServiceBinding, c: seq<Step>): seq<Step>
  {
    a + [ProjectStep(b)] + m + [ProjectStep(d)] + c
  }

  lemma RunInTurn(a: seq<Step>, b: ServiceBinding, m: seq<Step>, d: ServiceBinding, c: seq<Step>, v: PodTemplate)
    ensures Run(InTurn(a, b, m, d, c), v) == Run(c, Project(d, Run(m, Project(b, Run(a, v)))))
  {
    RunAppend(a + [ProjectStep(b)] + m + [ProjectStep(d)], c, v);
    RunSnoc(a + [ProjectStep(b)] + m, ProjectStep(d), v);
    RunAppend(a + [ProjectStep(b)], m, v);
    RunSnoc(a, ProjectStep(b), v);
  }

  /** Whatever other steps a run takes, a container that two rivals bind shows the order of their projections. */
  lemma ArrivalShows(t: Tenancy, a: seq<Step>, b: ServiceBinding, m: seq<Step>, d: ServiceBinding, c: seq<Step>,
                     name: string, v: PodTemplate, i: nat)
    requires Admissible(t, v) && Rivals(t, b, d, name) && AllRespect(t, a) && AllRespect(t, m) && AllRespect(t, c)
    requires Others(m, b.uid, d.uid) && Others(c, b.uid, d.uid)
    requires i < |v.containers| && Bindable(b, v.containers[i].name) && Bindable(d, v.containers[i].name)
    ensures |Run(InTurn(a, b, m, d, c), v).containers| == |v.containers|
    ensures Shown(Contested(b, d, name), Run(InTurn(a, b, m, d, c), v).containers[i].env)
         == Shown(Contested(b, d, name), EnvAdditions(b)) + Shown(Contested(b, d, name), EnvAdditions(d))
  {
    var w1 := Run(a, v);
    var w2 := Project(b, w1);
    var w3 := Run(m, w2);
    var w4 := Project(d, w3);
    RunInTurn(a, b, m, d, c, v);
    RunKeepsNames(a, v);
    RunAdmissible(t, a, v);
    ProjectKeepsNames(b, w1, i);
    ProjectAdmissible(t, b, w1);
    RunKeepsNames(m, w2);
    RunAdmissible(t, m, w2);
    ProjectKeepsNames(d, w3, i);
    ProjectAdmissible(t, d, w3);
    var stale := RivalShows(t, b, d, name, w1, i);
    BystandersShow(t, b, d, name, m, w2, i);
    SecondShows(t, b, d, name, stale, w3, i);
    BystandersShow(t, b, d, name, c, w4, i);
  }

  lemma AdditionOf(b: ServiceBinding, m: EnvMapping)
    requires m in b.env
    ensures EnvFor(b, m) in EnvAdditions(b) && EnvFor(b, m).name == m.name
  {
    var i :| 0 <= i < |b.env| && b.env[i] == m;
    assert EnvAdditions(b)[i] == EnvFor(b, m);
  }

  lemma RivalsAdd(t: Tenancy, b: ServiceBinding, d: ServiceBinding, name: string)
    requires Rivals(t, b, d, name)
    ensures var x := Shown(Contested(b, d, name), EnvAdditions(b)); x != [] && x[0] in EnvAdditions(b)
  {
    var es := Contested(b, d, name);
    var m :| m in b.env && m.name == name;
    AdditionOf(b, m);
    FilterMember(Among(es), EnvAdditions(b), EnvFor(b, m));
    FilterMember(Among(es), EnvAdditions(b), Shown(es, EnvAdditions(b))[0]);
  }

  /** The two orders can be told apart. */
  lemma OrdersDiffer(t: Tenancy, b: ServiceBinding, d: ServiceBinding, name: string)
    requires Rivals(t, b, d, name)
    ensures var x, y := Shown(Contested(b, d, name), EnvAdditions(b)), Shown(Contested(b, d, name), EnvAdditions(d));
      x + y != y + x
  {
    var x, y := Shown(Contested(b, d, name), EnvAdditions(b)), Shown(Contested(b, d, name), EnvAdditions(d));
    RivalsAdd(t, b, d, name);
    RivalsSwap(b, d, name);
    RivalsAdd(t, d, b, name);
    AdditionsDiffer(t, b, d, x[0]);
    assert (x + y)[0] == x[0] && (y + x)[0] == y[0];
  }

  /* ---- when two orders end alike ---- */

  ghost predicate Before<T>(s: seq<T>, x: T, y: T)
  {
    exists i, j :: 0 <= i < j < |s| && s[i] == x && s[j] == y
  }

  /** Every two steps that meet are listed in the same order. */
  ghost predicate SameOrder(r: seq<Step>, q: seq<Step>, v: PodTemplate)
  {
    forall i, j :: 0 <= i < j < |r| && !Independent(r[i], r[j], v) ==> Before(q, r[i], r[j])
  }

  ghost predicate AllIndependent(r: seq<Step>, v: PodTemplate)
  {
    forall i, j :: 0 <= i < j < |r| ==> Independent(r[i], r[j], v)
  }

  lemma Meeting(t: Tenancy, x: Step, y: Step, v: PodTemplate) returns (name: string, i: nat)
    requires StepRespects(t, x) && StepRespects(t, y) && x.Uid() != y.Uid() && !Independent(x, y, v)
    ensures x == ProjectStep(Effect(x)) && y == ProjectStep(Effect(y)) && Rivals(t, Effect(x), Effect(y), name)
    ensures i < |v.containers| && Bindable(Effect(x), v.containers[i].name) && Bindable(Effect(y), v.containers[i].name)
  {
    var b, d := Effect(x), Effect(y);
    var m, n :| m in b.env && n in d.env && m.name == n.name;
    var c :| c in v.containers && Bindable(b, c.name) && Bindable(d, c.name);
    name := m.name;
    i :| 0 <= i < |v.containers| && v.containers[i] == c;
  }

  lemma SplitInTurn(r: seq<Step>, k: nat, l: nat)
    requires DistinctUids(r) && k < l < |r| && r[k].ProjectStep? && r[l].ProjectStep?
    ensures r == InTurn(r[..k], r[k].binding, r[k + 1..l], r[l].binding, r[l + 1..])
    ensures Others(r[k + 1..l], r[k].Uid(), r[l].Uid()) && Others(r[l + 1..], r[k].Uid(), r[l].Uid())
  {
  }

  /** Where two rivals stand in a list of steps of different bindings, the run's end shows. */
  lemma OrderShows(t: Tenancy, r: seq<Step>, b: ServiceBinding, d: ServiceBinding, name: string, v: PodTemplate, i: nat)
    requires Admissible(t, v) && AllRespect(t, r) && DistinctUids(r) && Rivals(t, b, d, name)
    requires Before(r, ProjectStep(b), ProjectStep(d))
    requires i < |v.containers| && Bindable(b, v.containers[i].name) && Bindable(d, v.containers[i].name)
    ensures |Run(r, v).containers| == |v.containers|
    ensures Shown(Contested(b, d, name), Run(r, v).containers[i].env)
         == Shown(Contested(b, d, name), EnvAdditions(b)) + Shown(Contested(b, d, name), EnvAdditions(d))
  {
    var k, l :| 0 <= k < l < |r| && r[k] == ProjectStep(b) && r[l] == ProjectStep(d);
    SplitInTurn(r, k, l);
    ArrivalShows(t, r[..k], b, r[k + 1..l], d, r[l + 1..], name, v, i);
  }

  lemma OtherWayRound<T>(q: seq<T>, x: T, y: T)
    requires x in q && y in q && x != y && !Before(q, x, y)
    ensures Before(q, y, x)
  {
    var i :| 0 <= i < |q| && q[i] == x;
    var j :| 0 <= j < |q| && q[j] == y;
  }

  lemma WithoutOne<T>(s: seq<T>, i: nat)
    requires i < |s|
    ensures multiset(s[..i] + s[i + 1..]) == multiset(s) - multiset{s[i]}
  {
    assert s == s[..i] + [s[i]] + s[i + 1..];
  }

  lemma SameLength<T>(s: seq<T>, r: seq<T>)
    requires multiset(s) == multiset(r)
    ensures |s| == |r|
  {
    assert |multiset(s)| == |multiset(r)|;
  }

  lemma FindInPermutation<T>(s: seq<T>, r: seq<T>) returns (i: nat)
    requires s != [] && multiset(s) == multiset(r)
    ensures i < |r| && r[i] == s[|s| - 1]
    ensures multiset(s[..|s| - 1]) == multiset(r[..i] + r[i + 1..])
  {
    var n := |s| - 1;
    assert s[n] in multiset(r);
    i :| 0 <= i < |r| && r[i] == s[n];
    WithoutOne(s, n);
    WithoutOne(r, i);
    assert s[..n] + s[n + 1..] == s[..n];
  }

  lemma SameMembers<T>(s: seq<T>, r: seq<T>)
    requires multiset(s) == multiset(r)
    ensures forall x :: x in s <==> x in r
  {
    assert forall x :: x in s <==> x in multiset(s);
  }

  lemma OnceInDistinct(r: seq<Step>, x: Step)
    requires DistinctUids(r)
    ensures multiset(r)[x] == if x in r then 1 else 0
  {
    if x in r {
      var i :| 0 <= i < |r| && r[i] == x;
      WithoutOne(r, i);
      assert x !in r[..i] + r[i + 1..];
      assert multiset(r[..i] + r[i + 1..])[x] == 0;
    }
  }

  lemma TwiceInList(q: seq<Step>, i: nat, j: nat)
    requires i < j < |q| && q[i] == q[j]
    ensures multiset(q)[q[i]] >= 2
  {
    assert q == q[..i] + [q[i]] + q[i + 1..j] + [q[j]] + q[j + 1..];
  }

  lemma DistinctPermuted(r: seq<Step>, q: seq<Step>)
    requires DistinctUids(r) && multiset(r) == multiset(q)
    ensures DistinctUids(q)
  {
    SameMembers(r, q);
    forall i, j | 0 <= i < j < |q|
      ensures q[i].Uid() != q[j].Uid()
    {
      assert q[i] in q && q[j] in q;
      var k :| 0 <= k < |r| && r[k] == q[i];
      var l :| 0 <= l < |r| && r[l] == q[j];
      if k == l {
        TwiceInList(q, i, j);
        OnceInDistinct(r, q[i]);
      }
    }
  }

  lemma RespectPermuted(t: Tenancy, r: seq<Step>, q: seq<Step>)
    requires AllRespect(t, r) && forall x :: x in q ==> x in r
    ensures AllRespect(t, q)
  {
    forall i | 0 <= i < |q|
      ensures StepRespects(t, q[i])
    {
      assert q[i] in r;
    }
  }

  lemma OrderLost(t: Tenancy, r: seq<Step>, q: seq<Step>, x: Step, y: Step, v: PodTemplate)
    requires Admissible(t, v) && AllRespect(t, r) && DistinctUids(r) && AllRespect(t, q) && DistinctUids(q)
    requires Before(r, x, y) && Before(q, y, x) && !Independent(x, y, v)
    ensures Run(r, v) != Run(q, v)
  {
    var k, l :| 0 <= k < l < |r| && r[k] == x && r[l] == y;
    assert StepRespects(t, r[k]) && StepRespects(t, r[l]);
    var name, i := Meeting(t, x, y, v);
    OrderShows(t, r, Effect(x), Effect(y), name, v, i);
    OrderShows(t, q, Effect(y), Effect(x), name, v, i);
    RivalsSwap(Effect(x), Effect(y), name);
    OrdersDiffer(t, Effect(x), Effect(y), name);
  }

  lemma PostponeWithin(t: Tenancy, r: seq<Step>, i: nat, v: PodTemplate)
    requires Admissible(t, v) && AllRespect(t, r) && DistinctUids(r) && i < |r|
    requires forall k :: i < k < |r| ==> Independent(r[i], r[k], v)
    ensures Run(r, v) == Take(r[i], Run(r[..i] + r[i + 1..], v))
  {
    var a, x, b := r[..i], r[i], r[i + 1..];
    assert r == a + [x] + b;
    assert forall k :: 0 <= k < |b| ==> b[k] == r[i + 1 + k];
    Postpone(t, a, x, b, v);
  }

  lemma LastIsLast(q: seq<Step>, y: Step)
    requires q != [] && DistinctUids(q)
    ensures !Before(q, q[|q| - 1], y)
  {
  }

  lemma BeforeInFront<T>(q: seq<T>, x: T, y: T)
    requires q != [] && Before(q, x, y) && y != q[|q| - 1]
    ensures Before(q[..|q| - 1], x, y)
  {
    var i, j :| 0 <= i < j < |q| && q[i] == x && q[j] == y;
    assert q[..|q| - 1][i] == x && q[..|q| - 1][j] == y;
  }

  lemma SameOrderShrinks(r: seq<Step>, q: seq<Step>, i: nat, v: PodTemplate)
    requires DistinctUids(r) && SameOrder(r, q, v) && q != [] && i < |r| && r[i] == q[|q| - 1]
    ensures SameOrder(r[..i] + r[i + 1..], q[..|q| - 1], v)
  {
    var rest := r[..i] + r[i + 1..];
    forall k, l | 0 <= k < l < |rest| && !Independent(rest[k], rest[l], v)
      ensures Before(q[..|q| - 1], rest[k], rest[l])
    {
      var m, n := if k < i then k else k + 1, if l < i then l else l + 1;
      assert rest[k] == r[m] && rest[l] == r[n];
      BeforeInFront(q, r[m], r[n]);
    }
  }

  /** What the other order takes last meets nothing that comes after it in this one. */
  lemma MeetsNoneAfter(r: seq<Step>, q: seq<Step>, i: nat, v: PodTemplate)
    requires SameOrder(r, q, v) && DistinctUids(q) && q != [] && i < |r| && r[i] == q[|q| - 1]
    ensures forall k :: i < k < |r| ==> Independent(r[i], r[k], v)
  {
    forall k | i < k < |r|
      ensures Independent(r[i], r[k], v)
    {
      LastIsLast(q, r[k]);
    }
  }

  lemma WithoutOneStep(t: Tenancy, r: seq<Step>, i: nat)
    requires AllRespect(t, r) && DistinctUids(r) && i < |r|
    ensures AllRespect(t, r[..i] + r[i + 1..]) && DistinctUids(r[..i] + r[i + 1..])
  {
  }

  /** What the other order takes last can be taken last in this one. */
  lemma TakeLast(t: Tenancy, r: seq<Step>, q: seq<Step>, v: PodTemplate) returns (i: nat)
    requires Admissible(t, v) && AllRespect(t, r) && DistinctUids(r) && multiset(q) == multiset(r) && SameOrder(r, q, v)
    requires q != []
    ensures i < |r| && multiset(q[..|q| - 1]) == multiset(r[..i] + r[i + 1..])
    ensures SameOrder(r[..i] + r[i + 1..], q[..|q| - 1], v)
    ensures Run(r, v) == Take(q[|q| - 1], Run(r[..i] + r[i + 1..], v))
  {
    i := FindInPermutation(q, r);
    DistinctPermuted(r, q);
    MeetsNoneAfter(r, q, i, v);
    PostponeWithin(t, r, i, v);
    SameOrderShrinks(r, q, i, v);
  }

  lemma {:induction false} SameOrderAgrees(t: Tenancy, r: seq<Step>, q: seq<Step>, v: PodTemplate)
    requires Admissible(t, v) && AllRespect(t, r) && DistinctUids(r) && multiset(q) == multiset(r) && SameOrder(r, q, v)
    ensures Run(r, v) == Run(q, v)
    decreases |q|
  {
    SameLength(q, r);
    if q != [] {
      var i := TakeLast(t, r, q, v);
      WithoutOneStep(t, r, i);
      SameOrderAgrees(t, r[..i] + r[i + 1..], q[..|q| - 1], v);
    }
  }

  /** Two orders of the same steps, one for each binding, end alike exactly when they list every two steps that meet
      in the same order. */
  lemma OrdersAgreeExactly(t: Tenancy, r: seq<Step>, q: seq<Step>, v: PodTemplate)
    requires Admissible(t, v) && AllRespect(t, r) && DistinctUids(r) && multiset(q) == multiset(r)
    ensures Run(r, v) == Run(q, v) <==> SameOrder(r, q, v)
  {
    if SameOrder(r, q, v) {
      SameOrderAgrees(t, r, q, v);
    } else {
      var i, j :| 0 <= i < j < |r| && !Independent(r[i], r[j], v) && !Before(q, r[i], r[j]);
      SameMembers(q, r);
      DistinctPermuted(r, q);
      RespectPermuted(t, r, q);
      assert r[i] in r && r[j] in r;
      OtherWayRound(q, r[i], r[j]);
      OrderLost(t, r, q, r[i], r[j], v);
    }
  }

  function Swapped<T>(s: seq<T>, i: nat, j: nat): seq<T>
    requires i < j < |s|
  {
    s[i := s[j]][j := s[i]]
  }

  lemma SwapTells(t: Tenancy, r: seq<Step>, q: seq<Step>, i: nat, j: nat, v: PodTemplate)
    requires Admissible(t, v) && AllRespect(t, r) && DistinctUids(r) && multiset(q) == multiset(r)
    requires i < j < |r| && j < |q| && q[i] == r[j] && q[j] == r[i] && !Independent(r[i], r[j], v)
    ensures Run(r, v) != Run(q, v)
  {
    SameMembers(q, r);
    DistinctPermuted(r, q);
    RespectPermuted(t, r, q);
    assert Before(r, r[i], r[j]) && Before(q, r[j], r[i]);
    OrderLost(t, r, q, r[i], r[j], v);
  }

  /** All orders end alike exactly when no two steps meet. */
  lemma AllOrdersAgreeExactly(t: Tenancy, r: seq<Step>, v: PodTemplate)
    requires Admissible(t, v) && AllRespect(t, r) && DistinctUids(r)
    ensures (forall q :: multiset(q) == multiset(r) ==> Run(q, v) == Run(r, v)) <==> AllIndependent(r, v)
  {
    if AllIndependent(r, v) {
      forall q | multiset(q) == multiset(r)
        ensures Run(q, v) == Run(r, v)
      {
        OrdersAgreeExactly(t, r, q, v);
      }
    } else {
      var i, j :| 0 <= i < j < |r| && !Independent(r[i], r[j], v);
      SwapTells(t, r, Swapped(r, i, j), i, j, v);
      assert Run(Swapped(r, i, j), v) != Run(r, v);
    }
  }

  lemma TwoSteps(x: Step, y: Step, v: PodTemplate)
    ensures Run([x, y], v) == Take(y, Take(x, v))
  {
    RunSnoc([], x, v);
    RunSnoc([x], y, v);
    assert [] + [x] == [x] && [x] + [y] == [x, y];
  }

  lemma PairOrders(x: Step, y: Step, v: PodTemplate)
    requires x != y
    ensures multiset([y, x]) == multiset([x, y])
    ensures SameOrder([x, y], [y, x], v) <==> Independent(x, y, v)
  {
    assert [x, y][0] == x && [x, y][1] == y;
  }

  /** Two steps for different bindings commute exactly when they do not meet. */
  lemma StepsCommuteExactly(t: Tenancy, x: Step, y: Step, v: PodTemplate)
    requires Admissible(t, v) && StepRespects(t, x) && StepRespects(t, y) && x.Uid() != y.Uid()
    ensures Take(y, Take(x, v)) == Take(x, Take(y, v)) <==> Independent(x, y, v)
  {
    TwoSteps(x, y, v);
    TwoSteps(y, x, v);
    PairOrders(x, y, v);
    OrdersAgreeExactly(t, [x, y], [y, x], v);
  }

  /* ---- whole runs ---- */

  lemma LastStepsPermuted(steps: seq<Step>, r: seq<Step>, q: seq<Step>)
    requires LastSteps(steps, r)
    ensures LastSteps(steps, q) <==> multiset(q) == multiset(r)
  {
    if LastSteps(steps, q) {
      forall x
        ensures multiset(q)[x] == multiset(r)[x]
      {
        OnceInDistinct(q, x);
        OnceInDistinct(r, x);
      }
    }
    if multiset(q) == multiset(r) {
      SameMembers(q, r);
      DistinctPermuted(r, q);
    }
  }

  lemma LastStepsRespect(t: Tenancy, steps: seq<Step>, r: seq<Step>)
    requires AllRespect(t, steps) && LastSteps(steps, r)
    ensures AllRespect(t, r)
  {
    forall x | x in r
      ensures x in steps
    {
      LastOfHasUid(steps, x.Uid());
    }
    RespectPermuted(t, steps, r);
  }

  /** A run ends where replaying each binding's last step in another order ends exactly when every two of these steps
      that meet keep the order in which the run last took them. */
  lemma ConfluenceExactly(t: Tenancy, steps: seq<Step>, r: seq<Step>, v: PodTemplate)
    requires Settled(t, v) && AllRespect(t, steps) && LastSteps(steps, r)
    ensures Run(steps, v) == Run(r, v) <==> SameOrder(Replay(steps), r, v)
  {
    RunIsReplay(t, steps, v);
    ReplayIsLast(steps);
    LastStepsRespect(t, steps, Replay(steps));
    LastStepsPermuted(steps, Replay(steps), r);
    OrdersAgreeExactly(t, Replay(steps), r, v);
  }

  /** Confluence: a run of any length ends where replaying each binding's last step ends, in whatever order, exactly
      when no two of these steps meet. */
  lemma Confluence(t: Tenancy, steps: seq<Step>, v: PodTemplate)
    requires Settled(t, v) && AllRespect(t, steps)
    ensures (forall r :: LastSteps(steps, r) ==> Run(r, v) == Run(steps, v)) <==> AllIndependent(Replay(steps), v)
  {
    var r := Replay(steps);
    RunIsReplay(t, steps, v);
    ReplayIsLast(steps);
    LastStepsRespect(t, steps, r);
    AllOrdersAgreeExactly(t, r, v);
    forall q
      ensures LastSteps(steps, q) <==> multiset(q) == multiset(r)
    {
      LastStepsPermuted(steps, r, q);
    }
  }

  /* ---- controller and admission webhook ---- */

  /** The bindings of one workload: different ones, each with a secret of its own. */
  ghost predicate Together(t: Tenancy, bs: seq<ServiceBinding>)
  {
    && (forall i :: 0 <= i < |bs| ==> Respects(t, bs[i]))
    && (forall i, j :: 0 <= i < j < |bs| ==> bs[i].uid != bs[j].uid)
  }

  lemma TogetherAsSteps(t: Tenancy, bs: seq<ServiceBinding>)
    requires Together(t, bs)
    ensures AllRespect(t, AsSteps(bs)) && DistinctUids(AsSteps(bs))
  {
  }

  lemma AsStepsWithout(bs: seq<ServiceBinding>, i: nat)
    requires i < |bs|
    ensures multiset(AsSteps(bs)) == multiset(AsSteps(bs[..i] + bs[i + 1..])) + multiset{ProjectStep(bs[i])}
  {
    WithoutOne(AsSteps(bs), i);
    assert AsSteps(bs[..i] + bs[i + 1..]) == AsSteps(bs)[..i] + AsSteps(bs)[i + 1..];
    assert AsSteps(bs)[i] in AsSteps(bs);
  }

  lemma {:induction false} AsStepsPermuted(bs: seq<ServiceBinding>, cs: seq<ServiceBinding>)
    requires multiset(bs) == multiset(cs)
    ensures multiset(AsSteps(bs)) == multiset(AsSteps(cs))
    decreases |bs|
  {
    SameLength(bs, cs);
    if bs != [] {
      var n := |bs| - 1;
      var i := FindInPermutation(bs, cs);
      AsStepsPermuted(bs[..n], cs[..i] + cs[i + 1..]);
      AsStepsWithout(bs, n);
      AsStepsWithout(cs, i);
      assert bs[..n] + bs[n + 1..] == bs[..n];
    }
  }

  /** For two orders of the same bindings the webhook's projections end alike exactly when every two bindings that meet
      are listed in the same order. */
  lemma WebhookOrderExactly(t: Tenancy, bs: seq<ServiceBinding>, cs: seq<ServiceBinding>, v: PodTemplate)
    requires Admissible(t, v) && Together(t, bs) && multiset(bs) == multiset(cs)
    ensures Run(AsSteps(bs), v) == Run(AsSteps(cs), v) <==> SameOrder(AsSteps(bs), AsSteps(cs), v)
  {
    TogetherAsSteps(t, bs);
    AsStepsPermuted(bs, cs);
    OrdersAgreeExactly(t, AsSteps(bs), AsSteps(cs), v);
  }

  lemma SwapBindingsTells(t: Tenancy, bs: seq<ServiceBinding>, i: nat, j: nat, v: PodTemplate)
    requires Admissible(t, v) && Together(t, bs) && i < j < |bs|
    requires !Independent(AsSteps(bs)[i], AsSteps(bs)[j], v)
    ensures multiset(Swapped(bs, i, j)) == multiset(bs)
    ensures Run(AsSteps(Swapped(bs, i, j)), v) != Run(AsSteps(bs), v)
  {
    var cs := Swapped(bs, i, j);
    assert multiset(cs) == multiset(bs);
    TogetherAsSteps(t, bs);
    AsStepsPermuted(bs, cs);
    SwapTells(t, AsSteps(bs), AsSteps(cs), i, j, v);
  }

  /** All orders end alike exactly when no two bindings meet. */
  lemma AnyOrderExactly(t: Tenancy, bs: seq<ServiceBinding>, v: PodTemplate)
    requires Admissible(t, v) && Together(t, bs)
    ensures (forall cs :: multiset(cs) == multiset(bs) ==> Run(AsSteps(cs), v) == Run(AsSteps(bs), v))
       <==> AllIndependent(AsSteps(bs), v)
  {
    var r := AsSteps(bs);
    TogetherAsSteps(t, bs);
    if AllIndependent(r, v) {
      forall cs | multiset(cs) == multiset(bs)
        ensures Run(AsSteps(cs), v) == Run(r, v)
      {
        WebhookOrderExactly(t, bs, cs, v);
      }
    } else {
      var i, j :| 0 <= i < j < |r| && !Independent(r[i], r[j], v);
      SwapBindingsTells(t, bs, i, j, v);
    }
  }

  lemma ProjectTwice(t: Tenancy, b: ServiceBinding, v: PodTemplate)
    requires Admissible(t, v) && Respects(t, b)
    ensures Project(b, Project(b, v)) == Project(b, v)
  {
    AdmissibleIsClean(t, b, v);
    AdmissibleRoots(t, v);
    IdempotentExactly(b, v);
  }

  /** A binding that can be projected last may be projected once more. */
  lemma AgainAtEnd(t: Tenancy, r: seq<Step>, i: nat, v: PodTemplate)
    requires Admissible(t, v) && AllRespect(t, r) && DistinctUids(r) && i < |r| && r[i].ProjectStep?
    requires forall k :: i < k < |r| ==> Independent(r[i], r[k], v)
    ensures Take(r[i], Run(r, v)) == Run(r, v)
  {
    var rest := r[..i] + r[i + 1..];
    PostponeWithin(t, r, i, v);
    RunAdmissible(t, rest, v);
    ProjectTwice(t, r[i].binding, Run(rest, v));
  }

  /** Projected once more, a binding overtakes those that it meets. */
  lemma AgainOvertakes(t: Tenancy, r: seq<Step>, i: nat, k: nat, v: PodTemplate)
    requires Admissible(t, v) && AllRespect(t, r) && DistinctUids(r) && i < k < |r| && !Independent(r[i], r[k], v)
    ensures Take(r[i], Run(r, v)) != Run(r, v)
  {
    var w := Run(r, v);
    assert StepRespects(t, r[i]) && StepRespects(t, r[k]);
    var name, l := Meeting(t, r[i], r[k], v);
    var b, d := Effect(r[i]), Effect(r[k]);
    OrderShows(t, r, b, d, name, v, l);
    RunAdmissible(t, r, v);
    RunKeepsNames(r, v);
    RivalsSwap(b, d, name);
    FromRival(b, d, name);
    SecondShows(t, d, b, name, Shown(Contested(b, d, name), EnvAdditions(b)), w, l);
    OrdersDiffer(t, b, d, name);
  }

  /** Projecting one of the bindings of a run once more changes nothing exactly when it meets none of those after it. */
  lemma AgainExactly(t: Tenancy, r: seq<Step>, i: nat, v: PodTemplate)
    requires Admissible(t, v) && AllRespect(t, r) && DistinctUids(r) && i < |r| && r[i].ProjectStep?
    ensures Take(r[i], Run(r, v)) == Run(r, v) <==> forall k :: i < k < |r| ==> Independent(r[i], r[k], v)
  {
    if k :| i < k < |r| && !Independent(r[i], r[k], v) {
      AgainOvertakes(t, r, i, k, v);
    } else {
      AgainAtEnd(t, r, i, v);
    }
  }

  /** Once the webhook has projected every active binding, the controller re-projecting one of them changes nothing
      exactly when it meets none of those projected after it. */
  lemma ControllerAgreesExactly(t: Tenancy, bs: seq<ServiceBinding>, i: nat, v: PodTemplate)
    requires Admissible(t, v) && Together(t, bs) && i < |bs|
    ensures Project(bs[i], Run(AsSteps(bs), v)) == Run(AsSteps(bs), v)
       <==> forall k :: i < k < |bs| ==> Independent(AsSteps(bs)[i], AsSteps(bs)[k], v)
  {
    TogetherAsSteps(t, bs);
    AgainExactly(t, AsSteps(bs), i, v);
  }
}
