/** Laws of one annotation map and of one list of environment variables. */
module EnvLaws {
  import opened Wrappers
  import opened Bindings
  import opened Names
  import opened Filtering
  import opened Ordering
  import opened StableSort
  import opened Projection

  /* ---- annotations ---- */

  lemma RecordThenLookup(b: ServiceBinding, a: map<string, string>, u: string)
    ensures LookupSecret(RecordAnnotations(b, a), u) == if u == b.uid then SecretName(b) else LookupSecret(a, u)
  {
    NamesAreDistinct(u, b.uid);
  }

  lemma ClearThenLookup(w: string, a: map<string, string>, u: string)
    ensures LookupSecret(ClearAnnotations(w, a), u) == if u == w then "" else LookupSecret(a, u)
  {
    NamesAreDistinct(u, w);
  }

  lemma ClearAfterRecord(b: ServiceBinding, a: map<string, string>)
    ensures ClearAnnotations(b.uid, RecordAnnotations(b, a)) == ClearAnnotations(b.uid, a)
  {
  }

  lemma ClearTwice(u: string, a: map<string, string>)
    ensures ClearAnnotations(u, ClearAnnotations(u, a)) == ClearAnnotations(u, a)
  {
  }

  lemma ClearsCommute(u: string, w: string, a: map<string, string>)
    ensures ClearAnnotations(u, ClearAnnotations(w, a)) == ClearAnnotations(w, ClearAnnotations(u, a))
  {
  }

  /** What a binding records under one annotation. */
  function Recorded(b: ServiceBinding, key: string): Option<string>
  {
    if key == SecretAnnotation(b.uid) then Some(SecretName(b))
    else if key == TypeAnnotation(b.uid) && b.kind != "" then Some(b.kind)
    else if key == ProviderAnnotation(b.uid) && b.provider != "" then Some(b.provider)
    else None
  }

  lemma RecordedAt(b: ServiceBinding, a: map<string, string>, key: string)
    ensures key in RecordAnnotations(b, a) <==> Recorded(b, key).Some? || key in a
    ensures key in RecordAnnotations(b, a) ==>
              RecordAnnotations(b, a)[key] == if Recorded(b, key).Some? then Recorded(b, key).value else a[key]
  {
    NamesAreDistinct(b.uid, b.uid);
  }

  lemma RecordedOnce(b: ServiceBinding, d: ServiceBinding, key: string)
    requires b.uid != d.uid
    ensures Recorded(b, key).None? || Recorded(d, key).None?
  {
    NamesAreDistinct(b.uid, d.uid);
    NamesAreDistinct(d.uid, b.uid);
  }

  lemma ClearedAt(u: string, a: map<string, string>, key: string)
    ensures key in ClearAnnotations(u, a) <==>
      key in a && key != SecretAnnotation(u) && key != TypeAnnotation(u) && key != ProviderAnnotation(u)
    ensures key in ClearAnnotations(u, a) ==> ClearAnnotations(u, a)[key] == a[key]
  {
  }

  /** What is recorded for one binding is not cleared for another. */
  lemma RecordedStays(b: ServiceBinding, u: string, key: string)
    requires u != b.uid && Recorded(b, key).Some?
    ensures key != SecretAnnotation(u) && key != TypeAnnotation(u) && key != ProviderAnnotation(u)
  {
    NamesAreDistinct(u, b.uid);
    NamesAreDistinct(b.uid, u);
  }

  lemma RecordClearCommute(b: ServiceBinding, u: string, a: map<string, string>)
    requires u != b.uid
    ensures ClearAnnotations(u, RecordAnnotations(b, a)) == RecordAnnotations(b, ClearAnnotations(u, a))
  {
    var x, y := ClearAnnotations(u, RecordAnnotations(b, a)), RecordAnnotations(b, ClearAnnotations(u, a));
    forall key
      ensures (key in x <==> key in y) && (key in x ==> x[key] == y[key])
    {
      RecordedAt(b, a, key);
      RecordedAt(b, ClearAnnotations(u, a), key);
      ClearedAt(u, RecordAnnotations(b, a), key);
      ClearedAt(u, a, key);
      if Recorded(b, key).Some? {
        RecordedStays(b, u, key);
      }
    }
    assert x.Keys == y.Keys;
  }

  lemma RecordsCommute(b: ServiceBinding, d: ServiceBinding, a: map<string, string>)
    requires b.uid != d.uid
    ensures RecordAnnotations(b, RecordAnnotations(d, a)) == RecordAnnotations(d, RecordAnnotations(b, a))
  {
    var x, y := RecordAnnotations(b, RecordAnnotations(d, a)), RecordAnnotations(d, RecordAnnotations(b, a));
    forall key
      ensures (key in x <==> key in y) && (key in x ==> x[key] == y[key])
    {
      RecordedAt(d, a, key);
      RecordedAt(b, RecordAnnotations(d, a), key);
      RecordedAt(b, a, key);
      RecordedAt(d, RecordAnnotations(b, a), key);
      RecordedOnce(b, d, key);
    }
    assert x.Keys == y.Keys;
  }

  /** Recording a binding makes exactly its secret known, besides those of other annotations. */
  lemma KnownAfterRecord(b: ServiceBinding, a: map<string, string>)
    ensures KnownSecrets(RecordAnnotations(b, a)) == KnownSecrets(ClearAnnotations(b.uid, a)) + {SecretName(b)}
  {
    PrefixesRecognise(b.uid);
    NamesAreDistinct(b.uid, b.uid);
    var r, c := RecordAnnotations(b, a), ClearAnnotations(b.uid, a);
    forall s | s in KnownSecrets(r)
      ensures s in KnownSecrets(c) + {SecretName(b)}
    {
      var k :| k in r && SECRET_ANNOTATION_PREFIX <= k && r[k] == s;
      assert k == SecretAnnotation(b.uid) || (k in c && c[k] == s);
    }
    forall s | s in KnownSecrets(c) + {SecretName(b)}
      ensures s in KnownSecrets(r)
    {
      if s == SecretName(b) {
        assert SecretAnnotation(b.uid) in r && r[SecretAnnotation(b.uid)] == s;
      } else {
        var k :| k in c && SECRET_ANNOTATION_PREFIX <= k && c[k] == s;
        assert k in r && r[k] == s;
      }
    }
  }

  /** Clearing a binding forgets at most its own secret. */
  lemma KnownAfterClear(u: string, a: map<string, string>, s: string)
    requires s != LookupSecret(a, u)
    ensures s in KnownSecrets(ClearAnnotations(u, a)) <==> s in KnownSecrets(a)
  {
    PrefixesRecognise(u);
    var c := ClearAnnotations(u, a);
    if s in KnownSecrets(a) {
      var k :| k in a && SECRET_ANNOTATION_PREFIX <= k && a[k] == s;
      assert k in c && c[k] == s;
    }
    if s in KnownSecrets(c) {
      var k :| k in c && SECRET_ANNOTATION_PREFIX <= k && c[k] == s;
      assert k in a && a[k] == s;
    }
  }

  /* ---- what a binding adds, it recognises ---- */

  lemma AdditionsShape(b: ServiceBinding, e: EnvVar)
    requires e in EnvAdditions(b)
    ensures EnvOwned(b.uid, SecretName(b), e)
    ensures e.valueFrom.Some?
    ensures forall s :: RefersTo(e, s) ==> s == SecretName(b)
    ensures exists m :: m in b.env && m.name == e.name
  {
    var i :| 0 <= i < |b.env| && e == EnvFor(b, b.env[i]);
    assert b.env[i] in b.env;
  }

  lemma AdditionsAreProjected(b: ServiceBinding, secrets: set<string>, e: EnvVar)
    requires e in EnvAdditions(b) && SecretName(b) in secrets
    ensures EnvRank(secrets)(e) == Named(e.name)
  {
    PrefixesRecognise(b.uid);
    var i :| 0 <= i < |b.env| && e == EnvFor(b, b.env[i]);
  }

  lemma AdditionsForeign(b: ServiceBinding, u: string, secret: string, e: EnvVar)
    requires e in EnvAdditions(b) && u != b.uid && secret != SecretName(b)
    ensures !EnvOwned(u, secret, e)
  {
    FieldPathsAreDistinct(u, b.uid);
    FieldPathsAreDistinct(b.uid, u);
    var i :| 0 <= i < |b.env| && e == EnvFor(b, b.env[i]);
  }

  /** Two ways of knowing secrets rank a list alike when they agree on the secrets it refers to. */
  lemma RanksAgree(k: set<string>, l: set<string>, env: seq<EnvVar>)
    requires forall e, s :: e in env && RefersTo(e, s) ==> (s in k <==> s in l)
    ensures forall e :: e in env ==> EnvRank(k)(e) == EnvRank(l)(e)
    ensures Sort(EnvRank(k), env) == Sort(EnvRank(l), env)
    ensures Sorted(EnvRank(k), env) <==> Sorted(EnvRank(l), env)
  {
    forall e | e in env
      ensures EnvRank(k)(e) == EnvRank(l)(e)
    {
      if e.valueFrom.Some? && e.valueFrom.value.secretKeyRef.Some? {
        assert RefersTo(e, e.valueFrom.value.secretKeyRef.value.name);
      }
    }
    SortCongruent(EnvRank(k), EnvRank(l), env);
    assert forall i :: 0 <= i < |env| ==> env[i] in env;
  }

  /* ---- the root variable ---- */

  /** Every SERVICE_BINDING_ROOT is a literal, so no binding owns it and no sort moves it. */
  ghost predicate RootLiteral(env: seq<EnvVar>)
  {
    forall e :: e in env && e.name == SERVICE_BINDING_ROOT ==> e.valueFrom.None?
  }

  function NamedRoot(): EnvVar -> bool
  {
    (e: EnvVar) => e.name == SERVICE_BINDING_ROOT
  }

  lemma {:induction false} FindRootFilters(env: seq<EnvVar>)
    ensures FindRoot(env) == FindRoot(Filter(NamedRoot(), env))
    ensures FindRoot(env).Some? <==> Filter(NamedRoot(), env) != []
  {
    if env != [] {
      FindRootFilters(env[1..]);
    }
  }

  lemma {:induction false} FindRootAppend(env: seq<EnvVar>, more: seq<EnvVar>)
    ensures FindRoot(env + more) == if FindRoot(env).Some? then FindRoot(env) else FindRoot(more)
  {
    if env == [] {
      assert env + more == more;
    } else {
      assert (env + more)[1..] == env[1..] + more;
      FindRootAppend(env[1..], more);
    }
  }

  lemma WithRootHasRoot(env: seq<EnvVar>)
    ensures FindRoot(WithRoot(env)) == Some(RootOf(env))
    ensures RootLiteral(env) ==> RootLiteral(WithRoot(env))
    ensures WithRoot(WithRoot(env)) == WithRoot(env)
  {
    FindRootAppend(env, [DefaultRoot()]);
  }

  /** Sorting does not change which root variable comes first. */
  lemma FindRootSorted(k: set<string>, env: seq<EnvVar>)
    requires RootLiteral(env)
    ensures FindRoot(Sort(EnvRank(k), env)) == FindRoot(env)
  {
    OneRankSorted(EnvRank(k), NamedRoot(), env, Plain);
    FindRootFilters(env);
    FindRootFilters(Sort(EnvRank(k), env));
  }

  lemma KeepsDefaultRoot(u: string, secret: string, env: seq<EnvVar>)
    ensures UnprojectEnv(u, secret, env + [DefaultRoot()]) == UnprojectEnv(u, secret, env) + [DefaultRoot()]
  {
    FilterAppend(Kept(u, secret), env, [DefaultRoot()]);
    FilterAll(Kept(u, secret), [DefaultRoot()]);
  }

  /** Removing a binding's variables leaves the root variables alone. */
  lemma FindRootUnprojected(u: string, secret: string, env: seq<EnvVar>)
    requires RootLiteral(env)
    ensures FindRoot(UnprojectEnv(u, secret, env)) == FindRoot(env)
    ensures RootLiteral(UnprojectEnv(u, secret, env))
    ensures UnprojectEnv(u, secret, WithRoot(env)) == WithRoot(UnprojectEnv(u, secret, env))
  {
    var roots := Filter(NamedRoot(), env);
    forall e | e in roots
      ensures Kept(u, secret)(e)
    {
      FilterMember(NamedRoot(), env, e);
    }
    FilterAll(Kept(u, secret), roots);
    FilterCommutes(NamedRoot(), Kept(u, secret), env);
    FindRootFilters(env);
    FindRootFilters(UnprojectEnv(u, secret, env));
    forall e | e in UnprojectEnv(u, secret, env)
      ensures e in env
    {
      FilterMember(Kept(u, secret), env, e);
    }
    KeepsDefaultRoot(u, secret, env);
  }

  /* ---- projecting one list ---- */

  /** No variable that survives unprojecting refers to `secret`. */
  ghost predicate FreeOf(secret: string, env: seq<EnvVar>)
  {
    forall e :: e in env ==> !RefersTo(e, secret)
  }

  lemma UnprojectedMember(u: string, secret: string, env: seq<EnvVar>, e: EnvVar)
    ensures e in UnprojectEnv(u, secret, env) <==> e in env && !EnvOwned(u, secret, e)
  {
    FilterMember(Kept(u, secret), env, e);
  }

  /** Unprojecting under a new secret removes nothing more than unprojecting under the recorded one did. */
  lemma UnprojectUnderNewSecret(u: string, recorded: string, secret: string, env: seq<EnvVar>)
    requires FreeOf(secret, UnprojectEnv(u, recorded, env))
    ensures UnprojectEnv(u, secret, UnprojectEnv(u, recorded, env)) == UnprojectEnv(u, recorded, env)
  {
    var kept := UnprojectEnv(u, recorded, env);
    forall e | e in kept
      ensures Kept(u, secret)(e)
    {
      UnprojectedMember(u, recorded, env, e);
    }
    FilterAll(Kept(u, secret), kept);
  }

  /** Everything a projection appends to a list, a later unprojection takes away again. */
  lemma UnprojectAfterProject(b: ServiceBinding, known: set<string>, env: seq<EnvVar>)
    ensures UnprojectEnv(b.uid, SecretName(b), ProjectEnv(b, known, WithRoot(env)))
         == Sort(EnvRank(known), UnprojectEnv(b.uid, SecretName(b), WithRoot(env)))
  {
    var p := Kept(b.uid, SecretName(b));
    forall e | e in EnvAdditions(b)
      ensures !p(e)
    {
      AdditionsShape(b, e);
    }
    FilterSortDrops(EnvRank(known), p, WithRoot(env), EnvAdditions(b));
  }

  /** Another binding's unprojection passes through a projection. */
  lemma UnprojectPassesProject(b: ServiceBinding, u: string, secret: string, known: set<string>, env: seq<EnvVar>)
    requires u != b.uid && secret != SecretName(b)
    requires RootLiteral(env)
    ensures UnprojectEnv(u, secret, ProjectEnv(b, known, WithRoot(env)))
         == ProjectEnv(b, known, WithRoot(UnprojectEnv(u, secret, env)))
  {
    var p := Kept(u, secret);
    forall e | e in EnvAdditions(b)
      ensures p(e)
    {
      AdditionsForeign(b, u, secret, e);
    }
    FilterSortKeeps(EnvRank(known), p, WithRoot(env), EnvAdditions(b));
    FindRootUnprojected(u, secret, env);
  }

  lemma UnprojectsCommute(u: string, s: string, w: string, t: string, env: seq<EnvVar>)
    ensures UnprojectEnv(u, s, UnprojectEnv(w, t, env)) == UnprojectEnv(w, t, UnprojectEnv(u, s, env))
  {
    FilterCommutes(Kept(u, s), Kept(w, t), env);
  }
}
