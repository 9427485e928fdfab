/** Which mapping template the resolver chooses for a workload's version. */
module Resolver {
  datatype TemplateContainer = TemplateContainer(path: string, name: string, env: string, volumeMounts: string)

  datatype Template = Template(
    version: string,
    annotations: string,
    containers: seq<TemplateContainer>,
    volumes: string
  )

  /** The values that are appropriate for a resource with a pod template. */
  function DefaultContainers(): seq<TemplateContainer>
  {
    [TemplateContainer(".spec.template.spec.initContainers[*]", ".name", "", ""),
     TemplateContainer(".spec.template.spec.containers[*]", ".name", "", "")]
  }

  function DefaultContainer(c: TemplateContainer): TemplateContainer
  {
    c.(env := if c.env == "" then ".env" else c.env,
       volumeMounts := if c.volumeMounts == "" then ".volumeMounts" else c.volumeMounts)
  }

  function Defaulted(t: Template): Template
  {
    var containers := if t.containers == [] then DefaultContainers() else t.containers;
    Template(
      t.version,
      if t.annotations == "" then ".spec.template.metadata.annotations" else t.annotations,
      seq(|containers|, i requires 0 <= i < |containers| => DefaultContainer(containers[i])),
      if t.volumes == "" then ".spec.template.spec.volumes" else t.volumes)
  }

  /** Nothing that validation requires is left empty, and what was given is kept. */
  ghost predicate Complete(t: Template)
  {
    && t.annotations != "" && t.volumes != "" && t.containers != []
    && forall c :: c in t.containers ==> c.env != "" && c.volumeMounts != ""
  }

  /** Defaulting completes a template, and leaves exactly the complete ones alone. */
  lemma DefaultedExactly(t: Template)
    ensures Complete(Defaulted(t))
    ensures Defaulted(t) == t <==> Complete(t)
  {
    var d := Defaulted(t);
    var containers := if t.containers == [] then DefaultContainers() else t.containers;
    assert |d.containers| == |containers| > 0;
    assert forall i :: 0 <= i < |containers| ==> d.containers[i] == DefaultContainer(containers[i]);
    forall c | c in d.containers
      ensures c.env != "" && c.volumeMounts != ""
    {
      var i :| 0 <= i < |d.containers| && d.containers[i] == c;
      assert c == DefaultContainer(containers[i]);
    }
    if Complete(t) {
      forall i | 0 <= i < |t.containers|
        ensures d.containers[i] == t.containers[i]
      {
        assert containers[i] in t.containers;
        assert d.containers[i] == DefaultContainer(containers[i]);
      }
      assert d.containers == t.containers;
    }
  }

  /** Defaulting touches nothing that is given. */
  lemma DefaultedKeepsGiven(t: Template, i: nat)
    requires i < |t.containers|
    ensures var d := Defaulted(t);
      && d.version == t.version && |d.containers| == |t.containers|
      && (t.annotations != "" ==> d.annotations == t.annotations)
      && (t.volumes != "" ==> d.volumes == t.volumes)
      && d.containers[i].path == t.containers[i].path && d.containers[i].name == t.containers[i].name
      && (t.containers[i].env != "" ==> d.containers[i].env == t.containers[i].env)
      && (t.containers[i].volumeMounts != "" ==> d.containers[i].volumeMounts == t.containers[i].volumeMounts)
  {
    assert Defaulted(t).containers[i] == DefaultContainer(t.containers[i]);
  }

  /** A variable that outlives the statement that declares it, and can be pointed to. */
  class TemplateVariable {
    var value: Template

    constructor (value: Template)
      ensures this.value == value
    {
      this.value := value;
    }

    /** ClusterWorkloadResourceMappingTemplate.Default, which assigns field by field. */
    method Default()
      modifies this
      ensures value == Defaulted(old(value))
    {
      if value.annotations == "" {
        value := value.(annotations := ".spec.template.metadata.annotations");
      }
      if |value.containers| == 0 {
        value := value.(containers := DefaultContainers());
      }
      ghost var listed := value.containers;
      var n := |value.containers|;
      for i := 0 to n
        invariant |value.containers| == n == |listed|
        invariant value == old(value).(annotations := value.annotations, containers := value.containers)
        invariant value.annotations == Defaulted(old(value)).annotations
        invariant forall k :: 0 <= k < i ==> value.containers[k] == DefaultContainer(listed[k])
        invariant forall k :: i <= k < n ==> value.containers[k] == listed[k]
      {
        var c := value.containers[i];
        if c.env == "" {
          c := c.(env := ".env");
        }
        if c.volumeMounts == "" {
          c := c.(volumeMounts := ".volumeMounts");
        }
        value := value.(containers := value.containers[i := c]);
      }
      if value.volumes == "" {
        value := value.(volumes := ".spec.template.spec.volumes");
      }
      assert value.containers == Defaulted(old(value)).containers;
    }
  }

  predicate Offered(versions: seq<Template>, version: string)
  {
    exists i :: 0 <= i < |versions| && versions[i].version == version
  }

  /** The last template for a version, or an empty one. */
  function LastListed(versions: seq<Template>, version: string): Template
  {
    if versions == [] then Template(version, "", [], "")
    else if versions[|versions| - 1].version == version then versions[|versions| - 1]
    else LastListed(versions[..|versions| - 1], version)
  }

  /** The template is for the version, and none after it is. */
  ghost predicate LastAt(versions: seq<Template>, version: string, i: nat)
  {
    && i < |versions| && versions[i].version == version
    && forall k :: i < k < |versions| ==> versions[k].version != version
  }

  /** It is the last one: none after it is for that version. */
  lemma {:induction false} LastListedIsLast(versions: seq<Template>, version: string) returns (i: nat)
    requires Offered(versions, version)
    ensures LastAt(versions, version, i) && versions[i] == LastListed(versions, version)
  {
    i := |versions| - 1;
    if versions[i].version != version {
      var before := versions[..i];
      var k :| 0 <= k < |versions| && versions[k].version == version;
      assert before[k].version == version;
      i := LastListedIsLast(before, version);
      forall l | i < l < |versions|
        ensures versions[l].version != version
      {
        assert l < |before| ==> versions[l] == before[l];
      }
    }
  }

  /** What is meant: the template for the version itself, else the wildcard's, else an empty one to be defaulted. */
  function Intended(versions: seq<Template>, version: string): Template
  {
    if Offered(versions, version) then LastListed(versions, version) else LastListed(versions, "*")
  }

  /** What is chosen: the match is kept as a pointer to the loop variable, which ends as the last template. */
  function Chosen(versions: seq<Template>, version: string): Template
  {
    if Offered(versions, version) then versions[|versions| - 1] else LastListed(versions, "*")
  }

  lemma OfferedNext(versions: seq<Template>, version: string, i: nat)
    requires i < |versions|
    ensures Offered(versions[..i + 1], version) <==> Offered(versions[..i], version) || versions[i].version == version
  {
    if Offered(versions[..i], version) {
      var k :| 0 <= k < i && versions[..i][k].version == version;
      assert versions[..i + 1][k].version == version;
    }
    if versions[i].version == version {
      assert versions[..i + 1][i].version == version;
    }
    if Offered(versions[..i + 1], version) {
      var k :| 0 <= k < i + 1 && versions[..i + 1][k].version == version;
      assert k < i ==> versions[..i][k].version == version;
    }
  }

  /** LookupMapping on the versions of a mapping resource; under Go 1.18 all iterations share the variable `v`. */
  method LookupMapping(versions: seq<Template>, version: string) returns (mapping: Template)
    ensures mapping == Defaulted(Chosen(versions, version))
  {
    var wildcard := Template("*", "", [], "");
    var v := new TemplateVariable(wildcard);
    var pointer: TemplateVariable? := null;
    for i := 0 to |versions|
      invariant pointer == null || pointer == v
      invariant fresh(v)
      invariant i > 0 ==> v.value == versions[i - 1]
      invariant pointer != null <==> Offered(versions[..i], version)
      invariant pointer == null ==> wildcard == LastListed(versions[..i], "*")
    {
      assert versions[..i + 1][..i] == versions[..i];
      assert versions[..i + 1][i].version == versions[i].version;
      assert Offered(versions[..i + 1], version)
        <==> Offered(versions[..i], version) || versions[i].version == version by {
        OfferedNext(versions, version, i);
      }
      v.value := versions[i];
      if v.value.version == version {
        pointer := v;
      } else if v.value.version == "*" {
        wildcard := v.value;
      }
    }
    assert versions[..|versions|] == versions;
    var copy := new TemplateVariable(if pointer == null then wildcard else pointer.value);
    copy.Default();
    mapping := copy.value;
  }

  lemma {:induction false} LastListedVersion(versions: seq<Template>, version: string)
    ensures LastListed(versions, version).version == version
  {
    if versions != [] {
      LastListedVersion(versions[..|versions| - 1], version);
    }
  }

  /** The intended template is chosen exactly when the version is not offered or is the last one listed. */
  lemma ChoiceExactly(versions: seq<Template>, version: string)
    ensures Chosen(versions, version) == Intended(versions, version)
       <==> !Offered(versions, version) || versions[|versions| - 1].version == version
  {
    LastListedVersion(versions, version);
  }

  /** The exact version is listed, and the wildcard after it is chosen. */
  lemma WildcardChosen(t: Template, w: Template)
    requires t.version == "v1" && w.version == "*"
    ensures Chosen([t, w], "v1") == w && Intended([t, w], "v1") == t && t != w
  {
    assert [t, w][0].version == "v1";
    assert [t, w][..1] == [t];
    assert LastListed([t], "v1") == t;
  }

  /* ---- distinct versions ---- */

  ghost predicate DistinctVersions(versions: seq<string>)
  {
    forall i, k :: 0 <= i < k < |versions| ==> versions[i] != versions[k]
  }

  /** A reported duplicate names two places with the same version, none of which lies between them. */
  ghost predicate Duplicate(versions: seq<string>, p: nat, i: nat)
  {
    p < i < |versions| && versions[p] == versions[i] && forall k :: p < k < i ==> versions[k] != versions[i]
  }

  lemma FirstRepeat(listed: seq<string>) returns (p: nat, i: nat)
    requires !DistinctVersions(listed)
    ensures Duplicate(listed, p, i)
  {
    var a: nat, b: nat :| a < b < |listed| && listed[a] == listed[b];
    p, i := a, b;
    while exists k :: p < k < i && listed[k] == listed[i]
      invariant p < i < |listed| && listed[p] == listed[i]
      decreases i - p
    {
      var later: nat :| p < later < i && listed[later] == listed[i];
      p := later;
    }
  }

  /** The duplicate check of ClusterWorkloadResourceMapping.validate. */
  method DuplicateVersions(listed: seq<string>) returns (errs: seq<(nat, nat)>)
    ensures errs == [] <==> DistinctVersions(listed)
    ensures forall e :: e in errs ==> Duplicate(listed, e.0, e.1)
    ensures forall p: nat, i: nat :: Duplicate(listed, p, i) ==> (p, i) in errs
  {
    errs := [];
    var versions: map<string, nat> := map[];
    for i := 0 to |listed|
      invariant forall v :: v in versions ==>
                  && versions[v] < i && listed[versions[v]] == v
                  && forall k :: versions[v] < k < i ==> listed[k] != v
      invariant forall k :: 0 <= k < i ==> listed[k] in versions
      invariant forall e :: e in errs ==> e.1 < i && Duplicate(listed, e.0, e.1)
      invariant forall p: nat, k: nat :: k < i && Duplicate(listed, p, k) ==> (p, k) in errs
    {
      ghost var before := errs;
      if listed[i] in versions {
        errs := errs + [(versions[listed[i]], i)];
        assert Duplicate(listed, versions[listed[i]], i);
      }
      forall p: nat | Duplicate(listed, p, i)
        ensures (p, i) in errs
      {
        assert listed[p] in versions;
        var q := versions[listed[i]];
        assert p == q;
        assert errs[|before|] == (q, i);
      }
      versions := versions[listed[i] := i];
    }
    if !DistinctVersions(listed) {
      var p: nat, i: nat := FirstRepeat(listed);
      assert (p, i) in errs;
    }
    if errs != [] {
      assert errs[0] in errs;
    }
  }
}
