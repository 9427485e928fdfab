/** From the expressions of a mapping template to the locations they name, for expressions of fields and `[*]`. */
module Expressions {
  import opened Wrappers
  import opened Json
  import opened Patterns
  import opened PathValidator
  import opened Workload
  import Resolver
  import WorkloadLaws

  /* ---- one expression ---- */

  /** How many characters belong to the field name at the front. */
  function NameLength(s: string): (n: nat)
    ensures n <= |s|
  {
    if s == "" || s[0] == '.' || s[0] == '[' then 0 else 1 + NameLength(s[1..])
  }

  /** The steps that an expression such as `.spec.containers[*]` spells out. */
  function ParseSteps(s: string): Option<Pattern>
    decreases |s|
  {
    if s == "" then Some([])
    else if s[0] == '.' then
      var n := NameLength(s[1..]);
      var rest := ParseSteps(s[1 + n..]);
      if n == 0 || rest.None? then None else Some([Field(s[1..1 + n])] + rest.value)
    else if "[*]" <= s then
      var rest := ParseSteps(s[3..]);
      if rest.None? then None else Some([All] + rest.value)
    else None
  }

  function SpelledStep(step: PatternStep): string
  {
    match step
    case Field(name) => "." + name
    case All => "[*]"
  }

  function Spelled(steps: Pattern): string
  {
    if steps == [] then "" else SpelledStep(steps[0]) + Spelled(steps[1..])
  }

  /** A field name that needs no quotes. */
  predicate PlainName(name: string)
  {
    name != "" && '.' !in name && '[' !in name
  }

  predicate PlainSteps(steps: Pattern)
  {
    forall i :: 0 <= i < |steps| && steps[i].Field? ==> PlainName(steps[i].name)
  }

  lemma {:induction false} NameEnds(name: string, rest: string)
    requires '.' !in name && '[' !in name && (rest == "" || rest[0] == '.' || rest[0] == '[')
    ensures NameLength(name + rest) == |name|
  {
    if name == "" {
      assert name + rest == rest;
    } else {
      assert name[0] in name && forall c :: c in name[1..] ==> c in name;
      assert (name + rest)[0] == name[0] && (name + rest)[1..] == name[1..] + rest;
      NameEnds(name[1..], rest);
    }
  }

  lemma SpelledFront(steps: Pattern)
    ensures Spelled(steps) == "" || Spelled(steps)[0] == '.' || Spelled(steps)[0] == '['
  {
  }

  lemma ParseField(s: string, name: string, rest: string)
    requires PlainName(name) && (rest == "" || rest[0] == '.' || rest[0] == '[') && ParseSteps(rest).Some?
    requires |s| == 1 + |name| + |rest| && s[0] == '.' && s[1..1 + |name|] == name && s[1 + |name|..] == rest
    ensures ParseSteps(s) == Some([Field(name)] + ParseSteps(rest).value)
  {
    assert s[1..] == name + rest;
    NameEnds(name, rest);
  }

  lemma ParseItems(s: string, rest: string)
    requires ParseSteps(rest).Some? && s == "[*]" + rest
    ensures ParseSteps(s) == Some([PatternStep.All] + ParseSteps(rest).value)
  {
    assert s[0] == '[' && s[..3] == "[*]" && s[3..] == rest;
  }

  /** Reading what has been spelled out gives the steps back. */
  lemma {:induction false} ParseSpelled(steps: Pattern)
    requires PlainSteps(steps)
    ensures ParseSteps(Spelled(steps)) == Some(steps)
    decreases |steps|
  {
    if steps != [] {
      var rest := Spelled(steps[1..]);
      ParseSpelled(steps[1..]);
      SpelledFront(steps[1..]);
      assert steps == [steps[0]] + steps[1..];
      match steps[0]
      case Field(name) => ParseField(Spelled(steps), name, rest);
      case All => ParseItems(Spelled(steps), rest);
    }
  }

  /** The parsed expression as the consumer walks it. */
  function NodesOf(steps: Pattern): seq<PathValidator.Node>
  {
    seq(|steps|, i requires 0 <= i < |steps| =>
      if steps[i].Field? then FieldNode(steps[i].name) else OtherNode("[*]"))
  }

  /** The keys of an expression; none when it cannot be parsed or has a step that is not a field. */
  function KeysIn(s: string): Option<seq<string>>
  {
    var steps := ParseSteps(s);
    if steps.None? then None else FieldKeys(ListNode([ListNode(NodesOf(steps.value))]))
  }

  /* ---- one template ---- */

  function ContainerIn(c: Resolver.TemplateContainer): Option<ContainerMapping>
  {
    var path, env, mounts := ParseSteps(c.path), KeysIn(c.env), KeysIn(c.volumeMounts);
    if path.None? || env.None? || mounts.None? then None
    else if c.name == "" then Some(ContainerMapping(path.value, None, env.value, mounts.value))
    else if KeysIn(c.name).None? then None
    else Some(ContainerMapping(path.value, KeysIn(c.name), env.value, mounts.value))
  }

  function ContainersIn(cs: seq<Resolver.TemplateContainer>): Option<seq<ContainerMapping>>
  {
    if cs == [] then Some([])
    else
      var first, rest := ContainerIn(cs[0]), ContainersIn(cs[1..]);
      if first.None? || rest.None? then None else Some([first.value] + rest.value)
  }

  /** The locations that a template's expressions name. */
  function MappingIn(t: Resolver.Template): Option<Mapping>
  {
    var annotations, containers, volumes := KeysIn(t.annotations), ContainersIn(t.containers), KeysIn(t.volumes);
    if annotations.None? || containers.None? || volumes.None? then None
    else Some(Mapping(annotations.value, containers.value, volumes.value))
  }

  /* ---- the default ---- */

  lemma KeysSpelled(keys: seq<string>)
    requires forall i :: 0 <= i < |keys| ==> PlainName(keys[i])
    ensures KeysIn(Spelled(FieldSteps(keys))) == Some(keys)
  {
    ParseSpelled(FieldSteps(keys));
    assert NodesOf(FieldSteps(keys)) == FieldNodes(keys);
    KeysOfFields(keys);
    var root := [ListNode(FieldNodes(keys))];
    assert FieldKeys(root[0]) == Some(keys) && root[1..] == [];
    assert AllFieldKeys(root[1..]) == Some([]);
    assert keys + [] == keys;
    assert AllFieldKeys(root) == Some(keys);
    assert FieldKeys(ListNode(root)) == AllFieldKeys(root);
  }

  lemma SpelledMore(step: PatternStep, steps: Pattern)
    ensures Spelled([step] + steps) == SpelledStep(step) + Spelled(steps)
  {
    assert ([step] + steps)[1..] == steps;
  }

  lemma TemplateNamesPlain()
    ensures PlainName("spec") && PlainName("template")
  {
  }

  lemma PartNamesPlain()
    ensures PlainName("metadata") && PlainName("annotations") && PlainName("volumes")
  {
  }

  lemma ListNamesPlain()
    ensures PlainName("initContainers") && PlainName("containers")
  {
  }

  lemma ContainerNamesPlain()
    ensures PlainName("name") && PlainName("env") && PlainName("volumeMounts")
  {
  }

  lemma FieldsSpelled(first: string, second: string, rest: Pattern)
    ensures Spelled([Field(first), Field(second)] + rest) == "." + first + ("." + second + Spelled(rest))
  {
    var inner := [Field(second)] + rest;
    SpelledMore(Field(second), rest);
    SpelledMore(Field(first), inner);
    assert [Field(first), Field(second)] + rest == [Field(first)] + inner;
  }

  lemma TemplateString(rest: string)
    ensures "." + "spec" + ("." + "template" + rest) == ".spec.template" + rest
  {
  }

  lemma TemplateSpelled(rest: Pattern)
    ensures Spelled([Field("spec"), Field("template")] + rest) == ".spec.template" + Spelled(rest)
  {
    FieldsSpelled("spec", "template", rest);
    TemplateString(Spelled(rest));
  }

  lemma OneSpelled(name: string)
    ensures Spelled([Field(name)]) == "." + name && FieldSteps([name]) == [Field(name)]
  {
    assert [Field(name)][1..] == [];
  }

  lemma TwoSpelled(first: string, second: PatternStep)
    ensures Spelled([Field(first), second]) == "." + first + SpelledStep(second)
  {
    var none: Pattern := [];
    SpelledMore(Field(first), [second]);
    SpelledMore(second, none);
    assert [second] + none == [second] && [Field(first)] + [second] == [Field(first), second];
    assert Spelled(none) == "";
  }

  /** The keys that lead through the pod template to a field of one of its parts. */
  lemma BelowTemplate(part: string, field: string)
    requires PlainName(part) && PlainName(field)
    ensures KeysIn(".spec.template" + ("." + part + ("." + field))) == Some(["spec", "template", part, field])
  {
    var keys := ["spec", "template", part, field];
    var rest := [Field(part), Field(field)];
    TemplateNamesPlain();
    TemplateSpelled(rest);
    TwoSpelled(part, Field(field));
    assert FieldSteps(keys) == [Field("spec"), Field("template")] + rest;
    KeysSpelled(keys);
  }

  lemma OneKey(name: string)
    requires PlainName(name)
    ensures KeysIn("." + name) == Some([name])
  {
    OneSpelled(name);
    KeysSpelled([name]);
  }

  /** The path to all items of a list of the pod's specification. */
  lemma ItemsOfPod(part: string, list: string)
    requires PlainName(part) && PlainName(list)
    ensures ParseSteps(".spec.template" + ("." + part + ("." + list + "[*]")))
         == Some([Field("spec"), Field("template"), Field(part), Field(list), PatternStep.All])
  {
    var inner := [Field(list), PatternStep.All];
    var rest := [Field(part)] + inner;
    var steps := [Field("spec"), Field("template")] + rest;
    TemplateNamesPlain();
    TemplateSpelled(rest);
    SpelledMore(Field(part), inner);
    TwoSpelled(list, PatternStep.All);
    assert steps == [Field("spec"), Field("template"), Field(part), Field(list), PatternStep.All];
    ParseSpelled(steps);
  }

  lemma PathStrings()
    ensures ".spec.template" + ("." + "metadata" + ("." + "annotations")) == ".spec.template.metadata.annotations"
    ensures ".spec.template" + ("." + "spec" + ("." + "volumes")) == ".spec.template.spec.volumes"
  {
  }

  lemma InitContainersString()
    ensures ".spec.template" + ("." + "spec" + ("." + "initContainers" + "[*]"))
         == ".spec.template.spec.initContainers[*]"
  {
  }

  lemma ContainersString()
    ensures ".spec.template" + ("." + "spec" + ("." + "containers" + "[*]")) == ".spec.template.spec.containers[*]"
  {
  }

  lemma FieldStrings()
    ensures "." + "name" == ".name" && "." + "env" == ".env" && "." + "volumeMounts" == ".volumeMounts"
  {
  }

  lemma DefaultedContainers(t: Resolver.Template, i: nat)
    requires t.containers == [] && i < 2
    ensures |Resolver.Defaulted(t).containers| == 2
    ensures var c := Resolver.Defaulted(t).containers[i];
      && c.path == (if i == 0 then ".spec.template.spec.initContainers[*]" else ".spec.template.spec.containers[*]")
      && c.name == ".name" && c.env == ".env" && c.volumeMounts == ".volumeMounts"
  {
    assert Resolver.Defaulted(t).containers[i] == Resolver.DefaultContainer(Resolver.DefaultContainers()[i]);
  }

  lemma DefaultContainerIn(c: Resolver.TemplateContainer, path: Pattern)
    requires ParseSteps(c.path) == Some(path)
    requires c.name == ".name" && c.env == ".env" && c.volumeMounts == ".volumeMounts"
    ensures ContainerIn(c) == Some(ContainerMapping(path, Some(["name"]), ["env"], ["volumeMounts"]))
  {
    ContainerNamesPlain();
    FieldStrings();
    OneKey("name");
    OneKey("env");
    OneKey("volumeMounts");
  }

  lemma {:induction false} TwoContainersIn(cs: seq<Resolver.TemplateContainer>, x: ContainerMapping,
                                           y: ContainerMapping)
    requires |cs| == 2 && ContainerIn(cs[0]) == Some(x) && ContainerIn(cs[1]) == Some(y)
    ensures ContainersIn(cs) == Some([x, y])
  {
    var none: seq<ContainerMapping> := [];
    assert cs[1..][0] == cs[1] && cs[1..][1..] == [];
    assert ContainersIn(cs[1..][1..]) == Some(none);
    assert [y] + none == [y] && [x] + [y] == [x, y];
    assert ContainersIn(cs[1..]) == Some([y]);
  }

  lemma DefaultKeys()
    ensures var m := WorkloadLaws.DefaultMapping();
      && m.annotations == ["spec", "template", "metadata", "annotations"]
      && m.volumes == ["spec", "template", "spec", "volumes"]
  {
  }

  lemma DefaultPaths()
    ensures var ms := WorkloadLaws.DefaultMapping().containers;
      && |ms| == 2
      && ms[0].path == [Field("spec"), Field("template"), Field("spec"), Field("initContainers"), PatternStep.All]
      && ms[1].path == [Field("spec"), Field("template"), Field("spec"), Field("containers"), PatternStep.All]
  {
  }

  lemma DefaultContainersIn(t: Resolver.Template)
    requires t.containers == []
    ensures ContainersIn(Resolver.Defaulted(t).containers) == Some(WorkloadLaws.DefaultMapping().containers)
  {
    var cs, ms := Resolver.Defaulted(t).containers, WorkloadLaws.DefaultMapping().containers;
    TemplateNamesPlain();
    ListNamesPlain();
    InitContainersString();
    ContainersString();
    DefaultPaths();
    DefaultedContainers(t, 0);
    DefaultedContainers(t, 1);
    ItemsOfPod("spec", "initContainers");
    ItemsOfPod("spec", "containers");
    DefaultContainerIn(cs[0], ms[0].path);
    DefaultContainerIn(cs[1], ms[1].path);
    TwoContainersIn(cs, ms[0], ms[1]);
    assert ms == [ms[0], ms[1]];
  }

  lemma DefaultKeysIn(t: Resolver.Template)
    requires t.annotations == "" && t.volumes == ""
    ensures KeysIn(Resolver.Defaulted(t).annotations) == Some(["spec", "template", "metadata", "annotations"])
    ensures KeysIn(Resolver.Defaulted(t).volumes) == Some(["spec", "template", "spec", "volumes"])
  {
    TemplateNamesPlain();
    PartNamesPlain();
    PathStrings();
    BelowTemplate("metadata", "annotations");
    BelowTemplate("spec", "volumes");
  }

  /** The expressions of a template that is defaulted throughout name the locations of the default mapping. */
  lemma DefaultedIsDefaultMapping(t: Resolver.Template)
    requires t.annotations == "" && t.containers == [] && t.volumes == ""
    ensures MappingIn(Resolver.Defaulted(t)) == Some(WorkloadLaws.DefaultMapping())
  {
    DefaultKeysIn(t);
    DefaultContainersIn(t);
    DefaultKeys();
  }

  lemma {:induction false} LastListedNone(versions: seq<Resolver.Template>)
    requires forall t :: t in versions ==> t.version != "*"
    ensures Resolver.LastListed(versions, "*") == Resolver.Template("*", "", [], "")
  {
    if versions != [] {
      LastListedNone(versions[..|versions| - 1]);
    }
  }

  /** When a mapping resource offers nothing for a version, the mapping used is the default one, which is separated. */
  lemma NothingOfferedIsDefault(versions: seq<Resolver.Template>, version: string)
    requires forall t :: t in versions ==> t.version != version && t.version != "*"
    ensures MappingIn(Resolver.Defaulted(Resolver.Chosen(versions, version))) == Some(WorkloadLaws.DefaultMapping())
    ensures Separated(WorkloadLaws.DefaultMapping())
  {
    LastListedNone(versions);
    DefaultedIsDefaultMapping(Resolver.Chosen(versions, version));
    WorkloadLaws.DefaultMappingSeparated();
  }
}
