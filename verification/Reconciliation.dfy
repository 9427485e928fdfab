/** The controller's pipeline on workloads: resolve, project, patch, and the condition that reports it. */
module Reconciliation {
  import opened Wrappers
  import opened Bindings
  import opened Json
  import opened Workload
  import opened Runs
  import opened Promises
  import HeapTrees
  import JsonHeap
  import LensLaws
  import WorkloadLaws
  import WorkloadProjector

  datatype Status = True | False | Unknown

  datatype Condition = Condition(status: Status, reason: string)

  const INITIALIZING := Condition(Unknown, "Initializing")
  const PROJECTED := Condition(True, "WorkloadProjected")

  /** How looking up the workloads can end. */
  datatype Lookup = Found(workloads: seq<Resource>) | NotFound | Forbidden | OtherFailure

  /** How updating one workload can end. */
  datatype Update = Updated | Gone | Denied | Failed

  /** A sub-reconciler ends normally, returns an error, or panics. */
  type Sync = Outcome<()>

  const UID: Path := [Key("metadata"), Key("uid")]
  const RESOURCE_VERSION: Path := [Key("metadata"), Key("resourceVersion")]

  /** The mapping used for a workload does not address what identifies the workload. */
  ghost predicate KeepsIdentity(m: Mapping)
  {
    LensLaws.Outside(m, UID) && LensLaws.Outside(m, RESOURCE_VERSION)
  }

  lemma StepKeepsIdentity(c: Codec, m: Mapping, s: Step, j: Json)
    requires KeepsIdentity(m) && WorkloadLaws.TakeOn(c, m, s, j).Ok?
    ensures SameAt(WorkloadLaws.TakeOn(c, m, s, j).value, j, UID)
    ensures SameAt(WorkloadLaws.TakeOn(c, m, s, j).value, j, RESOURCE_VERSION)
  {
    var v := Take(s, Read(c, m, j).value);
    LensLaws.WriteFrame(c, m, j, v, UID);
    LensLaws.WriteFrame(c, m, j, v, RESOURCE_VERSION);
  }

  /** `results` are the results of `f` on the first workloads. */
  ghost predicate Each(f: Json -> Outcome<Json>, workloads: seq<Resource>, results: seq<Json>)
  {
    |results| <= |workloads| && forall i :: 0 <= i < |results| ==> f(workloads[i]) == Ok(results[i])
  }

  lemma OneMore(f: Json -> Outcome<Json>, workloads: seq<Resource>, results: seq<Json>, r: Json)
    requires |results| < |workloads| && Each(f, workloads, results) && f(workloads[|results|]) == Ok(r)
    ensures Each(f, workloads, results + [r])
  {
  }

  /** What one step on a workload makes of its view. */
  lemma StepRead(c: Codec, m: Mapping, s: Step, j: Json)
    requires Mappable(c, m, j)
    ensures WorkloadLaws.TakeOn(c, m, s, j).Ok?
    ensures Read(c, m, WorkloadLaws.TakeOn(c, m, s, j).value) == Ok(Take(s, Read(c, m, j).value))
  {
    var v := Read(c, m, j).value;
    WorkloadLaws.RunLifts(c, m, [s], j);
    RunSnoc([], s, v);
    assert [] + [s] == [s] && [s][..0] == [];
    WorkloadLaws.RunOnStep(c, m, [s], j);
  }

  function Pairs(workloads: seq<Resource>, projected: seq<Json>, n: nat): seq<(Json, Json)>
    requires n <= |workloads| && n <= |projected|
  {
    seq(n, i requires 0 <= i < n => (workloads[i], projected[i]))
  }

  /** The world a reconciliation runs in: the binding, and what the API server answers. */
  datatype World = World(
    codec: Codec,
    binding: ServiceBinding,
    terminating: bool,
    mapping: Json -> Outcome<Mapping>,
    /** How GetUID and GetResourceVersion read what they find; what is not a string reads as "". */
    text: Outcome<Json> -> string,
    lookup: Lookup,
    update: nat -> Update
  ) {
    function TheStep(): Step
    {
      if terminating then UnprojectStep(binding) else ProjectStep(binding)
    }

    /** What the projector makes of a workload. */
    function Projection(j: Json): Outcome<Json>
    {
      var m :- mapping(j);
      WorkloadLaws.TakeOn(codec, m, TheStep(), j)
    }

    function Projector(): Json -> Outcome<Json>
    {
      (j: Json) => Projection(j)
    }

    /** `projected` holds the projections of the first workloads. */
    ghost predicate Projections(workloads: seq<Resource>, projected: seq<Json>)
    {
      Each(Projector(), workloads, projected)
    }

    predicate SameIdentity(j: Json, k: Json)
    {
      text(Get(j, UID)) == text(Get(k, UID)) && text(Get(j, RESOURCE_VERSION)) == text(Get(k, RESOURCE_VERSION))
    }

    /** What the update of one workload must achieve, seen through its mapping: a binding that is not being deleted and
        has a secret provides what it promises, and any other binding leaves nothing. */
    ghost predicate Delivered(before: Json, after: Json)
    {
      mapping(before).Ok? && Mappable(codec, mapping(before).value, before) ==>
        var was, now := Read(codec, mapping(before).value, before), Read(codec, mapping(before).value, after);
        now.Ok? && if !terminating && HasSecret(binding) then Provided(binding, now.value)
                   else Withdrawn(binding.uid, was.value, now.value)
    }

    lemma ProjectionDelivers(j: Json, k: Json)
      requires Projection(j) == Ok(k)
      ensures Delivered(j, k)
    {
      var m := mapping(j).value;
      if Mappable(codec, m, j) {
        StepRead(codec, m, TheStep(), j);
        StepAchieves(TheStep(), Read(codec, m, j).value);
      }
    }

    /** Every one of these updates delivers what the binding is for. */
    ghost predicate DeliversAll(updates: seq<(Json, Json)>)
    {
      forall p :: p in updates ==> Delivered(p.0, p.1)
    }

    lemma DeliveredAt(workloads: seq<Resource>, projected: seq<Json>, i: nat)
      requires i < |projected| == |workloads| && Projections(workloads, projected)
      ensures Delivered(workloads[i], projected[i])
    {
      ProjectionDelivers(workloads[i], projected[i]);
    }

    lemma ProjectionsDeliver(workloads: seq<Resource>, projected: seq<Json>)
      requires |projected| == |workloads| && Projections(workloads, projected)
      ensures DeliversAll(Pairs(workloads, projected, |workloads|))
    {
      var all := Pairs(workloads, projected, |workloads|);
      forall p | p in all
        ensures Delivered(p.0, p.1)
      {
        var i :| 0 <= i < |all| && all[i] == p;
        DeliveredAt(workloads, projected, i);
      }
    }

    /** One update for each workload found, in order, with its projection. */
    ghost predicate UpdatesAll(updates: seq<(Json, Json)>)
    {
      && lookup.Found? && |updates| == |lookup.workloads|
      && forall i :: 0 <= i < |updates| ==>
           updates[i].0 == lookup.workloads[i] && Projection(updates[i].0) == Ok(updates[i].1)
    }

    /** The first `n` updates, asked for after those of before. */
    lemma UpdatesAsked(before: seq<(Json, Json)>, workloads: seq<Resource>, projected: seq<Json>, n: nat)
      requires before == [] && n <= |workloads| == |projected| && Projections(workloads, projected)
      requires DeliversAll(Pairs(workloads, projected, |workloads|))
      ensures DeliversAll(before + Pairs(workloads, projected, n))
      ensures n == |workloads| && lookup.Found? && workloads == lookup.workloads ==>
        UpdatesAll(before + Pairs(workloads, projected, n))
    {
      var some, all := Pairs(workloads, projected, n), Pairs(workloads, projected, |workloads|);
      assert before + some == some;
      forall p | p in some
        ensures p in all
      {
        var i :| 0 <= i < |some| && some[i] == p;
        assert all[i] == p;
      }
    }

    ghost predicate MappingsKeepIdentity()
    {
      forall j :: mapping(j).Ok? ==> KeepsIdentity(mapping(j).value)
    }

    /** What identifies a workload is read at metadata.uid and metadata.resourceVersion. */
    lemma IdentityExactly(j: Json, k: Json)
      ensures SameIdentity(j, k) <==>
        && text(Get(j, Patterns.Keys(["metadata", "uid"]))) == text(Get(k, Patterns.Keys(["metadata", "uid"])))
        && text(Get(j, Patterns.Keys(["metadata", "resourceVersion"])))
           == text(Get(k, Patterns.Keys(["metadata", "resourceVersion"])))
    {
      assert Patterns.Keys(["metadata", "uid"]) == UID;
      assert Patterns.Keys(["metadata", "resourceVersion"]) == RESOURCE_VERSION;
    }

    lemma ProjectionsKeepIdentity(workloads: seq<Resource>, projected: seq<Json>)
      requires MappingsKeepIdentity() && |projected| == |workloads| && Projections(workloads, projected)
      ensures forall i :: 0 <= i < |workloads| ==> SameIdentity(workloads[i], projected[i])
    {
      forall i | 0 <= i < |workloads|
        ensures SameIdentity(workloads[i], projected[i])
      {
        assert Projection(workloads[i]) == Ok(projected[i]);
        StepKeepsIdentity(codec, mapping(workloads[i]).value, TheStep(), workloads[i]);
      }
    }

    /** Every workload found could be projected. */
    ghost predicate AllProjected()
    {
      lookup.Found? && forall i :: 0 <= i < |lookup.workloads| ==> Projection(lookup.workloads[i]).Ok?
    }

    /** Every update succeeded, or found the workload gone. */
    ghost predicate AllPatched()
    {
      lookup.Found? && forall i :: 0 <= i < |lookup.workloads| ==> update(i).Updated? || update(i).Gone?
    }
  }

  class Reconciler {
    const world: World
    var condition: Condition
    var workloads: seq<Resource>
    var projectedWorkloads: seq<Json>
    /** The updates asked of the API server: the workload as it was, and as it is to be. */
    var patched: seq<(Json, Json)>

    constructor (world: World)
      ensures this.world == world && condition == INITIALIZING && workloads == [] && projectedWorkloads == []
      ensures patched == []
    {
      this.world, condition := world, INITIALIZING;
      workloads, projectedWorkloads, patched := [], [], [];
    }

    method ResolveWorkloads() returns (r: Sync)
      modifies this`condition, this`workloads
      ensures !r.Panic?
      ensures r.Error? <==> world.lookup.OtherFailure?
      ensures workloads == if world.lookup.Found? then world.lookup.workloads else old(workloads)
      ensures condition == match world.lookup
        case NotFound => Condition(Unknown, "WorkloadNotFound")
        case Forbidden => Condition(False, "WorkloadForbidden")
        case _ => old(condition)
    {
      match world.lookup {
        case NotFound =>
          condition := Condition(Unknown, "WorkloadNotFound");
          return Ok(());
        case Forbidden =>
          condition := Condition(False, "WorkloadForbidden");
          return Ok(());
        case OtherFailure =>
          return Error;
        case Found(found) =>
          workloads := found;
          return Ok(());
      }
    }

    /** A deep copy is projected into, or withdrawn from when the binding is being deleted. */
    method ProjectWorkload(workload: Resource) returns (r: Outcome<Json>)
      ensures r == world.Projection(workload)
      ensures r.Ok? ==> world.Delivered(workload, r.value)
    {
      var mapping := world.mapping(workload);
      if mapping.Error? { return Error; }
      if mapping.Panic? { return Panic; }
      var copy, done;
      ghost var S, T;
      copy, S := HeapTrees.Copy(workload, []);
      if world.terminating {
        done, T := WorkloadProjector.Unproject(world.codec, mapping.value, world.binding, copy.node, workload, S);
      } else {
        done, T := WorkloadProjector.Project(world.codec, mapping.value, world.binding, copy.node, workload, S);
      }
      if done.Error? { return Error; }
      if done.Panic? { return Panic; }
      var projected := HeapTrees.Decode(JsonHeap.VMap(copy.node), world.Projection(workload).value, T);
      world.ProjectionDelivers(workload, projected);
      r := Ok(projected);
    }

    /** The loop over the workloads, ended by the first that cannot be projected. */
    method ProjectWorkloads(workloads: seq<Resource>) returns (r: Outcome<seq<Json>>)
      ensures r.Ok? ==> |r.value| == |workloads| && world.Projections(workloads, r.value)
      ensures !r.Ok? ==> exists i :: 0 <= i < |workloads| && !world.Projection(workloads[i]).Ok?
    {
      var projected: seq<Json> := [];
      for i := 0 to |workloads|
        invariant |projected| == i && world.Projections(workloads, projected)
      {
        var workload := ProjectWorkload(workloads[i]);
        if workload.Error? { return Error; }
        if workload.Panic? { return Panic; }
        OneMore(world.Projector(), workloads, projected, workload.value);
        projected := projected + [workload.value];
      }
      r := Ok(projected);
    }

    method ProjectBinding() returns (r: Sync)
      modifies this`projectedWorkloads
      ensures r.Ok? <==> forall i :: 0 <= i < |workloads| ==> world.Projection(workloads[i]).Ok?
      ensures r.Ok? ==> |projectedWorkloads| == |workloads| && world.Projections(workloads, projectedWorkloads)
      ensures r.Ok? ==> world.DeliversAll(Pairs(workloads, projectedWorkloads, |workloads|))
      ensures !r.Ok? ==> projectedWorkloads == old(projectedWorkloads)
    {
      var projected := ProjectWorkloads(workloads);
      if projected.Error? { return Error; }
      if projected.Panic? { return Panic; }
      projectedWorkloads := projected.value;
      world.ProjectionsDeliver(workloads, projectedWorkloads);
      r := Ok(());
    }

    /** Every update the API server would be asked for succeeds or finds the workload gone. */
    ghost predicate AllUpdated()
      reads this`workloads
    {
      forall i :: 0 <= i < |workloads| ==> world.update(i).Updated? || world.update(i).Gone?
    }

    /** How the updates of the first `n` workloads went: all but the last succeeded or found the workload gone. */
    ghost predicate Walked(workloads: seq<Resource>, projected: seq<Json>, n: nat)
      requires |workloads| == |projected|
    {
      && n <= |workloads|
      && (forall k :: 0 <= k < n ==> world.SameIdentity(workloads[k], projected[k]))
      && forall k :: 0 <= k < n - 1 ==> world.update(k).Updated? || world.update(k).Gone?
    }

    lemma WalkOn(workloads: seq<Resource>, projected: seq<Json>, n: nat)
      requires |workloads| == |projected| && n < |workloads| && Walked(workloads, projected, n)
      requires world.SameIdentity(workloads[n], projected[n])
      requires n > 0 ==> world.update(n - 1).Updated? || world.update(n - 1).Gone?
      ensures Walked(workloads, projected, n + 1)
      ensures Pairs(workloads, projected, n + 1) == Pairs(workloads, projected, n) + [(workloads[n], projected[n])]
    {
    }

    /** One update is asked for per workload, in order, until one is denied or fails. */
    method UpdateAll(workloads: seq<Resource>, projected: seq<Json>)
      returns (r: Outcome<bool>, n: nat, sent: seq<(Json, Json)>)
      requires |workloads| == |projected|
      ensures Walked(workloads, projected, n) && sent == Pairs(workloads, projected, n)
      ensures match r
        case Ok(true) => n == |workloads| && (n > 0 ==> world.update(n - 1).Updated? || world.update(n - 1).Gone?)
        case Ok(false) => n > 0 && world.update(n - 1).Denied?
        case Error => n > 0 && world.update(n - 1).Failed?
        case Panic => n < |workloads| && !world.SameIdentity(workloads[n], projected[n])
    {
      n, sent := 0, [];
      for i := 0 to |workloads|
        invariant n == i && Walked(workloads, projected, i) && sent == Pairs(workloads, projected, i)
        invariant i > 0 ==> world.update(i - 1).Updated? || world.update(i - 1).Gone?
      {
        if !world.SameIdentity(workloads[i], projected[i]) {
          return Panic, n, sent;
        }
        WalkOn(workloads, projected, i);
        n, sent := i + 1, sent + [(workloads[i], projected[i])];
        match world.update(i) {
          case Updated =>
          case Gone => continue;
          case Denied => return Ok(false), n, sent;
          case Failed => return Error, n, sent;
        }
      }
      r := Ok(true);
    }

    /** The updates, and the condition that reports them. */
    method PatchWorkloads() returns (r: Sync, ghost n: nat)
      modifies this`condition, this`patched
      ensures |workloads| != |projectedWorkloads| ==> r.Panic? && n == 0 && patched == old(patched)
      ensures |workloads| == |projectedWorkloads| ==>
        Walked(workloads, projectedWorkloads, n) && patched == old(patched) + Pairs(workloads, projectedWorkloads, n)
      ensures r.Ok? && AllUpdated() ==> n == |workloads|
      ensures r.Ok? && !AllUpdated() ==> n > 0 && world.update(n - 1).Denied?
      ensures r.Error? ==> n > 0 && world.update(n - 1).Failed? && !AllUpdated()
      ensures r.Panic? && |workloads| == |projectedWorkloads| ==>
        n < |workloads| && !world.SameIdentity(workloads[n], projectedWorkloads[n])
      ensures r.Ok? && AllUpdated() ==>
        condition == if old(condition) == INITIALIZING then PROJECTED else old(condition)
      ensures r.Ok? && !AllUpdated() ==> condition == Condition(False, "WorkloadForbidden")
      ensures !r.Ok? ==> condition == old(condition)
    {
      n := 0;
      if |workloads| != |projectedWorkloads| {
        return Panic, n;
      }
      var done, sent;
      done, n, sent := UpdateAll(workloads, projectedWorkloads);
      patched := patched + sent;
      if done.Error? { return Error, n; }
      if done.Panic? { return Panic, n; }
      if !done.value {
        condition := Condition(False, "WorkloadForbidden");
        return Ok(()), n;
      }
      if condition == INITIALIZING {
        condition := PROJECTED;
      }
      r := Ok(());
    }

    /** The sub-reconcilers in sequence, the first error ending the sequence. From a new condition, it ends True
        exactly when the workloads were found and projected and every update succeeded or found its workload gone.
        If mappings leave the identity of workloads alone, the only panics are those of the projector itself. */
    method Reconcile() returns (r: Sync)
      requires condition == INITIALIZING && workloads == [] && projectedWorkloads == [] && patched == []
      requires world.MappingsKeepIdentity()
      modifies this
      ensures condition.status == True <==> world.AllProjected() && world.AllPatched()
      ensures condition.status == True <==> condition == PROJECTED
      ensures condition == PROJECTED ==> world.UpdatesAll(patched)
      ensures world.DeliversAll(patched)
      ensures r.Panic? ==> world.lookup.Found? && !world.AllProjected()
    {
      var resolved := ResolveWorkloads();
      if !resolved.Ok? {
        return resolved;
      }
      var projected := ProjectBinding();
      if !projected.Ok? {
        return projected;
      }
      world.ProjectionsKeepIdentity(workloads, projectedWorkloads);
      ghost var n;
      r, n := PatchWorkloads();
      world.UpdatesAsked([], workloads, projectedWorkloads, n);
    }
  }

  /** The default mapping leaves the identity of workloads alone. */
  lemma DefaultMappingKeepsIdentity()
    ensures KeepsIdentity(WorkloadLaws.DefaultMapping())
  {
    var m := WorkloadLaws.DefaultMapping();
    forall q | q == UID || q == RESOURCE_VERSION
      ensures LensLaws.Outside(m, q)
    {
      assert q[0] == Key("metadata");
      assert Patterns.FieldSteps(m.annotations)[0] == Patterns.Field("spec") == Patterns.FieldSteps(m.volumes)[0];
      forall i: nat, a: nat | Target(m.containers, i, a)
        ensures Patterns.Misses(TargetPattern(m.containers, i, a), q)
      {
        assert TargetPattern(m.containers, i, a)[0] == Patterns.Field("spec");
      }
    }
  }
}
