# Service binding runtime: a verified model

The service binding runtime implements the Service Binding Specification for Kubernetes 1.0.0. A `ServiceBinding` is
*projected* into workloads: a volume with the service's secret, a mount and environment variables in each container it
binds, and annotations that remember what was projected. Many bindings share one workload. A controller and an
admission webhook both project, at different times and in different orders, and each expects to find the other's work
finished. This project models that machinery and proves what its correctness rests on.

The core is the projector. What it is for is stated without it: `Promises` says how Kubernetes resolves the variables and
files of a pod, and what a binding promises its containers, and proves that a projected template provides exactly that
(`ProjectProvides`), a withdrawn one nothing (`UnprojectWithdraws`), that no run touches what is not the projector's
(`RunTouchesNothing`), and that the controller's updates deliver it (`Reconcile`).

A projection is "unproject, append, stable-sort, record annotations", and the annotations are the only memory of what
has to be removed later. The main results are about whole runs of projections and removals by any number of bindings.
Such a run ends where taking only each binding's last step ends (`RunIsReplay`), and the order of these last steps
matters exactly where two bindings set one variable in one container (`OrdersAgreeExactly`, `Confluence`). Every state a
run passes through is referentially intact (`RunsAreIntact`). The webhook's result does not depend on the order of the
bindings, and the controller leaves it alone, exactly when no two bindings meet in that way (`WebhookIsStable`,
`ControllerIsIdle`). The results hold for the pod template view and, through the lens laws of the workload mapping, for
the whole JSON workload.

## How the project is arranged

| file | what it is about |
|---|---|
| `Wrappers`, `Filtering`, `Ordering`, `StableSort`, `GoPath` | options and outcomes; the removal loop; the comparator; the theory of stable sorting; `path.Join` |
| `Bindings`, `Names`, `Projection` | the entities, the annotation and volume names, and the projector as functions on values |
| `EnvLaws`, `ContainerLaws`, `TemplateLaws` | one list, one container, one pod template: round trip, absorption, idempotence, commutation |
| `Promises`, `Untouched` | what the processes of a pod see of a binding, and which containers do; what no run touches |
| `Runs` | whole runs: admissibility, what a removal at the end erases, which steps of a run count |
| `Orders` | when two orders of the same steps end alike: confluence, webhook and controller |
| `Conservation`, `Integrity` | what a projection keeps and adds; what every reachable state satisfies |
| `Projector` | the projector as it runs, on objects that are changed in place, each method proved against `Projection` |
| `Json`, `Patterns`, `StepwiseSearch` | one location of a JSON tree as a lens; expressions that match container nodes; the search as the library runs it |
| `JsonHeap`, `HeapTrees` | `find`, `getAt` and `setAt` on a tree of maps that is walked by reference and changed in place; copying, searching and what a write leaves where it is |
| `Workload`, `WorkloadLens`, `LensLaws`, `WorkloadLaws` | reading a view out of a workload and writing it back, as functions on values; the laws lifted to workloads |
| `ViewLocations` | where each part of a view is in the workload, exactly |
| `AppearingContainers` | exactly when a view that was read can be written back |
| `WorkloadProjector` | the same as it runs: loops that read the view out of the tree and write it back in place |
| `Witnesses` | a codec, two bindings and a workload that meet the hypotheses below, together |
| `WebhookRules`, `PathValidator`, `AccessCache`, `Resolver`, `Expressions`, `Selection`, `Reconciliation` | canonical webhook rules, path validation, the access cache, version choice, the locations a template names, workload selection, the controller's pipeline |

`dafny verify dfyconfig.toml` checks everything.

An `Outcome` is a value, an error, or a panic; the model keeps the difference between the last two. Where a method
changes objects, its contract equates their new state with a function of the old one, and the laws are proved about
that function. Ghost parameters and the ghost `path` of a map node carry proof information only.

## Hypotheses

The strong theorems are false without hypotheses, which are explicit predicates over what is there before the call:

- `Clean`: a variable that names the binding's secret is one that unprojecting the binding removes. `IdempotentExactly`
  proves that projecting twice is projecting once exactly when this holds. `AbsorptionExactly` is the like for two
  versions of a binding; it also needs the containers that only the replaced version reaches to be settled before.
- `RootsLiteral`, `Rooted`: a `SERVICE_BINDING_ROOT` is a literal; every container has one. Unproject never removes it.
- `Normal`: every list is in canonical order. Containers that a binding does not bind are filtered but not sorted, so
  exact equalities with unproject need it. `ProjectThenUnproject` says what holds without it.
- `Admissible`, `Respects` and a `Tenancy`: secrets, old and new, belong to one binding each, no other variable names a
  secret of a binding, and a binding that projects does not set `SERVICE_BINDING_ROOT` itself. Nothing is asked of a
  binding that is withdrawn, and nothing of variable names: a variable may pass from one binding to its replacement.
- `Independent`: one of two steps adds nothing, or their bindings share no container or no variable name. It is the
  condition in the exact forms, not a hypothesis of them.
- `Mappable`: mapped locations do not overlap (`Disjoint`); container nodes are not null (`SolidNodes`); a container that
  the path to the annotations or volumes leads through is there before they are written (`Anchored`); marshalling loses
  nothing (`LosslessCodec`). `WriteAfterReadExactly` proves that what was read can be written back exactly when the
  containers on the way to the annotations are there and no other container is null; `AppearingContainerPanics` and
  `NullContainerPanics` show inputs where either fails. A mapping that is `Separated` is disjoint and anchored in every
  workload; `DefaultMappingSeparated` shows that the default mapping is.

`Witnesses.HypothesesMet` shows that all of them can hold at once, also for a binding that is replaced by another one that
sets the same variable, and that these two would meet side by side. Referential integrity (`RunsAreIntact`) and
conservation (`ProjectConserves`) need none of them.

## A disagreement between code and intent

`LookupMapping` (resolver/cluster.go:64-83) means to prefer the template for the workload's exact version. Its module
asks for Go 1.18 (go.mod:3), where all iterations of a loop share one variable, and it keeps a pointer to that
variable: a match is remembered, but the template it ends up with is the last one listed. The model follows the code;
`Resolver.ChoiceExactly` states exactly when the result is the intended one, and `Resolver.WildcardChosen` shows it at
an input.

## Model

| member | source | states |
|---|---|---|
| Ordering.RankLessStrictWeak | projector/binding.go:161-176 | the comparator is irreflexive, asymmetric and transitive, incomparability is transitive, and only equal ranks tie |
| Ordering.StringLessExactly | projector/binding.go:167-170 | names are compared at the first place where they differ: one ends there, or has the smaller character |
| StableSort.SortIsStable | projector/binding.go:161-176 | the reference sort is sorted and keeps every rank class in its listed order |
| StableSort.StableSortIsSort | projector/binding.go:161-176 | any result that is sorted and keeps every rank class in order is the reference sort, so a stable sort has one possible result |
| StableSort.SortedUnique | projector/binding.go:161-176 | a sorted list is determined by its rank classes |
| StableSort.SortPermutes | projector/binding.go:211-226 | sorting only reorders |
| StableSort.SliceStable | projector/binding.go:161-176 | insertion by adjacent swaps computes the reference sort |
| StableSort.FilterSort | projector/binding.go:229-238 | removing entries commutes with sorting |
| StableSort.SortAbsorbs | projector/binding.go:277-294 | sorting a list that has been sorted and then extended is sorting once |
| StableSort.SortSwaps | projector/binding.go:277-294 | batches that share no rank may arrive in either order |
| StableSort.ArrangedExactly | projector/binding.go:158-176 | exactly one list holds the kept and added entries, plain ones first, projected ones by name, ties by arrival, and it is append-then-sort |
| Names.NamesAreDistinct | projector/binding.go:392-418 | annotation and volume names of different bindings differ, and no kind of name is another kind |
| Names.FieldPathsAreDistinct | projector/binding.go:300-301 | field paths of different bindings or kinds differ |
| Names.PrefixesRecognise | projector/binding.go:33-40 | the binding's own names and field paths pass the prefix tests, and its type and provider annotations do not pass for secrets |
| Names.PrefixesRecogniseOnly | projector/binding.go:164-165 | what passes the volume or the secret prefix test is exactly the volume name or the secret annotation of some binding |
| EnvLaws.KnownAfterRecord | projector/binding.go:365-390 | recording a binding makes exactly its secret known, beside those of other bindings |
| EnvLaws.KnownAfterClear | projector/binding.go:102-105 | clearing a binding forgets at most its own secret |
| EnvLaws.UnprojectAfterProject | projector/binding.go:240-324 | whatever a projection appends to a variable list, unprojecting removes |
| EnvLaws.UnprojectPassesProject | projector/binding.go:240-324 | another binding's removal passes through a projection |
| EnvLaws.FindRootSorted | projector/binding.go:338-351 | sorting does not change which root variable is found first |
| EnvLaws.FindRootUnprojected | projector/binding.go:297-324 | removing a binding's variables leaves the root variable found |
| ContainerLaws.ContainerUnprojectOwn | projector/binding.go:190-201 | withdrawing what was just projected into a container leaves canonical order and a root variable, nothing else |
| ContainerLaws.ContainerUnprojectOther | projector/binding.go:190-201 | another binding's removal commutes with a projection, although one secret fewer is then known |
| ContainerLaws.ProjectEnvKeepsRoot | projector/binding.go:338-351 | the root a container was given is the one later bindings find |
| ContainerLaws.ContainerProjectsCommute | projector/binding.go:190-196 | two bindings can be projected into a container in either order |
| ContainerLaws.ContainerProjectSettled | projector/binding.go:190-196 | projecting over what an earlier version left settled is projecting over the original |
| TemplateLaws.ProjectThenUnproject | projector/binding.go:82-106 | unproject after project is unproject alone, up to stable reordering and default root variables in the bound containers |
| TemplateLaws.UnprojectErases | projector/binding.go:82-106 | in canonical order with roots in place, unproject after project equals unproject |
| TemplateLaws.RoundTrip | projector/binding.go:82-106 | on a template with no trace of the binding, unproject undoes project |
| TemplateLaws.ForeignReferenceIsLost | projector/binding.go:297-308 | a foreign variable that names the secret being replaced is lost: absorption fails on every such template |
| TemplateLaws.AbsorptionExactly | projector/binding.go:82-94 | projecting an earlier version of a binding first makes no difference to projecting a later one if and only if no foreign variable names the earlier version's secret and every container that only the earlier version reaches was in canonical order with a root already |
| TemplateLaws.IdempotentExactly | projector/binding.go:82-94 | projecting twice is projecting once if and only if no foreign variable names the binding's secret |
| TemplateLaws.UnprojectsCommuteView | projector/binding.go:96-106 | removals of any two bindings commute |
| TemplateLaws.UnprojectProjectCommute | projector/binding.go:82-106 | removing one binding and projecting another commute |
| Runs.ProjectAdmissible | projector/binding.go:82-94 | a projection keeps secrets unshared |
| Runs.RunAdmissible | projector/binding.go:82-106 | every state of a run keeps secrets unshared |
| Runs.ProjectsCommute | projector/binding.go:82-94 | projections of different bindings commute when they share no container or no variable name |
| Runs.ProjectNormal | projector/binding.go:82-94 | a projection keeps canonical order, also in the containers it does not bind |
| Runs.RunSettled | projector/binding.go:82-106 | every state of a run stays in canonical order with roots in place |
| Runs.Postpone | projector/binding.go:82-106 | a step may be postponed past steps of other bindings that share no container or no variable name with it |
| Runs.UnprojectErasesSteps | projector/binding.go:96-106 | unprojecting at the end of a run erases every step the run took for that binding |
| Runs.RunIsReplay | projector/binding.go:82-106 | a run of any length ends where taking only each binding's last step, in the order in which the run took them, ends |
| Orders.ArrivalShows | projector/binding.go:277-294 | whatever other steps a run takes, a container bound by two bindings lists their variables of a shared name in the order in which the two were projected |
| Orders.StepsCommuteExactly | projector/binding.go:277-294 | two steps for different bindings commute if and only if one adds nothing, or they share no container or no variable name |
| Orders.OrdersAgreeExactly | projector/binding.go:277-294 | two orders of the same steps end alike if and only if every two steps that share a container and a variable name stand in the same order in both |
| Orders.AllOrdersAgreeExactly | projector/binding.go:277-294 | all orders of the same steps end alike if and only if no two of them share a container and a variable name |
| Orders.ConfluenceExactly | projector/binding.go:82-106 | a run ends where its last steps end in some other order if and only if that order keeps every two of them that share a container and a variable name in the order in which the run took them |
| Orders.Confluence | projector/binding.go:82-106 | a run of any length ends where replaying each binding's last step ends, in whatever order, if and only if no two of these steps share a container and a variable name |
| Orders.WebhookOrderExactly | controllers/webhook_controller.go:151-159 | for two orders of the same bindings the webhook's projections end alike if and only if every two bindings that share a container and a variable name stand in the same order in both |
| Orders.ControllerAgreesExactly | controllers/servicebinding_controller.go:166-178 | re-projecting one of the bindings the webhook projected changes nothing if and only if it shares no container and variable name with one projected after it |
| Conservation.ProjectConserves | projector/binding.go:108-295 | one template keeps every foreign entry in order, holds exactly the prescribed new entries and is canonically ordered, and it is the projected one |
| Promises.VariableIsSeen | projector/binding.go:240-295 | in every container the binding is meant for, the last variable of a name that the binding maps reads its type, its provider, or the entry of its secret under the mapping's key, whatever the secrets hold |
| Promises.NothingElseAdded | projector/binding.go:240-295 | every other variable was there before, or is the default root |
| Promises.MountIsProvided | projector/binding.go:190-227 | a container has a mount of the binding, and only one, if and only if the binding lists no containers, the container has no name, or the binding lists its name |
| Promises.MountIsBelowRoot | projector/binding.go:203-227 | the mount is read-only and at the binding's name below the container's first root variable, or below "/bindings", which the container then defines |
| Promises.VariablesExactly | projector/binding.go:190-196 | a container has variables of the binding if and only if the binding is meant for it |
| Promises.VolumeIsProvided | projector/binding.go:108-156 | there is one volume for the binding, and each file in it holds the binding's type, its provider, or the secret's entry of that name |
| Promises.ProjectProvides | projector/binding.go:82-94 | a projected template records the secret and gives every container exactly what the binding promises it |
| Promises.UnprojectWithdraws | projector/binding.go:96-106 | a withdrawn binding leaves no annotation, volume, mount or variable |
| Promises.RunAchieves | projector/binding.go:82-106 | after a run of any length each binding's last step has achieved what it is for, also when later steps followed that share no container or no variable name with it |
| Untouched.StepTouchesNothing | projector/binding.go:179-324 | a projection or removal keeps every annotation, volume, mount and variable that is not the projector's, in order, and adds at most a root variable to them |
| Untouched.RunTouchesNothing | projector/binding.go:179-324 | so does every run of projections and removals |
| GoPath.JoinIsBelow | projector/binding.go:207 | a plain name joined to a clean absolute path is that path, a slash and the name |
| GoPath.CleanIsClean | projector/binding.go:207 | cleaning an absolute path yields a clean one |
| Integrity.StepIntact | projector/binding.go:96-156 | a projection or removal keeps references intact, whatever the bindings share |
| Integrity.RunsAreIntact | projector/binding.go:203-275 | in every reachable state each secret annotation has its one volume with that secret, each projected mount a volume, each type or provider reference an annotation |
| Integrity.SecretMatchesVolume | projector/binding.go:108-124 | in every reachable state a binding's secret annotation exists exactly when its volume does, and both name one secret |
| Projector.ServiceBindingProjector.Project | projector/binding.go:82-94 | changes the template in place to what Projection.Project makes of it |
| Projector.ServiceBindingProjector.Unproject | projector/binding.go:96-106 | changes the template in place to what Projection.Unproject makes of it |
| Projector.ServiceBindingProjector.ProjectVolume | projector/binding.go:108-177 | appends the binding's volume, sorts, and records the annotations |
| Projector.ServiceBindingProjector.UnprojectVolume | projector/binding.go:179-188 | keeps exactly the volumes of other names, in order |
| Projector.ServiceBindingProjector.ProjectContainer | projector/binding.go:190-196 | a bindable container gains mount and variables, another is left alone |
| Projector.ServiceBindingProjector.UnprojectContainer | projector/binding.go:198-201 | removes the binding's mounts and variables |
| Projector.ServiceBindingProjector.ProjectVolumeMount | projector/binding.go:203-227 | appends the mount at the root the container defines, or at the default it is then given |
| Projector.ServiceBindingProjector.UnprojectVolumeMount | projector/binding.go:229-238 | keeps exactly the mounts of other names, in order |
| Projector.ServiceBindingProjector.ProjectEnv | projector/binding.go:240-295 | appends one variable per mapping, sorts with the known secrets, and leaves the annotations as they were recorded |
| Projector.ServiceBindingProjector.UnprojectEnv | projector/binding.go:297-324 | keeps exactly the variables that are not the binding's, in order |
| Projector.ServiceBindingProjector.IsContainerBindable | projector/binding.go:326-336 | no limit, no name, or a listed name |
| Projector.ServiceBindingProjector.ServiceBindingRoot | projector/binding.go:338-351 | the first root variable's value, or the default after appending it |
| Projector.ServiceBindingProjector.KnownProjectedSecrets | projector/binding.go:365-373 | the secrets of all secret annotations, in whatever order the map is visited |
| Projector.ServiceBindingProjector.SecretAnnotation | projector/binding.go:382-390 | records the secret unless it is empty, and returns it |
| Projector.ServiceBindingProjector.TypeAnnotation | projector/binding.go:400-404 | records the type and returns its key |
| Projector.ServiceBindingProjector.ProviderAnnotation | projector/binding.go:410-414 | records the provider and returns its key |
| Json.PutOkIffGetOk | projector/metapodtemplate.go:244-269 | a location can be written exactly when it can be read, and fails in the same way |
| Json.PutGet | projector/metapodtemplate.go:161-213 | what has been written is read back |
| Json.PutPut | projector/metapodtemplate.go:182-213 | a second write replaces the first |
| Json.GetPut | projector/metapodtemplate.go:161-213 | writing back what is present changes nothing |
| Json.GetOther | projector/metapodtemplate.go:182-213 | a write is not seen when a location beside it is read |
| Json.PresentOther | projector/metapodtemplate.go:182-213 | a write makes no location beside it appear or disappear |
| Json.PutsCommute | projector/metapodtemplate.go:182-213 | writes to locations beside each other commute |
| Json.PutAllPutAll | projector/metapodtemplate.go:115-159 | a second round of writes to the same locations replaces the first round |
| Json.PutAllRestores | projector/metapodtemplate.go:115-159 | a round of writes changes nothing if and only if every location is there and holds what is written to it |
| JsonHeap.FindExisting | projector/metapodtemplate.go:244-269 | walking the maps without creation yields the value at the keys, with the same errors and panics |
| JsonHeap.GetAt | projector/metapodtemplate.go:161-180 | reads the value at the keys, or nothing when it is missing or null |
| JsonHeap.FindCreating | projector/metapodtemplate.go:244-269 | creates the missing maps in place, reaches the map to assign in, and changes nothing else; a failed search changes nothing |
| JsonHeap.SetBelow | projector/metapodtemplate.go:182-213 | the value a write starts at then represents the Put, and only maps below it have changed |
| JsonHeap.SetAt | projector/metapodtemplate.go:182-213 | after a write that starts at any node, the whole tree of maps represents the workload with that location put |
| JsonHeap.AssignIsPut | projector/metapodtemplate.go:182-213 | assigning the last key in the map the other keys reach is a Put on what the tree represents |
| JsonHeap.LocalChange | projector/metapodtemplate.go:137-148 | a change at and below one place of the tree is a Put at that place |
| HeapTrees.Copy | projector/metapodtemplate.go:193-210 | encoding a value yields a fresh tree of maps, each in one place only, that represents it |
| HeapTrees.Decode | projector/metapodtemplate.go:175-179 | marshalling a part of the tree yields the value it represents |
| HeapTrees.FindResults | projector/metapodtemplate.go:72-82 | the search of the tree finds exactly the nodes at the locations the expression matches, and fails when it should |
| HeapTrees.AtKept | projector/metapodtemplate.go:137-148 | a node found stays where it is while other nodes are written to |
| StepwiseSearch.SearchAgrees | projector/metapodtemplate.go:77-82 | the library's search, one step after the other over all values found so far, gives its callers the nodes of the depth-first search and the values that are there |
| Patterns.NodeFound | projector/metapodtemplate.go:72-82 | every node found matches the expression and can be read |
| Patterns.NodesDiverge | projector/metapodtemplate.go:72-82 | two nodes found by one expression lie beside each other |
| Patterns.NodesStable | projector/metapodtemplate.go:127-137 | the expression finds the same nodes before and after a write that is calm for it |
| LensLaws.WriteIsPutAll | projector/metapodtemplate.go:115-159 | writing a view puts exactly the listed locations and moves no container node |
| LensLaws.ContainersUsedUp | projector/metapodtemplate.go:126-152 | the running index never leaves the container list and ends at its length |
| LensLaws.WriteThenRead | projector/metapodtemplate.go:53-159 | the view just written is the view read next, and every container node is where it was |
| LensLaws.WriteThenWrite | projector/metapodtemplate.go:115-159 | a second view written replaces the first |
| LensLaws.WriteFrame | projector/metapodtemplate.go:115-159 | any write that succeeds leaves everything outside the mapped locations unchanged, and creates and removes nothing there |
| LensLaws.RewriteExactly | projector/metapodtemplate.go:53-159 | writing back what was read changes nothing if and only if every mapped location is there and holds its own encoding |
| ViewLocations.ReadExactly | projector/metapodtemplate.go:53-111 | the view read is the one whose annotations, volumes, and containers node by node are what their mapped locations decode to, the initial value where nothing is; reading fails if and only if there is none |
| ViewLocations.ViewIsStored | projector/metapodtemplate.go:115-159 | after writing a view each part of it is at its own location, the containers in the nodes in order |
| WorkloadLaws.RunLifts | projector/binding.go:56-80 | steps that each read and write the workload do what running them on the view once read and writing once does |
| WorkloadLaws.WriteInjective | projector/metapodtemplate.go:115-159 | different views are written as different workloads |
| WorkloadLaws.RunsAgreeOn | projector/binding.go:56-80 | two runs end in the same workload exactly when they end in the same view |
| WorkloadLaws.WorkloadIdempotentExactly | projector/binding.go:56-67 | projecting into a workload twice is projecting once if and only if no foreign variable names the secret |
| WorkloadLaws.WorkloadConfluence | projector/binding.go:56-80 | confluence of whole runs on JSON workloads, as an if-and-only-if |
| WorkloadLaws.WorkloadConfluenceExactly | projector/binding.go:56-80 | which orders of the last steps end in the workload that the run ends in |
| WorkloadLaws.WebhookIsStable | controllers/webhook_controller.go:151-159 | the webhook yields one workload for every order of the bindings if and only if no two of them share a container and a variable name |
| WorkloadLaws.ControllerIsIdle | controllers/servicebinding_controller.go:166-178 | the controller leaves the webhook's workload as it is, whichever binding it projects once more, if and only if no two of them share a container and a variable name |
| WorkloadLaws.NoFight | controllers/webhook_controller.go:151-159 | both at once for bindings that do not meet: one workload for every order of the bindings, and the controller leaves it alone |
| WorkloadLaws.RunFrame | projector/metapodtemplate.go:115-213 | no run changes, creates or removes anything outside the mapped locations |
| WorkloadLaws.WorkloadRoundTrip | projector/binding.go:56-80 | removing a binding restores the view the workload had before it was projected |
| WorkloadLaws.WorkloadRestoredExactly | projector/binding.go:56-80 | projecting and removing a binding restores the workload itself if and only if its mapped locations were there and hold their own encodings |
| WorkloadLaws.DefaultMappingSeparated | apis/v1beta1/clusterworkloadresourcemapping_webhook.go:45-73 | the default mapping's locations do not overlap and cannot create containers |
| AppearingContainers.AppearingContainerPanics | projector/metapodtemplate.go:137-150 | with annotations mapped below a container that is not there, the write that follows a successful read panics |
| AppearingContainers.NullContainerPanics | projector/metapodtemplate.go:244-250 | with all locations apart, a container that is null is read as one in which nothing is set, and the write that follows panics |
| AppearingContainers.WriteAfterReadExactly | projector/metapodtemplate.go:123-150 | what was read can be written back if and only if every container on the way to the annotations was there and no other container is null; otherwise the write panics |
| AppearingContainers.EntriesRunOut | projector/metapodtemplate.go:126-152 | the container loop panics if and only if there are fewer containers than nodes, or a node is null |
| AppearingContainers.NodesAppear | projector/metapodtemplate.go:123-132 | writing the annotations makes nodes appear if and only if a container on the way to them was not there |
| WorkloadLaws.FailsEarly | controllers/webhook_controller.go:156-158 | a run that has failed stays failed |
| WorkloadProjector.ReadValue | projector/metapodtemplate.go:161-180 | getAt from any node found: the decoded value, or the initial one when it is missing or null |
| WorkloadProjector.WriteValue | projector/metapodtemplate.go:182-213 | setAt from any node found is the write at that location of the workload, and changes only maps below the node |
| WorkloadProjector.ReadContainers | projector/metapodtemplate.go:72-105 | the loops collect the containers of every entry out of the tree, in order, or end with the first failure |
| WorkloadProjector.NewMetaPodTemplate | projector/metapodtemplate.go:53-111 | a fresh view of distinct containers that holds what Read specifies, with the same failures |
| WorkloadProjector.WriteContainers | projector/metapodtemplate.go:126-152 | the loops write into the tree in place, matching containers to nodes by the running index alone, as WriteEntries specifies |
| WorkloadProjector.WriteEntry | projector/metapodtemplate.go:137-151 | the inner loop takes one container per node, panics when there are too few, and finds every later node where it was |
| WorkloadProjector.WriteToWorkload | projector/metapodtemplate.go:115-159 | the tree then represents the workload that Write makes of it, with the same failures |
| WorkloadProjector.Project | projector/binding.go:56-67 | reading, projecting and writing back in place make of the tree what one projection step makes of the workload |
| WorkloadProjector.Unproject | projector/binding.go:69-80 | the same for one removal step |
| WorkloadProjector.ProjectActive | controllers/webhook_controller.go:151-161 | the webhook's loop makes of the tree what the run of all active bindings makes of the workload, and ends with its first failure |
| WebhookRules.List | controllers/webhook_controller.go:363-370 | the elements of a set, strictly ascending |
| WebhookRules.CanonicalUnique | controllers/webhook_controller.go:357-389 | a set of group and resource pairs has one canonical list of rules |
| WebhookRules.Dedup | controllers/webhook_controller.go:342-355 | the table holds exactly the resources of the observed kinds; an unmapped kind is an error |
| WebhookRules.Resources | controllers/webhook_controller.go:364-375 | access is asked about every resource of a group in order, and exactly those granted remain, strictly ascending |
| WebhookRules.Collect | controllers/webhook_controller.go:357-389 | access is asked once about every pair in the table, in order, and the rules are the canonical ones for the pairs granted |
| WebhookRules.WebhookRules | controllers/webhook_controller.go:335-396 | fails exactly when a kind is unmapped; otherwise access is asked once about each mapped pair and the rules are canonical for what was granted, also if answers change meanwhile |
| WebhookRules.RulesDeterministic | controllers/webhook_controller.go:342-391 | order and repetition of the observed kinds do not matter: the same questions are asked in the same order, and the same answers give the same rules |
| WebhookRules.InterceptGVKs | controllers/webhook_controller.go:291-309 | adds exactly the kinds of the bindings' workloads |
| WebhookRules.TriggerGVKs | controllers/webhook_controller.go:311-333 | adds exactly the kinds of the bindings' services that are not direct secret references; no Secret of the core group, and every other service |
| WebhookRules.VersionsParse | controllers/webhook_controller.go:291-333 | a group and a version joined by a slash are told apart again, a version alone has the group "", and with two slashes only the kind is kept |
| WebhookRules.KindsReferred | controllers/webhook_controller.go:291-333 | the kinds observed are those that the bindings refer to by group, version and kind |
| WebhookRules.SecretsAreNotServices | controllers/webhook_controller.go:319-322 | a secret is never observed as a service |
| WebhookRules.TriggerRules | controllers/webhook_controller.go:183-188 | the sub-reconcilers in a row yield canonical rules for what is granted among exactly what the bindings observe |
| PathValidator.ValidateRestrictedJsonPath | apis/v1beta1/clusterworkloadresourcemapping_webhook.go:156-180 | the growing worklist ends, with one error per unsupported node at any depth and one for a wrong number of roots |
| PathValidator.VisitAccounts | apis/v1beta1/clusterworkloadresourcemapping_webhook.go:166-176 | each visit makes the worklist's total tree size smaller and reports or passes on every unsupported node |
| PathValidator.KeysExactly | projector/metapodtemplate.go:223-242 | key extraction succeeds exactly when no unsupported node is reachable |
| PathValidator.Accepts | apis/v1beta1/clusterworkloadresourcemapping_webhook.go:156-180 | an expression is accepted exactly when it has one root and its keys can be extracted |
| PathValidator.KeysCoverLeaves | projector/metapodtemplate.go:223-242 | extraction yields one key for every leaf |
| PathValidator.KeysLead | projector/metapodtemplate.go:223-242 | the keys of an expression lead, in every workload, to what the expression evaluates to from left to right, and fail as it fails |
| PathValidator.AcceptedLeads | apis/v1beta1/clusterworkloadresourcemapping_webhook.go:156-180 | so do the keys of an accepted expression |
| PathValidator.KeysOfFields | projector/metapodtemplate.go:223-242 | the keys of a list of fields are the fields, in order |
| AccessCache.AccessChecker.CanI | rbac/cani.go:61-92 | answers from a fresh entry, else from a review it then remembers; errors count as denials stamped now |
| AccessCache.AccessChecker.WithVerb | rbac/cani.go:52-59 | a new checker for the verb, with an empty cache |
| AccessCache.CacheHoldsLatest | rbac/cani.go:61-92 | after any history of calls the cache holds for each key its latest review |
| AccessCache.AnswersAreRecent | rbac/cani.go:72-79 | each answer is the verdict of a review of that key made by this call or strictly less than ttl ago |
| AccessCache.ReviewsAreApart | rbac/cani.go:72-79 | two reviews of one key are at least ttl apart |
| Resolver.LookupMapping | resolver/cluster.go:64-83 | returns the chosen template, defaulted, with one loop variable shared by all iterations |
| Resolver.ChoiceExactly | resolver/cluster.go:64-80 | the chosen template is the intended one if and only if the version is not offered, or the last template listed is its own |
| Resolver.WildcardChosen | resolver/cluster.go:64-80 | with the exact version listed before the wildcard, the wildcard is chosen |
| Resolver.TemplateVariable.Default | apis/v1beta1/clusterworkloadresourcemapping_webhook.go:45-73 | fills in exactly the empty parts |
| Resolver.DefaultedExactly | apis/v1beta1/clusterworkloadresourcemapping_webhook.go:45-73 | defaulting completes a template and leaves exactly the complete ones alone |
| Resolver.DefaultedKeepsGiven | apis/v1beta1/clusterworkloadresourcemapping_webhook.go:45-73 | defaulting changes no part that is given |
| Resolver.LastListedIsLast | resolver/cluster.go:67-74 | the template taken for a version is the last one listed for it |
| Expressions.ParseSpelled | projector/metapodtemplate.go:215-221 | reading an expression of fields and `[*]` gives the steps it spells out |
| Expressions.DefaultedIsDefaultMapping | apis/v1beta1/clusterworkloadresourcemapping_webhook.go:45-73 | the expressions of a template defaulted throughout name exactly the locations of the default mapping |
| Expressions.NothingOfferedIsDefault | resolver/cluster.go:64-83 | a version for which a mapping resource offers nothing gets the default mapping, whose locations are separated |
| Resolver.DuplicateVersions | apis/v1beta1/clusterworkloadresourcemapping_webhook.go:97-111 | reports exactly the neighbouring repetitions of a version, and none if and only if versions are distinct |
| Selection.ActiveBindings | controllers/webhook_controller.go:128-149 | keeps exactly the bindings that are not being deleted and name the workload or carry a well-formed selector that matches it, in the order listed |
| Selection.LookupWorkloads | resolver/cluster.go:103-143 | the one workload of that name, or all the selector matches; an error when the name is missing or the selector malformed |
| Selection.AgreementExactly | controllers/webhook_controller.go:128-149 | the exact condition under which the webhook projects a binding whose workload the controller selects and does not withdraw from |
| Selection.SidesAgree | apis/v1beta1/servicebinding_webhook.go:112-122 | for validated bindings, active for the webhook exactly when the controller's lookup finds the workload and the controller projects rather than withdraws |
| Reconciliation.StepKeepsIdentity | controllers/servicebinding_controller.go:215-220 | a projection through a mapping that does not address uid or resourceVersion keeps both |
| Reconciliation.DefaultMappingKeepsIdentity | apis/v1beta1/clusterworkloadresourcemapping_webhook.go:45-73 | the default mapping does not address them |
| Reconciliation.World.IdentityExactly | controllers/servicebinding_controller.go:218-220 | two workloads have the same identity if and only if their uid and their resourceVersion read alike |
| Reconciliation.World.ProjectionDelivers | controllers/servicebinding_controller.go:166-177 | seen through the mapping, what becomes of a workload provides what a live binding with a secret promises, and has nothing left of any other binding |
| Reconciliation.Reconciler.ResolveWorkloads | controllers/servicebinding_controller.go:114-149 | not found leaves Unknown, forbidden sets False, another failure is an error, else the workloads are stashed |
| Reconciliation.Reconciler.ProjectWorkload | controllers/servicebinding_controller.go:167-177 | a copy is projected into, or withdrawn from when the binding is being deleted, and delivers what the binding is for |
| Reconciliation.Reconciler.ProjectWorkloads | controllers/servicebinding_controller.go:163-178 | the projections of all workloads, or the failure of one |
| Reconciliation.Reconciler.ProjectBinding | controllers/servicebinding_controller.go:159-183 | succeeds exactly when every workload can be projected, and then stashes the projections in order, each delivering what the binding is for |
| Reconciliation.Reconciler.UpdateAll | controllers/servicebinding_controller.go:215-236 | one update per workload in order, ended by the first mismatch, denial or failure |
| Reconciliation.Reconciler.PatchWorkloads | controllers/servicebinding_controller.go:207-244 | the updates asked for are those up to the first denied or failed one; panics exactly on a length or identity mismatch; sets True only from Initializing |
| Reconciliation.Reconciler.Reconcile | controllers/servicebinding_controller.go:53-58 | from Initializing, ends True exactly when lookup and projection succeeded and every update succeeded or found the workload gone; every update asked for provides a live binding's promises, or has nothing left of a deleted one; neither panic of the last step is reachable |

## Left out

- JSON marshalling and the typed/unstructured converter: leaves are abstract values, marshalling is assumed lossless;
  unknown-field loss and empty/nil conversions are not modelled.
- WorkloadProjector.WriteToWorkload: what the tree holds after a failed write, which may have written a part, and the
  conversion of typed workloads; the workload is unstructured and is changed in place.
- WorkloadProjector.Project: the mapping is a parameter. That looking it up again on the written workload yields the
  same mapping, as it does when no mapped location is the workload's apiVersion or kind, is assumed.
- WorkloadProjector.Unproject: likewise takes the mapping as a parameter, and says nothing of the tree after a failed
  write.
- The JSONPath parser beyond expressions of plain fields and `[*]` (`Expressions`); container expressions have field steps and `[*]` on arrays only. Map wildcards have no fixed
  order, and filters, slices and recursive descent are not part of this model.
- HeapTrees.FindResults: a missing key gives no nodes where the library reports an error, and the search visits nodes
  depth first where the library goes step by step. `StepwiseSearch.SearchAgrees` proves that the callers, who skip an
  expression whose search fails, see the same nodes in the same order either way.
- HeapTrees.Copy: the value copied is not itself on the heap, also where the controller makes a deep copy of a workload;
  that the copy shares nothing with it is its freshness.
- Null container nodes in the lens laws, which exclude them by `SolidNodes`. `WriteAfterReadExactly` covers them.
- StableSort.SliceStable: insertion for lists of any length, where the library inserts in blocks and merges.
  `StableSortIsSort` shows that any stable algorithm has the same result.
- Slices in the tree are values: no operation of the model assigns to an element of one.
- What other sources of a projected volume hold, and variables of other sources, is not resolved by `Promises`.
- Fields of volumes, mounts and variable sources that the projector never looks into are opaque strings.
- Label selector evaluation is an abstract predicate shared by both sides of the selection property.
- WebhookRules.WebhookRules: the answers of the access checker are a parameter; the cache they come from is modelled
  separately, in `AccessCache`.
- AccessCache.AccessChecker.CanI: the mutex; calls are taken one at a time. Time and the review's result are parameters.
- Reconciliation.Reconciler.PatchWorkloads: how a value is read as a string is a parameter, as is the result of each
  update.
- Reconciliation.Reconciler.Reconcile: finalizers, the update of the binding's own status and ResolveBindingSecret. That
  its first error ends the sequence is the contract assumed of the library.
- Defaulting and field-required validation of a ServiceBinding: the webhook and the controller are taken to see the same
  defaulted binding.
- The trigger webhook's work queue, watches, informers, indexers, leader election and command line.
