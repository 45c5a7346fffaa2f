# Verification of the Higress operator

A Dafny model of the operator's two reconcilers and of the functions that compute what they write, with proofs
about single calls, whole reconciles, and all executions of any number of reconciles over one store.
`dafny verify dfyconfig.toml` checks everything.

## What is modelled

**The store.** `ApiStore` is a map from keys (kind, namespace, name) to objects with versions. An update with a
stale version conflicts; a custom resource marked deleted disappears with its last finalizer; an update cannot
change a status or a deletion mark; a cluster-scoped object loses the namespace it was given. Any call may be
refused, and any write may be carried out with its answer lost.

**One reconcile.** `Tasks` has the create-or-update primitive with every mutate function as data, `Runs` the two
reconcilers as machines that make one API call per step: read, default, namespace check, finalizer, children (for
a controller first the custom resource definitions), status, and for a controller its console; or, for a resource
marked deleted, binding cleaned, finalizer dropped. `Reconcilers` has the two reconcilers and the console's as
classes in the source's straight-line form and proves each method equal to the machine for every pattern of
refused calls and lost answers. Go panics and nil dereferences end the run.

**All executions.** In `Protocol` users create, edit and delete resources and runs begin, step, fail and lose
answers in any order; at most one run per resource is in flight, as the controller runtime guarantees. Each run
relies on what others leave alone (`Rely`), and that is enough to know at every step that its resource carries the
finalizer. `ProtocolGrants`, `ConsoleGrants`, `ProtocolChildren` and `ControllerStatus` draw the conclusions: which
grants leak and which never do, exact membership of shared bindings, no dangling role references, an honest status.
`SoloRuns` and `Witnesses` turn single reconciles into executions and give, for whole families of resources,
executions from an empty cluster that end badly.

What users may do is stated in `Protocol.Enabled`: the service account name of a resource is fixed, a
controller's RBAC is not switched off once on, finalizers and status are left to the operator. The rule about
RBAC is needed: `Deletion.LeftBehindIff` shows that the subject stays behind exactly when it is broken. That no
grant of any scheme leaks needs one rule more, about the console's name (`ConsoleGrants.OwnConsole`).

**One resource over whole reconciles.** `Convergence` and `GatewayTheorems` treat a gateway's tasks as functions of
the object they manage and show that a reconcile after any number of interrupted ones leaves what an uninterrupted
one would have left, and exactly when the next one writes nothing. For a controller, whose Deployment is merged with
what is there and may need two builds, and is looked up under another name than it is created with, `Outcomes`,
`ControllerPrograms`, `SecondOutcomes`, `ConsoleRuns` and `ControllerTheorems` do so without failures, console
included, and `DeploymentConvergence`, `ControllerConvergence` and `ControllerRecovery` under any failures. `Deletion`
and `DeletionContents` are about resources being deleted.

**What is written.** `Bindings`, `ControllerEnv`, `ControllerDeployment`, `ControllerService`, `ConsoleChildren`,
`ConsoleService`, `ConfigMaps`, `GatewayChildren` and `Hpa` hold the loops of the source as methods, proved against
functions, and the properties of those functions. The order in which Go ranges over a map is a parameter, chosen
anew for each build; where a slice may share its backing array, `Slices` models the array, and where a label map is
shared it is an object.

**What is in the cluster afterwards.** `GatewayContents`, `ControllerContents` and `ConsoleContents` say, field by field
and in terms of the resource as the user wrote it, what the store holds after a completed reconcile: pods and the account
they run as, images, arguments, environment, mounts and volumes, services, config maps, roles and bindings, with every
default written out as a literal. They also say exactly when a reconcile completes, and whether the children fit
together; `ControllerCuts` says it of reconciles whose calls fail. What a consumer of an environment list finds under each name is in `PilotVariables` and `GatewayVariables`, the
shape of the pods in `ControllerPods` and `GatewayPods`, and the words the three have in common in `Asked`.

## Where the code and expectations differ

- The console's grant leaks. Its ClusterRoleBinding is named by the controllers' scheme, its subject is written
  whatever the RBAC flags say (`SoloRuns.EverySuccessGrantsConsole`), and no finalizer removes it unless it happens
  to be a controller's own. `ConsoleGrants.UnownedIff` says exactly which grants are nobody's. The condition to check
  before writing a controller is `ConsoleGrants.OwnConsole`: no console, or RBAC on and a console with the name of
  the controller's account. It is sufficient for any number of resources (`ConsoleGrants.NoLeaksEver`), and for one
  new controller alone in a cluster it is necessary as well (`Witnesses.LeaksIff`), provided the controller can be
  installed: both containers have resources and, with RBAC on, the console's ClusterRole does not have the name of
  the controller's. `Witnesses.ConsolesLeak` has the execution. Gateways' grants never leak
  (`ProtocolGrants.GatewaysNeverLeak`).
- The condition has its price: a console with its controller's account finds the controller's binding and is not
  allowed to update it, so that every failure-free reconcile of such a controller fails
  (`SoloRuns.OwnConsoleNeverInstalls`).
- The console works once. Its ClusterRole is built with a namespace, and what is read back has none, so the check of
  the key fails for it from the second reconcile on and nothing of the console is ever updated
  (`ConsoleRuns.ConsoleFailsNextTime`, `Tasks.KeyCheckFiresIff`). Its container would not change anyway, because the
  loop edits a copy (`ConsoleChildren.ContainerNeverChanges`).
- A gateway whose ClusterRoleBinding does not exist can never be deleted, whatever its RBAC flag says
  (`Deletion.DeletionNeverCompletes`). `Witnesses.QuietGetsStuck` gets there with RBAC off and nothing failing,
  `Witnesses.CutOffGetsStuck` with RBAC on and one failed call.
- A gateway with two or more environment variables never goes quiet for all iteration orders
  (`GatewayTheorems.QuietForAllOrdersIff`), whereas the controller does unless the user contradicts a built-in
  variable (`ControllerEnv.RegenerationIsStableIff`).
- A newly appended pilot container gets the pilot's resources and loses them to the controller's in the next
  merge (`ControllerDeployment.MergeStabilises`). A controller therefore goes quiet after one reconcile, and is not
  changed by being interrupted, exactly when the Deployment it finds needs no such second build
  (`ControllerTheorems.QuiescentIff`, `ControllerRecovery.ConvergesIff`). With one name for both containers every
  merge appends another (`ControllerDeployment.SharedNameNeverSettles`).
- An error other than NotFound when reading the namespace ends a reconcile as a success
  (`Runs.FailedNamespaceRead`), and one when reading the IngressClass is ignored (`Tasks.FailedReads`).
- The IngressClass is built with a namespace, too. It is created or left alone; should somebody create it between the
  two reads, the check of its key fails.
- The controller's Deployment is looked up under the controller container's name but created under the instance's.
  If the names differ, the lookup never finds the controller's own Deployment, only somebody else's
  (`ControllerPrograms.ResolvedRuns`), and the Deployment behind a status may be under either name
  (`ControllerStatus.MarkingFindsDeployment`).
- The controller's Service is a NodePort whatever type the user asks for (`ControllerService.UpdatedService`).
- A gateway's pods do not run as the account that is created and granted the roles when the account section has an empty
  name: the grant goes to the gateway's name, the pods use the namespace's default account
  (`GatewayContents.ChildrenFit`). A controller's pods always run as its account (`ControllerContents.ChildrenFit`).
- A gateway with a network label and no labels of its own, or whose Service has none, is never reconciled to the end, nor
  is one with Skywalking on; all others are (`GatewayContents.SucceedsIff`). A disabled account is created for a
  gateway all the same (`GatewayContents.StoredAccount`).
- With Istio on the controller's pilot still mounts the volume `config`, which the pod then does not have
  (`ControllerPods.MountsHaveVolumesIff`). A gateway's volume for WASM plugins is mounted by nobody
  (`GatewayPods.GatewayStorage`).
- A variable that the operator wants no more stays in a stored pilot as long as nothing else changes: switching Istio on
  does not take `CUSTOM_CA_CERT_NAME` away (`PilotVariables.CertificateName`, `PilotVariables.CertificateNameStays`).
  Nor does a variable taken from the pod come back when it has gone from the stored list
  (`PilotVariables.PilotKnowsItsPodIff`, `PilotVariables.PodVariablesStayAway`).
- A console's pods bear the controller's labels. The controller's Service selects them as well, and the console's own
  Service selects them exactly when its labels are among the controller's; and the Role in the namespace is granted to
  an account that nobody creates (`ConsoleContents.ConsoleFits`). The console's ClusterRole has the rules of that Role
  (`ConsoleContents.StoredRbac`), its number of replicas is the controller's as the user gives it and not the default
  of one, and its ports count only if the controller is given some (`ConsoleContents.StoredDeployment`).

## Model

| member | source | states |
|---|---|---|
| ConsoleGrants.UnownedIff | internal/controller/higressconsole/rbac.go:97-132 | In every reachable state a subject whose account no resource with its finalizer has is in a ClusterRoleBinding as a grant iff it is a console's by name, some run put it in for its console, and no controller's finalizer has taken it out since |
| ProtocolGrants.GatewaysNeverLeak | internal/controller/higressgateway/higressgateway_controller.go:84-124 | In every reachable state, consoles or not, every gateway's grant in every ClusterRoleBinding belongs to a gateway in the store that still carries its finalizer |
| ConsoleGrants.NoLeaksEver | internal/controller/higresscontroller/higresscontroller_controller.go:134-142 | As long as every controller the users write has no console, or RBAC on and a console with the name of its account, every grant of either scheme belongs in every reachable state to a resource with its finalizer |
| Witnesses.LeaksIff | internal/controller/higresscontroller/higresscontroller_controller.go:134-142 | For every new controller with resources for both containers (and, with RBAC on, a ClusterRole of another name than its console's), alone in a cluster: some execution leaks a grant iff the controller has a console and RBAC is off or the console's name is not that of its account |
| Witnesses.ConsolesLeak | internal/controller/higressconsole/Controller.go:108-137 | For each of those controllers and any manifests and iteration orders the execution is one failure-free reconcile from an empty cluster, after which the console's subject is in its binding and is nobody's |
| SoloRuns.EverySuccessGrantsConsole | internal/controller/higressconsole/Controller.go:121-124 | Every failure-free reconcile that succeeds has the console's subject in the console's binding, whatever the RBAC flags say |
| ConsoleRuns.ConsoleFailsNextTime | internal/controller/higressconsole/rbac.go:35-44 | Once the console's ClusterRole exists, the console's part of every failure-free reconcile fails at its first object and writes nothing |
| SoloRuns.OwnConsoleNeverInstalls | internal/controller/higressconsole/rbac.go:97-106 | With RBAC on and a console named like the controller's account every failure-free reconcile of that controller fails |
| ProtocolGrants.ForeignSubjectsStay | internal/controller/higresscontroller/rbac.go:183-203 | In every reachable state the subjects of a binding that are no grants are those of the start, in their order, and no grant is there twice |
| ProtocolGrants.ExactMembership | internal/controller/higresscontroller/rbac.go:168-203 | With distinct (account, namespace) pairs per kind, each binding is its original foreign subjects plus grants of resources with their finalizer and of consoles, each once, and the grant of every resource that finished its binding and is not being deleted is there exactly once, even in shared bindings |
| ProtocolGrants.DeployedMeansMember | internal/controller/higressgateway/higressgateway_controller.go:177-214 | A run with RBAC on that reaches the status update has its subject in the binding exactly once, unless the resource is being deleted |
| ProtocolGrants.CallSubjects | internal/controller/higressgateway/rbac.go:58-78 | One API call of a run changes no binding but its own or, after the status update, its console's, and those only by adding its own or its console's subject or, when cleaning up, removing its own |
| ProtocolGrants.OwnsKept | internal/controller/higressgateway/higressgateway_controller.go:84-98 | A resource stops owning its grant only by the very call that removes it |
| Protocol.FinalizerBeforeEffects | internal/controller/higressgateway/higressgateway_controller.go:111-136 | Whenever a run changes anything but its own resource, heard of or not, the stored resource carries the finalizer |
| Protocol.BaseKept | internal/controller/higressgateway/higressgateway_controller.go:67-146 | Whatever anybody does, what each run knows about its resource, its binding and its pending writes stays true |
| Protocol.CallOnOwnResource | internal/controller/higressgateway/higressgateway_controller.go:138-143 | A run never creates or revives its own resource, never marks it deleted, and sets the status only by the call that reports success |
| Protocol.CallElsewhere | internal/controller/higressgateway/higressgateway_controller.go:67-146 | No run ever writes another custom resource |
| ProtocolChildren.RolesAreThere | internal/controller/higressgateway/rbac.go:87-129 | In every reachable state each binding written or confirmed is in the store and names a role in the store, although the initial reference of the gateway's RoleBinding names none |
| ProtocolChildren.StatusIsHonest | internal/controller/higressgateway/higressgateway_controller.go:118-143 | In every reachable state a resource marked deployed has its basic children and everything its marking run ensured |
| ProtocolChildren.MarkingNeedsEverything | internal/controller/higressgateway/higressgateway_controller.go:138-143 | A run about to mark the status finds all it has to ensure in the store, the four RBAC objects included when RBAC is on, and that, with a controller's Deployment, is what it leaves as receipt |
| ProtocolChildren.StatusIsMonotone | internal/controller/higressgateway/higressgateway_controller.go:138-143 | No action takes a status back |
| ControllerStatus.StatusHasDeployment | internal/controller/higresscontroller/higresscontroller_controller.go:115-133 | In every reachable state a controller marked deployed has a Deployment in its namespace, one its marking run found |
| ControllerStatus.MarkingFindsDeployment | internal/controller/higresscontroller/higresscontroller_controller.go:255-276 | When a controller's status is written its Deployment is there, under its container's name or under its own |
| ControllerContents.StoredDeployment | internal/controller/higresscontroller/deployment.go:41-113 | Wherever every child is made, the Deployment has replicas as asked or one, selector and pod labels as asked or the default label, the account created and bound as its pods' account, the volumes asked for; with two names, around the unmanaged containers as they were, both managed ones with image, arguments, ports, mounts, security, resources and environment of their own section; in literals and fields of the resource as the user wrote it |
| ControllerContents.StoredService | internal/controller/higresscontroller/service.go:28-76 | The Service is a NodePort that selects the controller's labels and has the user's ports, or else those that are there, and with Istio off behind them 15010, 8888, 15012, 443 and 15014 where their names are free |
| ControllerContents.StoredConfig | internal/controller/higresscontroller/configmap.go:31-120 | The config map has the mesh configuration with the address, root namespace and sources that `StoredMesh` writes out for the resource's own fields, and its network and Higress sections |
| ControllerContents.StoredAccount | internal/controller/higresscontroller/higresscontroller_controller.go:168-194 | With the account enabled it is there; a new one has the resource's labels, the annotations of the account section and the resource as owner |
| ControllerContents.StoredRbac | internal/controller/higresscontroller/rbac.go:147-263 | With RBAC and account on, ClusterRole and Role have the controller's rules, and both bindings refer to them and have the account behind the subjects they had |
| ControllerContents.StoredClass | internal/controller/higresscontroller/higresscontroller_controller.go:237-253 | An ingress class that is there is left alone; a new one has the name asked for and the controller `icks.io/` and that name |
| ControllerContents.StoredDefinition | internal/controller/higresscontroller/higresscontroller_controller.go:326-342 | Every definition has its manifest's specification, whether it was there or not |
| ControllerContents.StoredResource | internal/controller/higresscontroller/higresscontroller_controller.go:48-133 | A controller whose Deployment can be made has its finalizer and status afterwards and is otherwise as the user wrote it, or with its defaults if the finalizer was new |
| ControllerContents.ChildrenFit | internal/controller/higresscontroller/higresscontroller_controller.go:103-126 | The Service selects the pods; the pods run as the account that is created and, with RBAC on, bound; with Istio off they read the stored config map |
| ControllerContents.ChildrenCanBeMadeIff | internal/controller/higresscontroller/higresscontroller_controller.go:255-276 | Every child can be made iff the controller has resources, the pilot has too or is in a Deployment that the lookup finds, and a Deployment found belongs to nobody else unless it is as wanted |
| ControllerContents.ReconcileMakesChildren | internal/controller/higresscontroller/higresscontroller_controller.go:48-144 | A failure-free reconcile succeeds only if the Deployment can be made, and then, whatever becomes of the console, every child is made; without a console it succeeds |
| ControllerContents.MarkingMakesChildren | internal/controller/higresscontroller/higresscontroller_controller.go:128-142 | Whatever the console is called, every child is made when the status is written, nothing else has changed but the resource, and the rest of the reconcile is the console's |
| ControllerContents.FlagsOff | internal/controller/higresscontroller/higresscontroller_controller.go:168-202 | With the account disabled no service account is touched, with RBAC or account off no role and no binding but the console's |
| ControllerCuts.WhateverFails | internal/controller/higresscontroller/higresscontroller_controller.go:48-143 | Whatever calls fail, Deployment, Service and config map of a controller are each as they were or as asked, in the same literals and fields |
| ControllerContents.WithoutNamespace | internal/controller/higresscontroller/higresscontroller_controller.go:80-89 | Without an active namespace a reconcile writes nothing, whatever fails, and succeeds once the resource has been read |
| ControllerPods.UpdatedSpec | internal/controller/higresscontroller/deployment.go:41-113 | The same for one update of any stored specification, with the fields that are kept |
| ControllerPods.MergedContainers | internal/controller/higresscontroller/deployment.go:54-112 | After a merge of any list every container with a managed name is as its section asks, the pilot with the controller's resources if it was there and its own if not; names, pull policies and probes of what was there are kept, and the missing ones come behind |
| ControllerPods.MountsHaveVolumesIff | internal/controller/higresscontroller/deployment.go:338-375 | Every mount of the pilot has a volume in the pod iff Istio is off |
| PilotVariables.PilotFinds | internal/controller/higresscontroller/deployment.go:153-266 | For every stored list and order the pilot finds under each name the literal or the field of the instance that belongs there, unless the user gives another value, and the user's values under all names of the user's |
| PilotVariables.NothingElse | internal/controller/higresscontroller/deployment.go:153-266 | A list that is generated anew has as many entries as there are names wanted, so no other |
| PilotVariables.CertificateName | internal/controller/higresscontroller/deployment.go:246-265 | The value of CUSTOM_CA_CERT_NAME is the user's, else the operator's with Istio off, else that of the stored list if it is kept, else none |
| PilotVariables.CertificateNameStays | internal/controller/higresscontroller/deployment.go:246-265 | Switching Istio on keeps the list generated before, with the variable that is wanted no more |
| PilotVariables.PilotKnowsItsPodIff | internal/controller/higresscontroller/deployment.go:180-203 | A variable taken from the pod is there iff the list is generated anew or the stored one has it |
| PilotVariables.PodVariablesStayAway | internal/controller/higresscontroller/deployment.go:256-265 | The wanted list without those three variables is kept as it is |
| PilotVariables.ControllerFinds | internal/controller/higresscontroller/deployment.go:412-452 | For every stored list and order the controller has its two variables from the pod, and the user's values under the user's names |
| PilotVariables.NewPilotKnowsItsPod | internal/controller/higresscontroller/deployment.go:180-203 | A new pilot takes namespace, name and account from the pod |
| PilotVariables.NewControllerKnowsItsPod | internal/controller/higresscontroller/deployment.go:418-435 | A new controller container takes namespace and name from the pod |
| ControllerPods.JoinSnoc | internal/controller/higresscontroller/deployment.go:331-333 | The plugins are joined in order with one separator between any two |
| ControllerService.UpdatedService | internal/controller/higresscontroller/service.go:28-76 | One update of any Service, written out, with the fields that are kept |
| GatewayContents.StoredDeployment | internal/controller/higressgateway/deployment.go:35-93 | After a completed reconcile the Deployment has replicas as asked or one, selector and pod labels as asked or the two default labels, the account section's account, and one container with image, arguments, ports, resources, security, environment, mounts and volumes in literals and fields of the resource as the user wrote it |
| GatewayContents.StoredService | internal/controller/higressgateway/service.go:30-76 | The Service has the type of the service section, or LoadBalancer without one; without a network its ports, or http2 80 and https 443; with one the four network ports and the label; load balancer address, ranges and policy are the user's or else as they were |
| GatewayContents.StoredConfig | internal/controller/higressgateway/configmap.go:30-87 | The config map has the mesh configuration that `StoredMesh` writes out for the gateway's own fields |
| GatewayContents.StoredAccount | internal/controller/higressgateway/higressgateway_controller.go:159-175 | The account is there even if disabled; a new one has the annotations of the account section and the gateway as owner |
| GatewayContents.StoredRbac | internal/controller/higressgateway/higressgateway_controller.go:177-214 | With both flags on, ClusterRole and Role have the gateway's rules and both bindings refer to them and have the account behind the subjects they had; with one off no role and no binding is touched |
| GatewayContents.StoredResource | internal/controller/higressgateway/higressgateway_controller.go:67-146 | The gateway has its finalizer and status afterwards and is otherwise as the user wrote it, or with its defaults if the finalizer was new |
| GatewayContents.ChildrenFit | internal/controller/higressgateway/higressgateway_controller.go:118-136 | The Service selects the pods, the pods read the stored config map, and they run as the account that is created and bound iff the account section is missing or names one |
| GatewayContents.SucceedsIff | internal/controller/higressgateway/higressgateway_controller.go:118-143 | A failure-free reconcile succeeds iff Skywalking is off and, with a network, neither the gateway nor the Service that is there lacks labels |
| GatewayContents.WhateverFails | internal/controller/higressgateway/higressgateway_controller.go:67-146 | Whatever calls fail, Deployment, Service and config map of a gateway are each as they were or as asked, in the same literals and fields |
| GatewayContents.WithoutNamespace | internal/controller/higressgateway/higressgateway_controller.go:100-109 | Without an active namespace a reconcile writes nothing, whatever fails, and succeeds once the resource has been read |
| GatewayPods.BuiltPods | internal/controller/higressgateway/deployment.go:35-93 | Every build, written out |
| GatewayPods.UpdatedService | internal/controller/higressgateway/service.go:30-76 | One update of any Service, written out, with or without a service section |
| GatewayVariables.GatewayFinds | internal/controller/higressgateway/deployment.go:150-252 | Under each name the container finds the literal or the field that belongs there, unless the user gives another value; the six variables from the pod are there, the two optional ones when wanted |
| ConsoleContents.InstallsIff | internal/controller/higressconsole/Controller.go:23-50 | Once every child is made, a reconcile with a console succeeds iff neither of the console's cluster-scoped objects is there yet and its config map, if there, has data |
| ConsoleContents.StoredDeployment | internal/controller/higressconsole/deployment.go:31-138 | The console's Deployment has the controller's replicas and labels, its own account and volume, and its container appended, with the controller's pull policy and user environment, unless one is there |
| ConsoleContents.StoredService | internal/controller/higressconsole/service.go:27-57 | A new Service is a ClusterIP, or of the section's type, on port 8080 for the console's own labels; one that is there keeps selector and ports; the section's ports with new names come behind |
| ConsoleContents.StoredConfig | internal/controller/higressconsole/configmap.go:27-39 | The config map has the user's entries and the ingress class over what was there |
| ConsoleContents.StoredAccount | internal/controller/higressconsole/serviceAccount.go:10-21 | With the account enabled the console's is there; a new one has no owner |
| ConsoleContents.StoredRbac | internal/controller/higressconsole/rbac.go:35-192 | Whatever the flags say, the ClusterRole has the Role's rules and the cluster-wide binding grants it to the console's account, the binding in the namespace grants the Role to another account, and neither cluster-scoped object was there before |
| ConsoleContents.ConsoleFits | internal/controller/higressconsole/deployment.go:31-38 | The console's pods run as the account granted the ClusterRole, a new console Service selects them iff its labels are among the controller's, the controller's Service selects them always, and the Role in the namespace is not granted to them |
| GatewayTheorems.ConvergesUnderFailure | internal/controller/higressgateway/higressgateway_controller.go:118-143 | After any reconciles cut off at any calls, the next failure-free one succeeds iff an uninterrupted one from the start would have, and leaves the same objects |
| GatewayTheorems.QuiescentIff | internal/controller/utils.go:40-70 | The reconcile after a completed one writes nothing iff it ranges over the environment in the same order |
| GatewayTheorems.QuietForAllOrdersIff | internal/controller/higressgateway/deployment.go:150-252 | The operator goes quiet for every iteration order iff the user gives at most one environment variable |
| GatewayTheorems.ReconcileEffect | internal/controller/higressgateway/higressgateway_controller.go:67-146 | Whatever calls fail, a reconcile leaves each child as it was or as wanted, and nothing else changes but the gateway's finalizer, defaults and status |
| ControllerTheorems.QuiescentIff | internal/controller/higresscontroller/higresscontroller_controller.go:98-143 | The reconcile of a controller after one that could make every child writes nothing, whatever orders the two range in, iff the first did not find a Deployment without a pilot whose resources differ from the controller's, at whichever of its two names it is kept; with or without a console |
| ControllerTheorems.CompletedReconcile | internal/controller/higresscontroller/higresscontroller_controller.go:98-143 | A failure-free reconcile succeeds only if every child can be built, without a console exactly then; in that case, whatever becomes of the console, each child, definitions included, is as wanted and finalizer and status are set; if all is at rest it writes nothing |
| ControllerTheorems.WorkUntilMarked | internal/controller/higresscontroller/higresscontroller_controller.go:98-134 | Up to its status update a controller's run makes its children and changes nothing else but its status, and the rest of the run is its console's |
| ControllerPrograms.ResolvedRuns | internal/controller/higresscontroller/higresscontroller_controller.go:255-276 | With two names the Deployment's task is a create-or-update of the one with the instance's name, or the fast path on a Deployment that happens to have the container's name |
| ControllerRecovery.ConvergesIff | internal/controller/higresscontroller/higresscontroller_controller.go:48-143 | After any reconciles of a controller cut off at any calls, the next failure-free one can make every child iff an uninterrupted one from the start could, leaves every child but the Deployment as that would have, and the Deployment so, up to the order of its environment, iff no attempt wrote it or the one found at first needed no second build |
| ControllerConvergence.ReconcileCut | internal/controller/higresscontroller/higresscontroller_controller.go:48-143 | Whatever calls fail, a reconcile of a controller leaves each child as it was or as wanted, and of the controller only finalizer, defaults and status |
| DeploymentConvergence.BuildsConvergeIff | internal/controller/higresscontroller/deployment.go:41-113 | However many builds were attempted on a Deployment, a completed one after them shows it iff one was written and the Deployment found at first needed two |
| Outcomes.SoloTasks | internal/controller/utils.go:40-70 | A failure-free list of tasks of any kind completes iff each can, then has each object as wanted, and writes nothing when all are at rest |
| Convergence.TasksEffect | internal/controller/utils.go:40-70 | A list of create-or-update calls, failing anywhere, leaves each managed object untouched or as wanted, completes iff nothing panics, and writes nothing when all is settled |
| Convergence.ProgramAbsorbs | internal/controller/higressgateway/higressgateway_controller.go:118-136 | Running a child's task after the same task built with another iteration order gives what running it alone would have given |
| Convergence.ProgramIsDistinct | internal/controller/higressgateway/higressgateway_controller.go:118-136 | The children of one gateway never compete for an object, nor with a custom resource or a namespace |
| DeletionContents.LettingGo | internal/controller/higressgateway/higressgateway_controller.go:84-98 | A failure-free reconcile of a resource with its finalizer takes that finalizer and no other, so that the resource is gone or has those of others and its defaults; a binding to be cleaned loses the subjects of the account in the namespace, keeps the rest in order, and nothing else is touched; it fails and writes nothing iff that binding is not there |
| Deletion.DeletionCompletes | internal/controller/higressgateway/higressgateway_controller.go:84-98 | If the binding exists, the first failure-free reconcile after any interrupted ones releases the resource; the binding has lost its subject only, and nothing else changed |
| Deletion.DeletionCompletesIff | internal/controller/higressgateway/higressgateway_controller.go:234-258 | A failure-free reconcile of a resource that cleans up releases it iff the binding exists |
| Deletion.DeletionNeverCompletes | internal/controller/higressgateway/higressgateway_controller.go:241-244 | Without the binding no sequence of reconciles of a resource that cleans up, failing or not, ever changes anything |
| Witnesses.QuietGetsStuck | internal/controller/higressgateway/higressgateway_controller.go:177-181 | Every buildable gateway with RBAC off is reconciled to the end in an execution from an empty cluster and then can never be deleted |
| Witnesses.CutOffGetsStuck | internal/controller/higressgateway/higressgateway_controller.go:111-124 | For every gateway one failed call behind the finalizer is enough to get there |
| Deletion.LeavingEffect | internal/controller/higressgateway/higressgateway_controller.go:234-258 | Any reconcile of a resource being deleted, cut off anywhere, does nothing, cleans the binding, or cleans it and then drops the finalizer |
| Deletion.LeftBehindIff | internal/controller/higresscontroller/higresscontroller_controller.go:287-311 | A released resource's subject stays in the binding iff it was there and the resource is a controller with RBAC or service account switched off |
| Deletion.UncleanRelease | internal/controller/higresscontroller/higresscontroller_controller.go:287-290 | With RBAC off a controller is released without any other object being touched |
| Deletion.ReleasedStays | internal/controller/higressgateway/higressgateway_controller.go:84-98 | A resource without the operator's finalizer is never written again while it is being deleted |
| Tasks.CreateOrUpdate | internal/controller/utils.go:40-70 | Read, mutate, compare, create or conditionally update, under any failure, as `RunTask` has it |
| Tasks.CreateIfNotExits | internal/controller/utils.go:29-38 | Creates or leaves alone; reports an existing object only when there is one |
| Tasks.WritesIffChanged | internal/controller/utils.go:40-70 | Without failures the store changes iff the mutate function gives an object, its key passes the check, and it differs from what is there; then that object is stored and nothing else changes |
| Tasks.KeyCheckFiresIff | internal/controller/utils.go:72-80 | The check of the key fires iff the object is found, is cluster-scoped and was given a namespace, which what is read back has not |
| Tasks.ApplyKeepsKey | internal/controller/utils.go:72-80 | No mutate function of the operator itself changes an object's key |
| Tasks.FailedReads | internal/controller/higresscontroller/higresscontroller_controller.go:237-260 | A failed read ends a task without an effect; it fails the task, except that a failed look at the ingress class passes for a success and one at the Deployment for a Deployment not found |
| Tasks.FastPathIsFullPath | internal/controller/higresscontroller/higresscontroller_controller.go:255-276 | For a Deployment that is found, the fast path has the outcome and the effect of the full update, for unrelated iteration orders of the two builds |
| ControllerDeployment.FastPathRefines | internal/controller/higresscontroller/higresscontroller_controller.go:267-270 | The first build equals the stored one iff the second does |
| ControllerDeployment.PanicsForAnyOrder | internal/controller/higresscontroller/deployment.go:57-110 | A build dereferences nil resources exactly when the controller's are missing, or the pilot's are and no pilot is stored |
| ControllerDeployment.MergeContainers | internal/controller/higresscontroller/deployment.go:54-112 | The loop computes the merged list, and panics where the model has no list |
| ControllerDeployment.RefreshContainer | internal/controller/higresscontroller/deployment.go:57-84 | One iteration refreshes a managed container as `Refresh` has it, which `ControllerPods.MergedContainers` writes out, and keeps any other as it is |
| ControllerDeployment.DeploymentObject.UpdateDeploymentSpec | internal/controller/higresscontroller/deployment.go:41-113 | The assignments in the source's order give the specification that `ControllerPods.UpdatedSpec` writes out, and panic where it has none |
| ControllerDeployment.GenControllerArgs | internal/controller/higresscontroller/deployment.go:384-403 | The appends with their conditions compute the controller's arguments from the instance |
| ControllerDeployment.GenPilotArgs | internal/controller/higresscontroller/deployment.go:313-336 | The same for the pilot's, with the plugins joined by commas |
| ControllerDeployment.MergeStabilises | internal/controller/higresscontroller/deployment.go:54-112 | Three merges equal two from any list and for any orders; two equal one iff the pilot was there or both containers ask for the same resources |
| ControllerDeployment.SecondMerge | internal/controller/higresscontroller/deployment.go:54-112 | A second merge changes nothing but the resources of a pilot appended by the first |
| ControllerDeployment.MergeKeepsTheRest | internal/controller/higresscontroller/deployment.go:54-112 | Unmanaged containers keep content and order; managed ones are there afterwards and never multiply |
| ControllerDeployment.SharedNameNeverSettles | internal/controller/higresscontroller/deployment.go:57-110 | With one name for controller and pilot every merge makes the list longer |
| ControllerDeployment.FreshDeploymentIsSettled | internal/controller/higresscontroller/deployment.go:23-37 | A Deployment created by init and mutate is unchanged by every later build |
| ControllerEnv.RegenerationIsStableIff | internal/controller/higresscontroller/deployment.go:412-452 | Regenerating with any order what was generated with any other changes nothing, for all stored lists, iff no variable is wanted with two values or the user gives at most one |
| ControllerEnv.RegenerationIsStable | internal/controller/higresscontroller/deployment.go:153-266 | Under that guard the generated list is a fixed point for every other iteration order |
| ControllerEnv.DecisionIsOrderIndependent | internal/controller/higresscontroller/deployment.go:256-265 | Keeping or replacing the stored list is the same decision for all iteration orders |
| ControllerEnv.GeneratedCovers | internal/controller/higresscontroller/deployment.go:437-452 | Under last-entry-wins lookup every variable wanted with a non-empty value has that value, the user's before the built-in one, whatever was stored |
| ControllerEnv.KeptIff | internal/controller/higresscontroller/deployment.go:441-451 | The generated list is the stored one for one order iff it is for every order |
| ControllerEnv.AppendAndDetect | internal/controller/higresscontroller/deployment.go:437-452 | The append loop and the detection loop with its early returns compute the generated list |
| ControllerEnv.ReadStored | internal/controller/higresscontroller/deployment.go:414-417 | The map of stored values holds the last entry of each name |
| ControllerService.DefaultsAreAdded | internal/controller/higresscontroller/service.go:66-74 | The result starts with the given ports, has all default names, and has unique names iff the given ones were unique |
| ControllerService.UpdateIsIdempotent | internal/controller/higresscontroller/service.go:28-76 | A second application of the update that the reconcile stores changes nothing |
| ControllerService.ServiceObject.UpdateServiceSpec | internal/controller/higresscontroller/service.go:28-76 | The object's specification afterwards is `Update` of the one before, the function that the reconcile stores, and the instance's own ports are unchanged although they may share the array |
| ControllerService.AppendDefaults | internal/controller/higresscontroller/service.go:66-74 | The two loops over slices with shared backing arrays |
| ConsoleChildren.DeploymentObject.UpdateDeploymentSpec | internal/controller/higressconsole/deployment.go:31-63 | The assignments in the source's order give the specification that `ConsoleContents.UpdatedPods` writes out |
| ConsoleChildren.EditCopy | internal/controller/higressconsole/deployment.go:40-49 | The loop reports whether the container is there; what it writes is lost |
| ConsoleChildren.ContainerNeverChanges | internal/controller/higressconsole/deployment.go:40-61 | Once there, the console's containers are never changed by any update with any specification |
| ConsoleChildren.UpdateIsIdempotent | internal/controller/higressconsole/deployment.go:31-63 | A second update changes nothing, whatever orders the two range in, although the environment has no guard |
| ConsoleChildren.WriteConfig | internal/controller/higressconsole/configmap.go:34-38 | The loop over the user's entries, in any order, and the last write |
| ConsoleChildren.ConfigRatchets | internal/controller/higressconsole/configmap.go:27-39 | A second update changes nothing; no key ever leaves the config map, and one no longer specified keeps its value |
| ConsoleService.PortsRatchet | internal/controller/higressconsole/service.go:27-57 | After any specifications the stored names are `http` and all names seen, each with the definition it was first seen with |
| ConsoleService.StoredPortsArePrefix | internal/controller/higressconsole/service.go:51-55 | Every stored list is a prefix of all later ones |
| ConsoleService.NamesStayUnique | internal/controller/higressconsole/service.go:47-55 | Names stay unique over any run of specifications with distinct port names |
| ConsoleService.UpdateUniqueIff | internal/controller/higressconsole/service.go:47-55 | One merge keeps names unique iff the new names of the specification are distinct |
| ConsoleService.UpdateTwice | internal/controller/higressconsole/service.go:27-57 | A second application of one specification changes nothing, from any stored service |
| ConsoleService.ServiceObject.UpdateServiceSpec | internal/controller/higressconsole/service.go:27-57 | The whole new specification |
| ConsoleService.FreePorts | internal/controller/higressconsole/service.go:51-55 | The loop appends exactly the ports whose names were free before it, in order |
| ConfigMaps.SettlesOnTheSecondBuild | internal/controller/higresscontroller/configmap.go:49-77 | Every build but the first gives the same data; the first does iff the user gave an address |
| ConfigMaps.StoredMesh | internal/controller/higresscontroller/configmap.go:49-77 | What is stored: the user's discovery address, or else istiod's with Istio on and the instance's own Service on port 15012 with Istio off; the instance's namespace as root with Istio off, else the user's or Istio's; the user's sources with `k8s://` at most once behind them; and the instance's own network and Higress sections |
| ConfigMaps.Instance.UpdateGatewayConfigMapSpec | internal/controller/higresscontroller/configmap.go:31-120 | The data built, the default address written into the instance where it had none (istiod's with Istio on, else the instance's own Service's), and the instance's sources not lengthened although the append may use their array |
| ConfigMaps.Instance.InitThenMutate | internal/controller/higresscontroller/higresscontroller_controller.go:156-166 | The init and mutate sequence stores the settled data, with the address, root and sources that `StoredMesh` writes out |
| Bindings.BindingObject.Update | internal/controller/higressgateway/rbac.go:58-78 | Role reference set, subject appended unless an equal one is there |
| Bindings.BindingObject.Drop | internal/controller/higressgateway/higressgateway_controller.go:246-252 | The loop drops the subjects of one name and namespace, whatever their kind, and keeps the order of the rest |
| Bindings.AddKeepsTheRest | internal/controller/higresscontroller/rbac.go:183-203 | Adding keeps foreign subjects and their order and never makes a grant occur twice |
| Bindings.RemoveKeepsForeign | internal/controller/higresscontroller/higresscontroller_controller.go:303-310 | Removing keeps foreign subjects and their order |
| Bindings.RemoveMembers | internal/controller/higressgateway/higressgateway_controller.go:246-252 | Exactly the subjects of other accounts remain |
| Bindings.RemoveTwice | internal/controller/higressgateway/higressgateway_controller.go:246-252 | Removing twice is removing once |
| Bindings.SchemesAreDisjoint | internal/controller/higresscontroller/rbac.go:173-177 | No subject can be a gateway's grant and a controller's grant in one binding |
| GatewayChildren.SameOrderIff | internal/controller/higressgateway/deployment.go:35-93 | Two builds of the gateway's Deployment agree iff they ranged over the environment in the same order |
| GatewayChildren.ServiceIsIdempotent | internal/controller/higressgateway/service.go:30-76 | A second update of the gateway's Service and its labels changes nothing |
| GatewayChildren.DeploymentObject.UpdateDeploymentSpec | internal/controller/higressgateway/deployment.go:35-93 | The specification is rebuilt from scratch, whatever was there, to what `GatewayPods.BuiltPods` writes out |
| GatewayChildren.GenEnv | internal/controller/higressgateway/deployment.go:150-252 | The built-in variables, then the user's in iteration order |
| GatewayChildren.ServiceObject.UpdateServiceSpec | internal/controller/higressgateway/service.go:30-76 | The new service, as `GatewayPods.UpdatedService` writes it out, and the label written into the map shared with whoever holds it; a panic exactly when a nil map would be written |
| GatewayChildren.InitService | internal/controller/higressgateway/service.go:16-28 | The new service is the update of an empty one and shares the instance's label map, so initialising it labels the instance; a panic exactly with nil labels and a network |
| Hpa.ConvertV2ToV2beta1 | internal/controller/higressgateway/hpa.go:54-76 | The loop converts metric by metric, dropping target type and value |
| Hpa.ConvertV2ToV2beta2 | internal/controller/higressgateway/hpa.go:78-104 | The loop converts metric by metric |
| Hpa.ConvertV2beta2ToV2 | internal/controller/higressgateway/hpa.go:106-132 | The loop converts metric by metric |
| Hpa.ConvertV2beta1ToV2 | internal/controller/higressgateway/hpa.go:134-164 | The loop converts metric by metric, utilization before average value |
| Hpa.CarriedFields | internal/controller/higressgateway/hpa.go:54-164 | Each of the four conversions carries the object's own fields and each metric's kind, resource name and target fields under their own names, with the type that v2beta1 lacks recovered from the field given |
| Hpa.V2beta2RoundTrip | internal/controller/higressgateway/hpa.go:78-132 | v2 and v2beta2 are mutually inverse exactly on autoscalers without behavior, status and other metric sources |
| Hpa.Beta1RoundTrip | internal/controller/higressgateway/hpa.go:54-76 | v2beta1 to v2 and back is the identity iff, besides that, no metric sets both utilization and average value |
| Hpa.ThroughBeta1IdentityIff | internal/controller/higressgateway/hpa.go:134-164 | v2 to v2beta1 and back is the identity iff every target's type matches the only field set or the target is empty |
| Hpa.ThroughBeta1IsIdempotent | internal/controller/higressgateway/hpa.go:134-164 | The lossy trip is a projection |
| Hpa.Beta1Kernel | internal/controller/higressgateway/hpa.go:54-76 | Two v2 autoscalers become the same v2beta1 one iff they agree on names, kinds, utilizations and average values |
| Hpa.BuiltAutoscalerSurvives | internal/controller/higressgateway/hpa.go:13-45 | The autoscaler the operator builds scales the Deployment of the instance's name by CPU utilization within the user's bounds; it survives v2beta2, and survives v2beta1 iff a percentage is given |
| Runs.MissingResource | internal/controller/higressgateway/higressgateway_controller.go:70-78 | A resource that is gone is left alone, and that is a success unless it cannot be read |
| Runs.FailedNamespaceRead | internal/controller/higressgateway/higressgateway_controller.go:100-109 | A failed look at the namespace ends a reconcile without an effect and as a success |
| Runs.StepsDescend | internal/controller/higressgateway/higressgateway_controller.go:67-146 | Every call and every failure brings a run closer to its end, before and after the status update |
| Runs.WorkingSteps | internal/controller/higressgateway/higressgateway_controller.go:118-143 | Without interference the step machine does what the straight-line sequence of tasks does |
| Reconcilers.HigressGatewayReconciler.Reconcile | internal/controller/higressgateway/higressgateway_controller.go:67-146 | The straight-line reconcile with its early returns is the step machine, under every pattern of failing calls |
| Reconcilers.HigressGatewayReconciler.CreateChildren | internal/controller/higressgateway/higressgateway_controller.go:118-136 | The five create calls are the gateway's program |
| Reconcilers.HigressGatewayReconciler.CreateConfigMap | internal/controller/higressgateway/higressgateway_controller.go:260-287 | One config map, and no way past it with Skywalking on |
| Reconcilers.HigressGatewayReconciler.Finalize | internal/controller/higressgateway/higressgateway_controller.go:234-258 | Read, drop the subject, conditional update; an error without the binding |
| Reconcilers.CreateRBAC | internal/controller/higressgateway/higressgateway_controller.go:177-214 | Four objects in order, or nothing with a flag off |
| Reconcilers.HigressControllerReconciler.Reconcile | internal/controller/higresscontroller/higresscontroller_controller.go:48-144 | The same for the controller, custom resource definitions first and the console last |
| Reconcilers.HigressControllerReconciler.CreateChildren | internal/controller/higresscontroller/higresscontroller_controller.go:103-126 | The create calls are the controller's program |
| Reconcilers.HigressControllerReconciler.CreateDeployment | internal/controller/higresscontroller/higresscontroller_controller.go:255-276 | Fast path, foreign owner, absent Deployment and failed read |
| Reconcilers.HigressControllerReconciler.CreateIngressClass | internal/controller/higresscontroller/higresscontroller_controller.go:237-253 | Created only when the read says NotFound; other errors are ignored |
| Reconcilers.HigressControllerReconciler.Finalize | internal/controller/higresscontroller/higresscontroller_controller.go:287-311 | Nothing with a flag off, else as the gateway's |
| Reconcilers.HigressControllerReconciler.CreateCRDs | internal/controller/higresscontroller/higresscontroller_controller.go:313-345 | The loop over the definitions, with its early returns, is the list of their tasks |
| Reconcilers.ApplyDefinition | internal/controller/higresscontroller/higresscontroller_controller.go:326-342 | Read, create or conditionally update one definition, written without the primitive, is the primitive's task |
| Reconcilers.HigressConsole.Reconcile | internal/controller/higressconsole/Controller.go:23-50 | The console's five calls are its program, under every pattern of failing calls |
| Reconcilers.HigressConsole.CreateRBAC | internal/controller/higressconsole/Controller.go:108-137 | Four objects in order, whatever the flags say |

## Left out

- Reading the manifests and building the client for custom resource definitions: the definitions read are a
  parameter of a run, and a manifest that cannot be parsed is not modelled.
- The readiness probe that is generated for a pilot but used nowhere, and log messages.
- Defaulting and validation by the API server (an immutable role reference, for one), stale informer caches,
  garbage collection through owner references, leader election, logging: reads are fresh and the store returns
  what was written.
- The YAML encoder, of which only injectivity is used: `Yaml` has one constructor per encoded type.
- RBAC rule tables, probes, security contexts and scheduling fields are opaque literals.
- The content of the Skywalking config map: with Skywalking on, the run cannot get past it.
- Integer widths: ports, replicas and percentages are unbounded, and no arithmetic is done on them.
- Slices that do not start at the head of their array.
- Termination of reconcile loops under endless failure: retries are any finite sequence.
- Protocol.Enabled: users do not remove finalizers, change the service account name, or switch a controller's RBAC off;
  nobody but users and the operator writes to the modelled objects.
- ConsoleGrants.NoLeaksEver: without the condition on consoles it is false, as Witnesses.LeaksIff shows for one
  controller; ConsoleGrants.UnownedIff then says which grants have no owner.
- Witnesses.LeaksIff: is about controllers that can be installed. One without resources for both containers panics
  while it builds its Deployment, and one whose console's ClusterRole has the name of its own fails at that object.
- ControllerTheorems.QuiescentIff: is about controllers none of whose console's objects is one of the children's
  (ControllerPrograms.ConsoleApart), whose two containers have different names and whose environment does not
  contradict a built-in variable, or has a single entry; the last two are needed
  (ControllerDeployment.SharedNameNeverSettles, ControllerEnv.RegenerationIsStableIff). The manifests read have
  different names and are the same for both runs.
- ControllerRecovery.ConvergesIff: is about the same controllers. The Deployment found is nobody else's, and if the
  container has another name there is none of that name: with a foreign one a failed read leads to a second one.
- ProtocolGrants.ExactMembership: says nothing of uninterrupted membership for two resources that share account and
  namespace, because finalizing one removes the subject of both until the other is reconciled.
- Removal of RoleBinding subjects on deletion: the code does not do it.
- ControllerContents.StoredDeployment: says nothing about the managed containers of a controller that gives both the same
  name, because the list then never settles (ControllerDeployment.SharedNameNeverSettles).
- ControllerCuts.WhateverFails: is about the controllers of ControllerRecovery.ConvergesIff.
- ControllerContents.ReconcileMakesChildren: is about controllers none of whose console's objects is one of the
  children's; up to the status update ControllerContents.MarkingMakesChildren has no such condition.
- ConsoleContents.InstallsIff: is about resources with a namespace, as every custom resource of the operator has one.
- ConsoleContents.StoredDeployment: compares with the store at the status update, when the console's part begins.
