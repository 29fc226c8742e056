# MyApp controller — a Dafny model

This project models the reconciliation loop of the MyApp operator. A MyApp is a
custom resource with an image, a replica count and a port. For each MyApp, the
controller is meant to keep one Deployment and one Service in the cluster,
both owned by the MyApp. It is also meant to keep the MyApp's status (phase,
message, ready replicas) in line with the Deployment. As written (line 94), no
pass gets past the Deployment step once the Deployment exists, so the Service
is never created and the final status is never written (see Findings).

The model has these files:

- `types.dfy` (module `MyAppTypes`): the API records `MyAppSpec`,
  `MyAppStatus`, `MyApp` and `MyAppList`, plus the object metadata the
  controller touches. The 32-bit fields are an `int32` newtype.
- `children.dfy` (module `Children`): the shapes of the Deployment and the
  Service, and the two builders `DeploymentForMyApp` and `ServiceForMyApp`.
- `platform.dfy` (module `Platform`): the object store as the controller sees
  it.
  - A `Cluster` value holds three maps keyed by (namespace, name).
  - Write functions define what a Get, a Create, an Update and a status Update
    do, including resource-version conflicts.
  - The `Store` class holds the same three maps as fields. Its methods update
    those fields in place and are proved to agree with the write functions.
- `status_text.dfy` (module `StatusText`): the phase names and messages. It
  also holds the `%d` rendering of the "waiting" message, which is proved
  injective.
- `controller.dfy` (module `Controller`): one pass of `Reconcile`.
  - Four stage functions over `Cluster` specify the pass, and `Pass` chains
    them.
  - `Reconciler.Reconcile` is the imperative pass against a `Store`, split into
    one method per stage. Each method is proved equal to its stage function,
    and the whole pass equal to `Pass`.
- `properties.dfy` (module `ControllerProperties`): what one pass and
  sequences of passes guarantee.
  - The frame of a pass.
  - At most one Deployment write per pass.
  - The outcome of a first pass.
  - Convergence under a value comparison of replica counts.
  - The consequences of the comparison as written at line 94.

Every client call in the source can fail. An `Oracle` holds one `Fault` per
call site: a `Fault` is either `None`, where the store answers from its own
state, or an error forced onto that one call. Network failures, concurrent
writers (`Conflict`), concurrent deletions (`NotFound`) and owner-reference
rejections are all expressed this way. Requeue delays are whole seconds:
5 seconds after a failed re-read or status write of the MyApp (lines 57, 66,
130 and 144), 60 after a child write or a completed pass (lines 87, 102
and 147).

The replica-count comparison at `myapp_controller.go:94` compares two pointers
that never coincide, so it is always true. The model keeps this behaviour as
`ReplicaCheck.PointerCompare`, next to the evidently intended value comparison
`ReplicaCheck.ValueCompare`. The `Reconciler` is constructed with one of the
two. Properties of the code as written use `PointerCompare`; the convergence
properties use `ValueCompare` (see Findings).

One might expect the first pass over a new MyApp to create both the
Deployment and the Service. The code returns right after creating the
Deployment (line 87). The Service is created only on a later pass, and
only once the replica comparison lets the pass continue. The model follows
the code: see `CreatePassOnMissingDeployment` and `ValueCompareConverges`.

## Model

The source cells are paths under `myapp-controller/`.

| member | source | states |
|---|---|---|
| Children.DeploymentForMyApp | myapp-controller/pkg/controller/myapp_controller.go:151-184 | The Deployment has the MyApp's name and namespace. Its labels, selector and pod-template labels are all exactly {app: name}. Its replicas are the spec's replicas. It has exactly one container, "app", with the spec's image and exactly one port, "http", equal to the spec's port. It carries no owner reference yet. |
| Children.ServiceForMyApp | myapp-controller/pkg/controller/myapp_controller.go:187-208 | The Service is named `<name>-service`, in the MyApp's namespace. Its labels and selector are exactly {app: name}. It has exactly one TCP port, 80, targeting the spec's port. Its type is ClusterIP. It carries no owner reference yet. |
| Children.BuildersIgnoreStatus | myapp-controller/pkg/controller/myapp_controller.go:151-208 | Two MyApps with the same name, namespace and spec get the same Deployment and the same Service, whatever their status, labels or version. |
| Children.BuiltChildrenValid | myapp-controller/pkg/controller/myapp_controller.go:151-208 | The built Deployment passes validation iff the spec's replica count is not negative and its port is in 1-65535. The built Service passes iff the port is in 1-65535. |
| Children.ServiceSelectsDeploymentPods | myapp-controller/pkg/controller/myapp_controller.go:152-205 | The Service's selector equals the Deployment's pod labels. Its single target port equals the container's port. The two objects share a namespace but have different names. |
| Platform.UpdateStatusIn | myapp-controller/pkg/apis/example/v1/types.go:10 | A status update succeeds iff three things hold: no fault, the object exists, and its stored resource version equals the caller's. When it succeeds, only the status is copied: spec and metadata are kept, and the version advances by one. No other object changes, and objects stay stored under their own keys. With no fault, it fails with NotFound when the object is missing and with Conflict otherwise. |
| Platform.CreateDeploymentIn | myapp-controller/pkg/controller/myapp_controller.go:81 | A create succeeds iff there is no fault, the Deployment passes validation (replicas not negative, container ports in 1-65535), and the key is free. With no fault it fails with Invalid for an object that fails validation, and otherwise only with AlreadyExists. On success it stores the object at version 1 and changes nothing else. |
| Platform.UpdateDeploymentIn | myapp-controller/pkg/controller/myapp_controller.go:96 | An update succeeds iff there is no fault, the Deployment exists, the versions match and the new object passes validation. On success it replaces metadata and spec, keeps the stored status, advances the version, and changes nothing else. With no fault it fails, in this order of checks, with NotFound when the Deployment is missing, Conflict on a version mismatch, and Invalid otherwise. |
| Platform.CreateServiceIn | myapp-controller/pkg/controller/myapp_controller.go:115 | A create succeeds iff there is no fault, the Service passes validation (ports and numeric target ports in 1-65535), and the key is free. With no fault it fails with Invalid for an object that fails validation, and otherwise only with AlreadyExists. On success it stores the Service at version 1 and changes nothing else. |
| Platform.Store.GetApp | myapp-controller/pkg/controller/myapp_controller.go:38 | The forced fault if there is one. Otherwise the stored MyApp, or NotFound. |
| Platform.Store.GetDeployment | myapp-controller/pkg/controller/myapp_controller.go:78 | The forced fault if there is one. Otherwise the stored Deployment, or NotFound. |
| Platform.Store.GetService | myapp-controller/pkg/controller/myapp_controller.go:112 | The forced fault if there is one. Otherwise the stored Service, or NotFound. |
| Platform.Store.UpdateAppStatus | myapp-controller/pkg/controller/myapp_controller.go:63 | The returned error and the store's new contents are exactly those `UpdateStatusIn` gives for the old contents. |
| Platform.Store.CreateDeployment | myapp-controller/pkg/controller/myapp_controller.go:81 | The returned error and the new contents are exactly those `CreateDeploymentIn` gives. |
| Platform.Store.UpdateDeployment | myapp-controller/pkg/controller/myapp_controller.go:96 | The returned error and the new contents are exactly those `UpdateDeploymentIn` gives. |
| Platform.Store.CreateService | myapp-controller/pkg/controller/myapp_controller.go:115 | The returned error and the new contents are exactly those `CreateServiceIn` gives. |
| StatusText.Decimal | myapp-controller/pkg/controller/myapp_controller.go:139 | `%d` of a natural number is a non-empty string of decimal digits. It starts with '0' iff the number is 0, so there are no leading zeros. |
| StatusText.DecimalValueOfDecimal | myapp-controller/pkg/controller/myapp_controller.go:139 | Reading back the digits gives the number: the decimal rendering loses nothing. |
| StatusText.FormatInt | myapp-controller/pkg/controller/myapp_controller.go:139 | `%d` of an integer is non-empty and contains no slash. |
| StatusText.ParseIntOfFormatInt | myapp-controller/pkg/controller/myapp_controller.go:139 | `%d` of any integer, negative ones included, parses back to the same integer. |
| StatusText.WaitingMessage | myapp-controller/pkg/controller/myapp_controller.go:139 | No ensures: the prefix, `%d` of the ready count, a slash, and `%d` of the desired count. Characterised by `FormatInt` and `WaitingMessageInjective`. |
| StatusText.WaitingMessageInjective | myapp-controller/pkg/controller/myapp_controller.go:139 | Two waiting messages that are equal report the same ready count and the same desired count. |
| Controller.PointerCompareAlwaysDiffers | myapp-controller/pkg/controller/myapp_controller.go:94 | As written, every live Deployment is judged different from the spec, even one whose replica count equals it. |
| Controller.ReplicasDiffer | myapp-controller/pkg/controller/myapp_controller.go:94 | No ensures. The as-written check is constant true; the value check is true iff the live replica count differs from the spec's. Characterised by `PointerCompareAlwaysDiffers`, `DeploymentInSync` and `DeploymentRescaled`. |
| Controller.SetControllerReference | myapp-controller/pkg/controller/myapp_controller.go:73-75 | It fails iff a fault is forced, with that error. On success it keeps name, namespace, labels and version, and appends one controller owner reference to the MyApp. |
| Controller.InitialStatus | myapp-controller/pkg/controller/myapp_controller.go:61-62 | Phase Pending and the "creating resources" message. The ready count is kept. |
| Controller.FinalStatus | myapp-controller/pkg/controller/myapp_controller.go:133-140 | The ready count is the Deployment's. The phase is Running with the "all ready" message iff ready equals desired. Otherwise it is Pending with the waiting message for the two counts. |
| Controller.EnsureInitialStatus | myapp-controller/pkg/controller/myapp_controller.go:50-69 | No ensures. It is stage 1 of the pass; characterised by `InitialStatusStage` and `InitialStageFramed`. |
| Controller.OwnedDeployment | myapp-controller/pkg/controller/myapp_controller.go:72-75 | No ensures. It is the built Deployment with the MyApp's controller owner reference, as `SetControllerReference` attaches it; used by `DeploymentCreated` and `DeploymentWriteShape`. |
| Controller.OwnedService | myapp-controller/pkg/controller/myapp_controller.go:106-109 | No ensures. It is the built Service with the MyApp's controller owner reference; used by `ServiceStage` and `ServiceEnsured`. |
| Controller.ApplyDeployment | myapp-controller/pkg/controller/myapp_controller.go:71-103 | No ensures. It is stage 2 of the pass; characterised by `DeploymentStage`, `DeploymentStageErrors`, `DeploymentCreated`, `DeploymentWrites`, `DeploymentWriteShape`, `DeploymentInSync` and `DeploymentRescaled`. |
| Controller.ApplyService | myapp-controller/pkg/controller/myapp_controller.go:105-123 | No ensures. It is stage 3 of the pass; characterised by `ServiceStage` and `ServiceEnsured`. |
| Controller.ProjectFinalStatus | myapp-controller/pkg/controller/myapp_controller.go:125-147 | No ensures. It is stage 4 of the pass; characterised by `FinalStatusStage`. |
| Controller.Pass | myapp-controller/pkg/controller/myapp_controller.go:33-148 | No ensures. It chains the first read and the four stages; characterised by `FetchFailureIsInert`, `PassFrame`, `AtMostOneDeploymentWrite` and the scenario lemmas below, and implemented by `Reconciler.Reconcile`. |
| Controller.Reconciler.Reconcile | myapp-controller/pkg/controller/myapp_controller.go:33-148 | The imperative pass returns the result, and leaves the store in the state, that `Pass` specifies for the old store contents, the request, the faults and the comparison. |
| Controller.Reconciler.InitializeStatus | myapp-controller/pkg/controller/myapp_controller.go:50-69 | Its stop result and the new store state are exactly the outcome of the stage function `EnsureInitialStatus`. |
| Controller.Reconciler.ReconcileDeployment | myapp-controller/pkg/controller/myapp_controller.go:71-103 | Its stop result, the live Deployment it returns and the new store state are exactly the outcome of `ApplyDeployment`. When it lets the pass go on, it has written nothing. |
| Controller.Reconciler.ReconcileService | myapp-controller/pkg/controller/myapp_controller.go:105-123 | Its stop result and the new store state are exactly the outcome of `ApplyService`. |
| Controller.Reconciler.WriteFinalStatus | myapp-controller/pkg/controller/myapp_controller.go:125-147 | Its result and the new store state are exactly the outcome of `ProjectFinalStatus`. |
| ControllerProperties.InitialStatusStage | myapp-controller/pkg/controller/myapp_controller.go:50-69 | A MyApp with a phase passes through untouched. A new one goes on iff the fresh read and the status write both succeed; it goes on with that write applied to the freshly read copy. Any stop is a 5-second requeue with the cluster unchanged. |
| ControllerProperties.DeploymentStage | myapp-controller/pkg/controller/myapp_controller.go:71-103 | The stage never touches MyApps or Services, never removes a Deployment, and changes no Deployment other than the MyApp's own. Every stop is an error with nothing written, or a one-minute requeue. It goes on only past a live Deployment judged equal. An owner-reference failure returns that error at once. |
| ControllerProperties.DeploymentStageErrors | myapp-controller/pkg/controller/myapp_controller.go:73-99 | Every error is returned as it came, with nothing written: <br>• the owner-reference error; <br>• a read error other than NotFound; <br>• the create error after a NotFound, which is Invalid for a spec that fails validation, or AlreadyExists when a forced NotFound hid a live Deployment; <br>• the update error for a Deployment judged different. |
| ControllerProperties.DeploymentCreated | myapp-controller/pkg/controller/myapp_controller.go:77-91 | A missing Deployment leads to the create call, and the stage ends with what that call gives. Without a fault, a valid spec's owned built Deployment is stored at version 1 and the pass requeues after a minute. An invalid spec fails the pass with Invalid, with nothing written. |
| ControllerProperties.DeploymentWrites | myapp-controller/pkg/controller/myapp_controller.go:77-103 | Deployments change only on two paths: the create path for a missing one, or the update path for a live one judged different. |
| ControllerProperties.DeploymentWriteShape | myapp-controller/pkg/controller/myapp_controller.go:77-103 | A Deployment write stores either the owned built Deployment or the live one with only the spec's replica count and a new version. It is followed by a one-minute requeue, with MyApps and Services unchanged. |
| ControllerProperties.DeploymentInSync | myapp-controller/pkg/controller/myapp_controller.go:93-105 | A live Deployment judged equal lets the pass go on, with that Deployment and no write. |
| ControllerProperties.DeploymentRescaled | myapp-controller/pkg/controller/myapp_controller.go:94-103 | A live Deployment judged different gets the spec's replica count and a new version, keeps everything else, and the pass requeues after a minute. If the result fails validation, the pass fails with Invalid and nothing is written. |
| ControllerProperties.ServiceStage | myapp-controller/pkg/controller/myapp_controller.go:105-123 | The stage never touches MyApps or Deployments and never modifies an existing Service. It can only add the owned built Service under its key. Any stop is an error with nothing written. That error is the one that came back, unchanged: <br>• the owner-reference error; <br>• a read error other than NotFound; <br>• the create error after a NotFound, which is Invalid for a port that fails validation, or AlreadyExists when a forced NotFound hid a live Service. |
| ControllerProperties.ServiceEnsured | myapp-controller/pkg/controller/myapp_controller.go:111-119 | Without faults, an existing Service lets the stage go on with nothing changed. A missing one is created as the owned Service at version 1 when the port passes validation. Otherwise the pass fails with Invalid and nothing is written. |
| ControllerProperties.FinalStatusStage | myapp-controller/pkg/controller/myapp_controller.go:125-147 | The result is always a requeue: a minute iff the fresh read and the status write both succeed, and then the cluster is that write of `FinalStatus`. Otherwise it is 5 seconds with the cluster unchanged. |
| ControllerProperties.FetchFailureIsInert | myapp-controller/pkg/controller/myapp_controller.go:36-48 | A failed first read writes nothing. The pass ends with no error iff the MyApp is gone, and otherwise returns the read error. |
| ControllerProperties.PassFrame | myapp-controller/pkg/controller/myapp_controller.go:33-148 | Whatever the faults and the comparison, a pass has this frame: <br>• MyApps: it keeps the same set; only the requested one may change, and only in status and version. <br>• Deployments: it removes none and changes none but the requested one. <br>• Services: it changes no existing Service and adds none but the MyApp's own. <br>• Every object stays under its key. <br>A pass for a deleted MyApp changes nothing. |
| ControllerProperties.AtMostOneDeploymentWrite | myapp-controller/pkg/controller/myapp_controller.go:77-103 | A pass that changes Deployments requeues after a minute and writes no Service. The only status write it makes is the initial Pending one. It either creates the built Deployment or changes only the live one's replica count. |
| ControllerProperties.CreatePassOnMissingDeployment | myapp-controller/pkg/controller/myapp_controller.go:77-87 | Without faults, a pass over a valid MyApp that has no Deployment stores the created Deployment, creates no Service, requeues after a minute, and leaves the status Pending (new MyApp) or unchanged. The invalid case is `InvalidSpecPassCreatesNothing`. |
| ControllerProperties.InvalidSpecPassCreatesNothing | myapp-controller/pkg/controller/myapp_controller.go:77-87 | For a MyApp whose spec fails validation and which has no Deployment, a pass under any faults creates no Deployment and no Service and never completes with the one-minute requeue. With no faults it fails with Invalid. |
| ControllerProperties.InSyncPassProjectsStatus | myapp-controller/pkg/controller/myapp_controller.go:105-147 | Under the value comparison, with a port that passes validation, a pass over a matching Deployment leaves Deployments alone and creates the Service if it is missing. It writes the status `FinalStatus` of the Deployment's ready count, changes only status and version, and requeues after a minute. |
| ControllerProperties.SteadyStatePassOnlyAdvancesVersion | myapp-controller/pkg/controller/myapp_controller.go:125-147 | Under the value comparison, once everything matches, a pass changes nothing but the MyApp's resource version. |
| ControllerProperties.ValueCompareConverges | myapp-controller/pkg/controller/myapp_controller.go:33-148 | Under the value comparison, a new MyApp whose spec passes validation converges in two passes. The first pass creates only the Deployment and marks the MyApp Pending. Once the replicas become ready, the second pass creates the Service and reports Running with every replica ready. Invalid specs never converge (`InvalidSpecNeverDeploys`). |
| ControllerProperties.InvalidSpecNeverDeploys | myapp-controller/pkg/controller/myapp_controller.go:33-148 | For a MyApp whose spec fails validation and which has no Deployment, no sequence of passes, under any faults and either comparison, creates its Deployment or any Service. |
| ControllerProperties.PointerCompareStopsAtDeployment | myapp-controller/pkg/controller/myapp_controller.go:94-103 | As written, once the Deployment exists, no pass under any faults writes a Service or a final status. |
| ControllerProperties.PointerCompareRewritesInSyncDeployment | myapp-controller/pkg/controller/myapp_controller.go:94-102 | As written, a stored, valid Deployment already at the spec's replica count is rewritten with only a new version, and the pass requeues without reaching the Service. |
| ControllerProperties.PointerCompareNeverRuns | myapp-controller/pkg/controller/myapp_controller.go:94-147 | As written, once the Deployment exists, no sequence of passes under any faults creates the Service or reports the MyApp Running. |

## Left out

- Logging, the `context.Context` argument and cancellation are not modelled. They change no state.
- `SetupWithManager`, the watches, the work queue and requeue timing are not modelled. A pass returns its requeue request, and sequences of passes are applied one after another by `Run`.
- Scheme registration, deep-copy code and the RBAC markers are not modelled. They are generated or declarative.
- `TypeMeta` and `ListMeta` are not modelled. `MyAppList` is a type only, since the controller never lists MyApps.
- `Controller.SetControllerReference`: its real rejections (an object already controlled by someone else, a cross-namespace owner, an unknown kind) are all collapsed into the forced fault. The owner's UID and API version are not recorded.
- Garbage collection of owned objects on deletion is not modelled.
- Platform defaulting and the other Deployment and Service fields the builders leave unset are not modelled.
- The platform's validation is modelled only for the fields the controller sets: the replica count, container ports, Service ports and numeric target ports. Names, labels, images and everything else are not validated. Any other rejection is one of the forced create or update faults.
- ControllerProperties.PointerCompareRewritesInSyncDeployment takes as a precondition that the stored Deployment passes validation. The model does not carry the invariant that every stored object was validated on its way in, so lemmas that need it state it.
- The Deployment controller that makes replicas ready is not modelled. It is modelled only as `ReplicasBecomeReady` between two passes.
- Resource versions are per-object counters, not opaque strings from a shared sequence.
- Concurrent writers are modelled only as forced `Conflict` or `NotFound` faults on single calls, not as writes interleaved between the calls of a pass.
- ControllerProperties.InitialStatusStage, ControllerProperties.DeploymentStage, ControllerProperties.DeploymentStageErrors, ControllerProperties.ServiceStage and ControllerProperties.FinalStatusStage state that a stop leaves the cluster unchanged. That holds only because a failed write here is one the server did not apply. A client error reported after the server already committed the write (for example a timeout on a committed Create or Update) is not modelled.
- ControllerProperties.SteadyStatePassOnlyAdvancesVersion and ControllerProperties.PointerCompareRewritesInSyncDeployment report a new resource version as the only change. In the model, every successful write advances the version, even one that changes nothing. The real API server skips such no-op updates and keeps the version, so there those passes would change nothing at all.
- Controller.ReplicasDiffer: pointer identity is not modelled through addresses. The comparison as written is the constant true, which is what it evaluates to, because a pointer into the freshly decoded Deployment never equals a pointer into the MyApp.

## Findings

| source | as written | input that shows it | evidently intended | confidence | as-written member | corrected member |
|---|---|---|---|---|---|---|
| myapp-controller/pkg/controller/myapp_controller.go:94 | `found.Spec.Replicas != &myApp.Spec.Replicas` compares two pointers into different objects, so it is always true. | Take a MyApp with replicas 3 whose Deployment exists with replicas 3 and 3 ready. Every pass rewrites the Deployment and returns at line 102, so the Service is never created and the phase never becomes Running. | Compare the counts: `*found.Spec.Replicas != myApp.Spec.Replicas`. A matching Deployment is then left alone, and the pass goes on to the Service and the final status. | high, not executed | ControllerProperties.PointerCompareNeverRuns | ControllerProperties.ValueCompareConverges |
