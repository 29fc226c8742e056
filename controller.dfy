/** One pass of the MyApp control loop (myapp_controller.go, Reconcile).

    The pass is specified stage by stage as functions over a `Cluster` value;
    `Pass` chains the stages, and `Reconciler.Reconcile` performs the same pass
    step by step against a `Store`, proved equal to `Pass`. Each client call
    receives the fault the oracle assigns to its call site. */
module Controller {
  import opened MyAppTypes
  import opened Children
  import opened Platform
  import opened StatusText

  /** `time.Second * 5`, the retry delay after a failed re-read or status
      write of the MyApp. */
  const ShortRequeue: nat := 5
  /** `time.Minute`, the delay after a child write and after a full pass. */
  const LongRequeue: nat := 60

  /** What a pass reports to the dispatcher: nothing to do, come back after a
      delay, or an error (retried with backoff by the dispatcher). */
  datatype PassResult = Done | RequeueAfter(seconds: nat) | Failed(error: Error)

  datatype Outcome = Outcome(cluster: Cluster, result: PassResult)

  /** A stage either hands a value to the next stage or ends the pass. */
  datatype Stage<T> = Proceed(value: T) | Finish(outcome: Outcome)

  /** The failure met by each client call of one pass, in source order. */
  datatype Oracle = Oracle(
    getApp: Fault,
    getLatest: Fault,
    updateInitialStatus: Fault,
    ownDeployment: Fault,
    getDeployment: Fault,
    createDeployment: Fault,
    updateDeployment: Fault,
    ownService: Fault,
    getService: Fault,
    createService: Fault,
    getFinal: Fault,
    updateFinalStatus: Fault)

  const NoFaults := Oracle(None, None, None, None, None, None, None, None, None, None, None, None)

  /** How the live Deployment's replica count is compared with the spec's.
      `PointerCompare` is the comparison as written: it compares the address of
      the freshly fetched Deployment's replica field with the address of the
      MyApp's replica field. `ValueCompare` compares the counts. */
  datatype ReplicaCheck = PointerCompare | ValueCompare

  /** Whether the live Deployment is judged to need a replica update. Under
      `PointerCompare` the two addresses belong to two distinct objects, the one
      just decoded from the Get and the MyApp read at the start of the pass, so
      they always differ. */
  predicate ReplicasDiffer(check: ReplicaCheck, found: Deployment, app: MyApp)
  {
    match check
    case PointerCompare => true
    case ValueCompare => found.spec.replicas != Some(app.spec.replicas)
  }

  lemma PointerCompareAlwaysDiffers(found: Deployment, app: MyApp)
    ensures ReplicasDiffer(PointerCompare, found, app)
  {
  }

  /** Attaches `owner` as the controlling owner of a child's metadata. The
      platform may reject it (the fault); nothing else about it is modelled. */
  function SetControllerReference(owner: MyApp, meta: ObjectMeta, fault: Fault): (r: Result<ObjectMeta>)
    ensures r.Err? <==> fault.Some?
    ensures r.Err? ==> r.error == fault.value
    ensures r.Ok? ==>
      && r.value.name == meta.name && r.value.namespace == meta.namespace
      && r.value.resourceVersion == meta.resourceVersion && r.value.labels == meta.labels
      && r.value.ownerReferences == meta.ownerReferences + [OwnerReference("MyApp", owner.meta.name, true)]
  {
    if fault.Some? then Err(fault.value)
    else Ok(meta.(ownerReferences := meta.ownerReferences + [OwnerReference("MyApp", owner.meta.name, true)]))
  }

  /** The outcome of a pass that ends with a write: on failure the error and an
      unchanged cluster, on success `success` and the written cluster. */
  function Settle(c: Cluster, w: Result<Cluster>, success: PassResult): Outcome
  {
    if w.Err? then Outcome(c, Failed(w.error)) else Outcome(w.value, success)
  }

  /** The status a never-reconciled MyApp receives: phase and message set, the
      ready count kept from the fresh copy. */
  function InitialStatus(s: MyAppStatus): (t: MyAppStatus)
    ensures t.phase == PhasePending && !NeverReconciled(t)
    ensures t.message == CreatingMessage
    ensures t.readyReplicas == s.readyReplicas
  {
    s.(phase := PhasePending, message := CreatingMessage)
  }

  /** The status projected from the Deployment's ready count and the desired count. */
  function FinalStatus(ready: int32, desired: int32): (s: MyAppStatus)
    ensures s.readyReplicas == ready
    ensures s.phase == PhaseRunning <==> ready == desired
    ensures s.phase == PhaseRunning ==> s.message == RunningMessage
    ensures s.phase != PhaseRunning ==> s.phase == PhasePending && s.message == WaitingMessage(ready, desired)
  {
    if ready == desired then MyAppStatus(PhaseRunning, RunningMessage, ready)
    else MyAppStatus(PhasePending, WaitingMessage(ready, desired), ready)
  }

  /** Stage 1 (lines 50-69): a MyApp with an empty phase is marked Pending on a
      freshly read copy. A failed read or write of that copy ends the pass with a
      short requeue and no error. */
  function EnsureInitialStatus(c: Cluster, req: Key, app: MyApp, o: Oracle): Stage<Cluster>
  {
    if !NeverReconciled(app.status) then Proceed(c)
    else
      match Lookup(c.apps, req, o.getLatest)
      case Err(_) => Finish(Outcome(c, RequeueAfter(ShortRequeue)))
      case Ok(latest) =>
        var w := UpdateStatusIn(c, latest.(status := InitialStatus(latest.status)), o.updateInitialStatus);
        if w.Err? then Finish(Outcome(c, RequeueAfter(ShortRequeue))) else Proceed(w.value)
  }

  /** The Deployment as it is created: the built one with its owner attached. */
  function OwnedDeployment(app: MyApp): Deployment
  {
    var d := DeploymentForMyApp(app);
    d.(meta := d.meta.(ownerReferences := [OwnerReference("MyApp", app.meta.name, true)]))
  }

  /** The Service as it is created: the built one with its owner attached. */
  function OwnedService(app: MyApp): Service
  {
    var s := ServiceForMyApp(app);
    s.(meta := s.meta.(ownerReferences := [OwnerReference("MyApp", app.meta.name, true)]))
  }

  /** The Deployment as stored right after its creation. */
  function CreatedDeployment(app: MyApp): Deployment
  {
    OwnedDeployment(app).(meta := OwnedDeployment(app).meta.(resourceVersion := 1))
  }

  /** The Service as stored right after its creation. */
  function CreatedService(app: MyApp): Service
  {
    OwnedService(app).(meta := OwnedService(app).meta.(resourceVersion := 1))
  }

  function ServiceKey(app: MyApp): Key
  {
    Key(app.meta.namespace, app.meta.name + ServiceSuffix)
  }

  /** Stage 2 (lines 71-103): create the Deployment when it is missing, or
      update its replica count when it is judged different; either write ends
      the pass with a long requeue. Only when neither happens does the pass go
      on, carrying the live Deployment. */
  function ApplyDeployment(c: Cluster, app: MyApp, o: Oracle, check: ReplicaCheck): Stage<Deployment>
  {
    var desired := DeploymentForMyApp(app);
    match SetControllerReference(app, desired.meta, o.ownDeployment)
    case Err(e) => Finish(Outcome(c, Failed(e)))
    case Ok(meta) =>
      var deployment := desired.(meta := meta);
      assert KeyOf(meta) == KeyOf(app.meta) && deployment == OwnedDeployment(app);
      match Lookup(c.deployments, KeyOf(meta), o.getDeployment)
      case Err(NotFound) =>
        Finish(Settle(c, CreateDeploymentIn(c, deployment, o.createDeployment), RequeueAfter(LongRequeue)))
      case Err(e) => Finish(Outcome(c, Failed(e)))
      case Ok(found) =>
        if ReplicasDiffer(check, found, app) then
          var updated := found.(spec := found.spec.(replicas := Some(app.spec.replicas)));
          Finish(Settle(c, UpdateDeploymentIn(c, updated, o.updateDeployment), RequeueAfter(LongRequeue)))
        else Proceed(found)
  }

  /** Stage 3 (lines 105-123): create the Service when it is missing and go on;
      an existing Service is left exactly as it is. Any other failure ends the
      pass with that error. */
  function ApplyService(c: Cluster, app: MyApp, o: Oracle): Stage<Cluster>
  {
    var desired := ServiceForMyApp(app);
    match SetControllerReference(app, desired.meta, o.ownService)
    case Err(e) => Finish(Outcome(c, Failed(e)))
    case Ok(meta) =>
      var service := desired.(meta := meta);
      assert KeyOf(meta) == ServiceKey(app) && service == OwnedService(app);
      match Lookup(c.services, KeyOf(meta), o.getService)
      case Err(NotFound) =>
        var w := CreateServiceIn(c, service, o.createService);
        if w.Err? then Finish(Outcome(c, Failed(w.error))) else Proceed(w.value)
      case Err(e) => Finish(Outcome(c, Failed(e)))
      case Ok(_) => Proceed(c)
  }

  /** Stage 4 (lines 125-147): write the projected status onto a freshly read
      copy. The pass never reports an error from here: a failed read or write
      requeues shortly, success requeues after the long interval. */
  function ProjectFinalStatus(c: Cluster, req: Key, app: MyApp, found: Deployment, o: Oracle): Outcome
  {
    match Lookup(c.apps, req, o.getFinal)
    case Err(_) => Outcome(c, RequeueAfter(ShortRequeue))
    case Ok(latest) =>
      var w := UpdateStatusIn(c, latest.(status := FinalStatus(found.status.readyReplicas, app.spec.replicas)), o.updateFinalStatus);
      if w.Err? then Outcome(c, RequeueAfter(ShortRequeue)) else Outcome(w.value, RequeueAfter(LongRequeue))
  }

  /** One whole pass for the MyApp named `req`. A failed first read ends the
      pass at once: quietly when the MyApp is gone, with the error otherwise. */
  function Pass(c: Cluster, req: Key, o: Oracle, check: ReplicaCheck): Outcome
  {
    match Lookup(c.apps, req, o.getApp)
    case Err(e) => Outcome(c, if e == NotFound then Done else Failed(e))
    case Ok(app) =>
      match EnsureInitialStatus(c, req, app, o)
      case Finish(out) => out
      case Proceed(c1) =>
        match ApplyDeployment(c1, app, o, check)
        case Finish(out) => out
        case Proceed(found) =>
          match ApplyService(c1, app, o)
          case Finish(out) => out
          case Proceed(c2) => ProjectFinalStatus(c2, req, app, found, o)
  }

  /** The reconciler: a client of the platform and the replica comparison it uses. */
  class Reconciler {
    const client: Store
    const replicaCheck: ReplicaCheck

    constructor (client: Store, replicaCheck: ReplicaCheck)
      ensures this.client == client && this.replicaCheck == replicaCheck
    {
      this.client := client;
      this.replicaCheck := replicaCheck;
    }

    /** One pass against the live store (lines 33-148): read the MyApp, then run
        the four stages, returning as soon as one of them ends the pass. */
    method Reconcile(req: Key, o: Oracle) returns (res: PassResult)
      modifies client
      ensures Pass(old(client.Snapshot()), req, o, replicaCheck) == Outcome(client.Snapshot(), res)
    {
      var got := client.GetApp(req, o.getApp);
      if got.Err? {
        if got.error == NotFound {
          return Done;
        }
        return Failed(got.error);
      }
      var myApp := got.value;

      var stop := InitializeStatus(req, myApp, o);
      if stop.Some? {
        return stop.value;
      }
      var live;
      live, stop := ReconcileDeployment(myApp, o);
      if stop.Some? {
        return stop.value;
      }
      stop := ReconcileService(myApp, o);
      if stop.Some? {
        return stop.value;
      }
      res := WriteFinalStatus(req, myApp, live, o);
    }

    /** Lines 50-69: mark a never-reconciled MyApp Pending on a fresh copy. */
    method InitializeStatus(req: Key, myApp: MyApp, o: Oracle) returns (stop: Option<PassResult>)
      modifies client
      ensures EnsureInitialStatus(old(client.Snapshot()), req, myApp, o)
        == if stop.Some? then Finish(Outcome(client.Snapshot(), stop.value)) else Proceed(client.Snapshot())
    {
      if myApp.status.phase == "" {
        var latest := client.GetApp(req, o.getLatest);
        if latest.Err? {
          return Some(RequeueAfter(ShortRequeue));
        }
        var latestApp := latest.value;
        latestApp := latestApp.(status := latestApp.status.(phase := PhasePending, message := CreatingMessage));
        var err := client.UpdateAppStatus(latestApp, o.updateInitialStatus);
        if err.Some? {
          return Some(RequeueAfter(ShortRequeue));
        }
      }
      return None;
    }

    /** Lines 71-103: create the Deployment or correct its replica count. */
    method ReconcileDeployment(myApp: MyApp, o: Oracle) returns (live: Deployment, stop: Option<PassResult>)
      modifies client
      ensures ApplyDeployment(old(client.Snapshot()), myApp, o, replicaCheck)
        == if stop.Some? then Finish(Outcome(client.Snapshot(), stop.value)) else Proceed(live)
      ensures stop.None? ==> client.Snapshot() == old(client.Snapshot())
    {
      var deployment := DeploymentForMyApp(myApp);
      var owned := SetControllerReference(myApp, deployment.meta, o.ownDeployment);
      if owned.Err? {
        return deployment, Some(Failed(owned.error));
      }
      deployment := deployment.(meta := owned.value);
      assert KeyOf(deployment.meta) == KeyOf(myApp.meta) && deployment == OwnedDeployment(myApp);

      var found := client.GetDeployment(KeyOf(deployment.meta), o.getDeployment);
      if found.Err? && found.error == NotFound {
        var err := client.CreateDeployment(deployment, o.createDeployment);
        if err.Some? {
          return deployment, Some(Failed(err.value));
        }
        return deployment, Some(RequeueAfter(LongRequeue));
      } else if found.Err? {
        return deployment, Some(Failed(found.error));
      }
      live := found.value;

      if ReplicasDiffer(replicaCheck, live, myApp) {
        live := live.(spec := live.spec.(replicas := Some(myApp.spec.replicas)));
        var err := client.UpdateDeployment(live, o.updateDeployment);
        if err.Some? {
          return live, Some(Failed(err.value));
        }
        return live, Some(RequeueAfter(LongRequeue));
      }
      return live, None;
    }

    /** Lines 105-123: create the Service when it is missing. */
    method ReconcileService(myApp: MyApp, o: Oracle) returns (stop: Option<PassResult>)
      modifies client
      ensures ApplyService(old(client.Snapshot()), myApp, o)
        == if stop.Some? then Finish(Outcome(client.Snapshot(), stop.value)) else Proceed(client.Snapshot())
    {
      var service := ServiceForMyApp(myApp);
      var owned := SetControllerReference(myApp, service.meta, o.ownService);
      if owned.Err? {
        return Some(Failed(owned.error));
      }
      service := service.(meta := owned.value);
      assert KeyOf(service.meta) == ServiceKey(myApp) && service == OwnedService(myApp);

      var foundService := client.GetService(KeyOf(service.meta), o.getService);
      if foundService.Err? && foundService.error == NotFound {
        var err := client.CreateService(service, o.createService);
        if err.Some? {
          return Some(Failed(err.value));
        }
      } else if foundService.Err? {
        return Some(Failed(foundService.error));
      }
      return None;
    }

    /** Lines 125-147: project the status onto a fresh copy and write it. */
    method WriteFinalStatus(req: Key, myApp: MyApp, live: Deployment, o: Oracle) returns (res: PassResult)
      modifies client
      ensures ProjectFinalStatus(old(client.Snapshot()), req, myApp, live, o) == Outcome(client.Snapshot(), res)
    {
      var finalApp := client.GetApp(req, o.getFinal);
      if finalApp.Err? {
        return RequeueAfter(ShortRequeue);
      }
      var final := finalApp.value;
      final := final.(status := final.status.(readyReplicas := live.status.readyReplicas));
      if live.status.readyReplicas == myApp.spec.replicas {
        final := final.(status := final.status.(phase := PhaseRunning, message := RunningMessage));
      } else {
        final := final.(status := final.status.(phase := PhasePending,
                                                message := WaitingMessage(live.status.readyReplicas, myApp.spec.replicas)));
      }
      var err := client.UpdateAppStatus(final, o.updateFinalStatus);
      if err.Some? {
        return RequeueAfter(ShortRequeue);
      }
      return RequeueAfter(LongRequeue);
    }
  }
}
