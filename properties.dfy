/** What one pass, and a sequence of passes, of the MyApp controller guarantees.
    Line numbers in the comments refer to pkg/controller/myapp_controller.go. */
module ControllerProperties {
  import opened MyAppTypes
  import opened Children
  import opened Platform
  import opened StatusText
  import opened Controller

  /** `b` is `a` after writes to its status only: same spec, same metadata
      except a resource version that did not go back. */
  predicate StatusOnlyChanged(a: MyApp, b: MyApp)
  {
    && b.spec == a.spec
    && b.meta.(resourceVersion := a.meta.resourceVersion) == a.meta
    && a.meta.resourceVersion <= b.meta.resourceVersion
  }

  // ---------------------------------------------------------------------------
  // The four stages

  /** Lines 50-69: a MyApp that was reconciled before passes straight through;
      a new one goes on only after its status was rewritten to Pending on the
      freshly read copy, and a failed read or write requeues after 5 seconds
      with nothing changed. */
  lemma InitialStatusStage(c: Cluster, req: Key, app: MyApp, o: Oracle)
    ensures var s := EnsureInitialStatus(c, req, app, o);
      && (!NeverReconciled(app.status) ==> s == Proceed(c))
      && (s.Finish? ==> s.outcome == Outcome(c, RequeueAfter(ShortRequeue)))
      && (s.Proceed? && NeverReconciled(app.status) ==>
            && o.getLatest.None? && req in c.apps
            && UpdateStatusIn(c, c.apps[req].(status := InitialStatus(c.apps[req].status)), o.updateInitialStatus) == Ok(s.value))
      && (NeverReconciled(app.status) && WellKeyed(c) && req in c.apps ==>
            (s.Proceed? <==> o.getLatest.None? && o.updateInitialStatus.None?))
  {
  }

  /** Lines 71-103: what the Deployment stage may change, and when it lets the
      pass go on. */
  lemma DeploymentStage(c: Cluster, app: MyApp, o: Oracle, check: ReplicaCheck)
    ensures var s, key := ApplyDeployment(c, app, o, check), KeyOf(app.meta);
      && (s.Finish? ==>
            && s.outcome.cluster.apps == c.apps
            && s.outcome.cluster.services == c.services
            && (WellKeyed(c) ==> s.outcome.cluster.deployments - {key} == c.deployments - {key})
            && c.deployments.Keys <= s.outcome.cluster.deployments.Keys
            && (s.outcome.result.Failed? || s.outcome.result == RequeueAfter(LongRequeue))
            && (s.outcome.result.Failed? ==> s.outcome.cluster == c))
      && (s.Proceed? ==>
            && key in c.deployments
            && s.value == c.deployments[key]
            && !ReplicasDiffer(check, s.value, app))
      && (o.ownDeployment.Some? ==> s == Finish(Outcome(c, Failed(o.ownDeployment.value))))
  {
  }

  /** Lines 73-99: each error of the Deployment stage is returned as it came:
      the owner-reference error, the read error other than NotFound, the create
      error (Invalid for a spec the platform rejects, AlreadyExists when a
      forced NotFound hid a live Deployment) and the update error; nothing is
      written on any of these paths. */
  lemma DeploymentStageErrors(c: Cluster, app: MyApp, o: Oracle, check: ReplicaCheck)
    ensures var s, key := ApplyDeployment(c, app, o, check), KeyOf(app.meta);
      && (o.ownDeployment.Some? ==> s == Finish(Outcome(c, Failed(o.ownDeployment.value))))
      && (o.ownDeployment.None? && o.getDeployment.Some? && o.getDeployment.value != NotFound ==>
            s == Finish(Outcome(c, Failed(o.getDeployment.value))))
      && (o.ownDeployment.None? && o.createDeployment.Some?
          && (o.getDeployment == Some(NotFound) || (o.getDeployment.None? && key !in c.deployments)) ==>
            s == Finish(Outcome(c, Failed(o.createDeployment.value))))
      && (o.ownDeployment.None? && o.createDeployment.None? && !ValidSpec(app)
          && (o.getDeployment == Some(NotFound) || (o.getDeployment.None? && key !in c.deployments)) ==>
            s == Finish(Outcome(c, Failed(Invalid))))
      && (o.ownDeployment.None? && o.getDeployment == Some(NotFound) && o.createDeployment.None? && key in c.deployments
          && ValidSpec(app) ==>
            s == Finish(Outcome(c, Failed(AlreadyExists))))
      && (o.ownDeployment.None? && o.getDeployment.None? && o.updateDeployment.Some?
          && key in c.deployments && ReplicasDiffer(check, c.deployments[key], app) ==>
            s == Finish(Outcome(c, Failed(o.updateDeployment.value))))
  {
    BuiltChildrenValid(app);
  }

  /** Lines 77-91: a missing Deployment is created, owned by the MyApp; the
      pass then requeues, or fails with the create error, which is Invalid
      when the platform rejects the spec. */
  lemma DeploymentCreated(c: Cluster, app: MyApp, o: Oracle, check: ReplicaCheck)
    requires o.ownDeployment.None? && (o.getDeployment.None? || o.getDeployment == Some(NotFound))
    requires KeyOf(app.meta) !in c.deployments
    ensures ApplyDeployment(c, app, o, check)
      == Finish(Settle(c, CreateDeploymentIn(c, OwnedDeployment(app), o.createDeployment), RequeueAfter(LongRequeue)))
    ensures o.createDeployment.None? ==>
      ApplyDeployment(c, app, o, check)
        == Finish(if ValidSpec(app)
                  then Outcome(c.(deployments := c.deployments[KeyOf(app.meta) := CreatedDeployment(app)]), RequeueAfter(LongRequeue))
                  else Outcome(c, Failed(Invalid)))
  {
    var desired := DeploymentForMyApp(app);
    var meta := SetControllerReference(app, desired.meta, o.ownDeployment).value;
    assert KeyOf(meta) == KeyOf(app.meta) && desired.(meta := meta) == OwnedDeployment(app);
    BuiltChildrenValid(app);
  }

  /** Lines 77-103: the Deployment stage writes only on the create path of a
      missing Deployment or the update path of one judged different. */
  lemma DeploymentWrites(c: Cluster, app: MyApp, o: Oracle, check: ReplicaCheck)
    requires WellKeyed(c)
    ensures var s, key := ApplyDeployment(c, app, o, check), KeyOf(app.meta);
      s.Finish? && s.outcome.cluster.deployments != c.deployments ==>
        && o.ownDeployment.None?
        && (|| (key !in c.deployments && (o.getDeployment.None? || o.getDeployment == Some(NotFound)))
            || (&& key in c.deployments && o.getDeployment.None? && o.updateDeployment.None?
                && ReplicasDiffer(check, c.deployments[key], app)))
  {
  }

  /** Lines 77-103: what a Deployment write of the stage looks like: the built
      Deployment created, or the live one with the spec's replica count; the
      stage then requeues after a minute, with MyApps and Services untouched. */
  lemma DeploymentWriteShape(c: Cluster, app: MyApp, o: Oracle, check: ReplicaCheck)
    requires WellKeyed(c)
    ensures var s, key := ApplyDeployment(c, app, o, check), KeyOf(app.meta);
      s.Finish? && s.outcome.cluster.deployments != c.deployments ==>
        && s.outcome.result == RequeueAfter(LongRequeue)
        && s.outcome.cluster.apps == c.apps
        && s.outcome.cluster.services == c.services
        && key in s.outcome.cluster.deployments
        && (key !in c.deployments ==> s.outcome.cluster.deployments[key] == CreatedDeployment(app))
        && (key in c.deployments ==>
              var found := c.deployments[key];
              s.outcome.cluster.deployments[key] == found.(spec := found.spec.(replicas := Some(app.spec.replicas)),
                                                           meta := found.meta.(resourceVersion := found.meta.resourceVersion + 1)))
  {
    var s := ApplyDeployment(c, app, o, check);
    if s.Finish? && s.outcome.cluster.deployments != c.deployments {
      DeploymentWrites(c, app, o, check);
      if KeyOf(app.meta) !in c.deployments {
        DeploymentCreated(c, app, o, check);
      } else {
        DeploymentRescaled(c, app, o, check);
      }
    }
  }

  /** Lines 93-105: a live Deployment judged in sync lets the pass go on. */
  lemma DeploymentInSync(c: Cluster, app: MyApp, o: Oracle, check: ReplicaCheck)
    requires o.ownDeployment.None? && o.getDeployment.None?
    requires KeyOf(app.meta) in c.deployments && !ReplicasDiffer(check, c.deployments[KeyOf(app.meta)], app)
    ensures ApplyDeployment(c, app, o, check) == Proceed(c.deployments[KeyOf(app.meta)])
  {
  }

  /** Lines 94-103: a Deployment judged different gets the spec's replica
      count and nothing else new, and the pass requeues; when the platform
      rejects the result, the pass fails with Invalid and nothing is written. */
  lemma DeploymentRescaled(c: Cluster, app: MyApp, o: Oracle, check: ReplicaCheck)
    requires WellKeyed(c) && o.ownDeployment.None? && o.getDeployment.None? && o.updateDeployment.None?
    requires KeyOf(app.meta) in c.deployments && ReplicasDiffer(check, c.deployments[KeyOf(app.meta)], app)
    ensures var key := KeyOf(app.meta); var found := c.deployments[key];
      var updated := found.(spec := found.spec.(replicas := Some(app.spec.replicas)));
      ApplyDeployment(c, app, o, check)
        == Finish(if ValidDeployment(updated)
                  then Outcome(c.(deployments := c.deployments[key :=
                                    updated.(meta := found.meta.(resourceVersion := found.meta.resourceVersion + 1))]),
                               RequeueAfter(LongRequeue))
                  else Outcome(c, Failed(Invalid)))
  {
  }

  /** Lines 105-123: an existing Service is never modified; a missing one may
      be created; a failure ends the pass with no write, returning the
      owner-reference, read or create error as it came (Invalid for a port the
      platform rejects, AlreadyExists when a forced NotFound hid a live
      Service). */
  lemma ServiceStage(c: Cluster, app: MyApp, o: Oracle)
    ensures var s := ApplyService(c, app, o);
      && (s.Finish? ==> s.outcome.cluster == c && s.outcome.result.Failed?)
      && (s.Proceed? ==>
            && s.value.apps == c.apps
            && s.value.deployments == c.deployments
            && (|| s.value.services == c.services
                || (ServiceKey(app) !in c.services && s.value.services == c.services[ServiceKey(app) := CreatedService(app)])))
      && (s.Proceed? && ServiceKey(app) in c.services ==> s.value == c)
      && (o.ownService.Some? ==> s == Finish(Outcome(c, Failed(o.ownService.value))))
      && (o.ownService.None? && o.getService.Some? && o.getService.value != NotFound ==>
            s == Finish(Outcome(c, Failed(o.getService.value))))
      && (o.ownService.None? && o.createService.Some?
          && (o.getService == Some(NotFound) || (o.getService.None? && ServiceKey(app) !in c.services)) ==>
            s == Finish(Outcome(c, Failed(o.createService.value))))
      && (o.ownService.None? && o.createService.None? && !ValidPort(app.spec.port)
          && (o.getService == Some(NotFound) || (o.getService.None? && ServiceKey(app) !in c.services)) ==>
            s == Finish(Outcome(c, Failed(Invalid))))
      && (o.ownService.None? && o.getService == Some(NotFound) && o.createService.None? && ServiceKey(app) in c.services
          && ValidPort(app.spec.port) ==>
            s == Finish(Outcome(c, Failed(AlreadyExists))))
  {
    var desired := ServiceForMyApp(app);
    if o.ownService.None? {
      var meta := SetControllerReference(app, desired.meta, o.ownService).value;
      assert KeyOf(meta) == ServiceKey(app) && desired.(meta := meta) == OwnedService(app);
      BuiltChildrenValid(app);
    }
  }

  /** Lines 111-119: without faults the stage goes on, having created the
      Service if it was missing, unless the platform rejects the Service's
      port, which fails the pass with Invalid. */
  lemma ServiceEnsured(c: Cluster, app: MyApp, o: Oracle)
    requires o.ownService.None? && o.getService.None? && o.createService.None?
    ensures ApplyService(c, app, o)
      == if ServiceKey(app) in c.services then Proceed(c)
         else if ValidPort(app.spec.port) then Proceed(c.(services := c.services[ServiceKey(app) := CreatedService(app)]))
         else Finish(Outcome(c, Failed(Invalid)))
  {
    var desired := ServiceForMyApp(app);
    var meta := SetControllerReference(app, desired.meta, o.ownService).value;
    assert KeyOf(meta) == ServiceKey(app) && desired.(meta := meta) == OwnedService(app);
    BuiltChildrenValid(app);
  }

  /** Lines 125-147: the final status is written on a fresh copy of the MyApp;
      success requeues after a minute, a failed read or write after 5 seconds
      with nothing changed. */
  lemma FinalStatusStage(c: Cluster, req: Key, app: MyApp, found: Deployment, o: Oracle)
    ensures var out := ProjectFinalStatus(c, req, app, found, o);
      && (out.result == RequeueAfter(ShortRequeue) || out.result == RequeueAfter(LongRequeue))
      && (out.result == RequeueAfter(ShortRequeue) ==> out.cluster == c)
      && (out.result == RequeueAfter(LongRequeue) ==>
            && o.getFinal.None? && req in c.apps
            && UpdateStatusIn(c, c.apps[req].(status := FinalStatus(found.status.readyReplicas, app.spec.replicas)),
                              o.updateFinalStatus) == Ok(out.cluster))
      && (WellKeyed(c) && req in c.apps ==>
            (out.result == RequeueAfter(LongRequeue) <==> o.getFinal.None? && o.updateFinalStatus.None?))
  {
  }

  // ---------------------------------------------------------------------------
  // One pass

  /** Lines 37-48: a failed first read ends the pass with no write at all;
      quietly when the MyApp is gone, with the error otherwise. */
  lemma FetchFailureIsInert(c: Cluster, req: Key, o: Oracle, check: ReplicaCheck)
    requires o.getApp.Some? || req !in c.apps
    ensures var out := Pass(c, req, o, check);
      && out.cluster == c
      && (out.result == Done <==> o.getApp == Some(NotFound) || (o.getApp.None? && req !in c.apps))
      && (o.getApp.Some? && o.getApp.value != NotFound ==> out.result == Failed(o.getApp.value))
  {
  }

  /** `out` differs from `c` only as a pass for `req` may change it: the same
      MyApps, of which only the one named `req` may have a new status; no
      Deployment removed and none but `req`'s changed; no existing Service
      changed, and none added but the one named after the MyApp. */
  ghost predicate PassFramed(c: Cluster, out: Cluster, req: Key)
  {
    && out.apps.Keys == c.apps.Keys
    && (forall k :: k in c.apps ==> StatusOnlyChanged(c.apps[k], out.apps[k]))
    && (forall k :: k in c.apps && k != req ==> out.apps[k] == c.apps[k])
    && c.deployments.Keys <= out.deployments.Keys
    && out.deployments - {req} == c.deployments - {req}
    && (forall k :: k in c.services ==> k in out.services && out.services[k] == c.services[k])
    && (req in c.apps ==> out.services - {ServiceKey(c.apps[req])} == c.services - {ServiceKey(c.apps[req])})
  }

  lemma PassFramedTransitive(c1: Cluster, c2: Cluster, c3: Cluster, req: Key)
    requires PassFramed(c1, c2, req) && PassFramed(c2, c3, req)
    ensures PassFramed(c1, c3, req)
  {
    if req in c1.apps {
      assert ServiceKey(c2.apps[req]) == ServiceKey(c1.apps[req]);
    }
  }

  /** A successful status write of the MyApp named `req` is within the frame. */
  lemma StatusWriteFramed(c: Cluster, obj: MyApp, fault: Fault, req: Key)
    requires WellKeyed(c) && KeyOf(obj.meta) == req && UpdateStatusIn(c, obj, fault).Ok?
    ensures PassFramed(c, UpdateStatusIn(c, obj, fault).value, req)
  {
    var out := UpdateStatusIn(c, obj, fault).value;
    assert out.deployments - {req} == c.deployments - {req};
    assert out.services - {ServiceKey(c.apps[req])} == c.services - {ServiceKey(c.apps[req])};
  }

  lemma PassFramedReflexive(c: Cluster, req: Key)
    ensures PassFramed(c, c, req)
  {
    assert c.deployments - {req} == c.deployments - {req};
  }

  lemma InitialStageFramed(c: Cluster, req: Key, app: MyApp, o: Oracle)
    requires WellKeyed(c) && EnsureInitialStatus(c, req, app, o).Proceed?
    ensures var c1 := EnsureInitialStatus(c, req, app, o).value;
      WellKeyed(c1) && PassFramed(c, c1, req)
  {
    InitialStatusStage(c, req, app, o);
    if NeverReconciled(app.status) {
      StatusWriteFramed(c, c.apps[req].(status := InitialStatus(c.apps[req].status)), o.updateInitialStatus, req);
    } else {
      PassFramedReflexive(c, req);
    }
  }

  lemma DeploymentStageFramed(c: Cluster, req: Key, app: MyApp, o: Oracle, check: ReplicaCheck)
    requires WellKeyed(c) && KeyOf(app.meta) == req && ApplyDeployment(c, app, o, check).Finish?
    ensures var out := ApplyDeployment(c, app, o, check).outcome.cluster;
      WellKeyed(out) && PassFramed(c, out, req)
  {
    DeploymentStage(c, app, o, check);
    var out := ApplyDeployment(c, app, o, check).outcome.cluster;
    assert out.services - {ServiceKey(app)} == c.services - {ServiceKey(app)};
    forall k | k in out.deployments
      ensures KeyOf(out.deployments[k].meta) == k
    {
      if k != req {
        assert k in out.deployments - {req};
      }
    }
  }

  lemma ServiceStageFramed(c: Cluster, req: Key, app: MyApp, o: Oracle)
    requires WellKeyed(c) && KeyOf(app.meta) == req && req in c.apps
    requires c.apps[req].meta.name == app.meta.name
    requires ApplyService(c, app, o).Proceed?
    ensures var out := ApplyService(c, app, o).value;
      WellKeyed(out) && PassFramed(c, out, req)
  {
    ServiceStage(c, app, o);
    var out := ApplyService(c, app, o).value;
    assert ServiceKey(c.apps[req]) == ServiceKey(app);
    assert out.deployments - {req} == c.deployments - {req};
    assert out.services - {ServiceKey(app)} == c.services - {ServiceKey(app)};
  }

  lemma FinalStageFramed(c: Cluster, req: Key, app: MyApp, found: Deployment, o: Oracle)
    requires WellKeyed(c)
    ensures var out := ProjectFinalStatus(c, req, app, found, o).cluster;
      WellKeyed(out) && PassFramed(c, out, req)
  {
    FinalStatusStage(c, req, app, found, o);
    if ProjectFinalStatus(c, req, app, found, o).result == RequeueAfter(LongRequeue) {
      StatusWriteFramed(c, c.apps[req].(status := FinalStatus(found.status.readyReplicas, app.spec.replicas)),
                        o.updateFinalStatus, req);
    } else {
      PassFramedReflexive(c, req);
    }
  }

  /** Whatever the faults and the comparison, a pass keeps every object under
      its own key and stays within PassFramed; a pass for a MyApp that is gone
      changes nothing. */
  lemma PassFrame(c: Cluster, req: Key, o: Oracle, check: ReplicaCheck)
    requires WellKeyed(c)
    ensures var out := Pass(c, req, o, check).cluster;
      && WellKeyed(out)
      && PassFramed(c, out, req)
      && (req !in c.apps ==> out == c)
  {
    var out := Pass(c, req, o, check).cluster;
    PassFramedReflexive(c, req);
    if o.getApp.Some? || req !in c.apps {
      return;
    }
    var app := c.apps[req];
    var st := EnsureInitialStatus(c, req, app, o);
    if st.Finish? {
      InitialStatusStage(c, req, app, o);
      return;
    }
    var c1 := st.value;
    InitialStageFramed(c, req, app, o);
    var dep := ApplyDeployment(c1, app, o, check);
    if dep.Finish? {
      DeploymentStageFramed(c1, req, app, o, check);
      PassFramedTransitive(c, c1, out, req);
      return;
    }
    var sv := ApplyService(c1, app, o);
    if sv.Finish? {
      ServiceStage(c1, app, o);
      PassFramedTransitive(c, c1, out, req);
      return;
    }
    var c2 := sv.value;
    assert c1.apps[req].meta.name == app.meta.name;
    ServiceStageFramed(c1, req, app, o);
    PassFramedTransitive(c, c1, c2, req);
    FinalStageFramed(c2, req, app, dep.value, o);
    PassFramedTransitive(c, c2, out, req);
  }

  /** Lines 77-103: a pass writes the Deployment at most once, and a pass that
      writes it ends right there: long requeue, no Service write, and no status
      write beyond the initial one. The write is either the creation of the
      built Deployment or a change of the live one's replica count alone. */
  lemma AtMostOneDeploymentWrite(c: Cluster, req: Key, o: Oracle, check: ReplicaCheck)
    requires WellKeyed(c)
    ensures var out := Pass(c, req, o, check);
      out.cluster.deployments != c.deployments ==>
        && req in c.apps && req in out.cluster.deployments && req in out.cluster.apps
        && out.result == RequeueAfter(LongRequeue)
        && out.cluster.services == c.services
        && (|| out.cluster.apps[req].status == c.apps[req].status
            || out.cluster.apps[req].status == InitialStatus(c.apps[req].status))
        && (req !in c.deployments ==> out.cluster.deployments[req] == CreatedDeployment(c.apps[req]))
        && (req in c.deployments ==>
              var found := c.deployments[req];
              out.cluster.deployments[req] == found.(spec := found.spec.(replicas := Some(c.apps[req].spec.replicas)),
                                                     meta := found.meta.(resourceVersion := found.meta.resourceVersion + 1)))
  {
    var out := Pass(c, req, o, check);
    if o.getApp.Some? || req !in c.apps {
      return;
    }
    var app := c.apps[req];
    InitialStatusStage(c, req, app, o);
    var st := EnsureInitialStatus(c, req, app, o);
    if st.Finish? {
      return;
    }
    var c1 := st.value;
    assert WellKeyed(c1) && c1.deployments == c.deployments && c1.services == c.services;
    assert req in c1.apps && (c1.apps[req].status == app.status || c1.apps[req].status == InitialStatus(app.status));
    var dep := ApplyDeployment(c1, app, o, check);
    if dep.Proceed? {
      DeploymentStage(c1, app, o, check);
      ServiceStage(c1, app, o);
      var sv := ApplyService(c1, app, o);
      if sv.Proceed? {
        FinalStatusStage(sv.value, req, app, dep.value, o);
      }
      return;
    }
    assert out == dep.outcome;
    DeploymentWriteShape(c1, app, o, check);
  }

  // ---------------------------------------------------------------------------
  // Several passes, with no fault injected

  /** Lines 77-87: a pass over a MyApp without a Deployment creates the built
      Deployment (after marking a new MyApp Pending) and requeues; it creates
      no Service and writes no final status. */
  lemma CreatePassOnMissingDeployment(c: Cluster, req: Key, check: ReplicaCheck)
    requires WellKeyed(c) && req in c.apps && req !in c.deployments && ValidSpec(c.apps[req])
    ensures var app, out := c.apps[req], Pass(c, req, NoFaults, check);
      && req in out.cluster.apps
      && out.result == RequeueAfter(LongRequeue)
      && out.cluster.deployments == c.deployments[req := CreatedDeployment(app)]
      && out.cluster.services == c.services
      && out.cluster.apps[req].status == (if NeverReconciled(app.status) then InitialStatus(app.status) else app.status)
  {
    var app := c.apps[req];
    InitialStatusStage(c, req, app, NoFaults);
    var c1 := EnsureInitialStatus(c, req, app, NoFaults).value;
    assert WellKeyed(c1) && c1.deployments == c.deployments && c1.services == c.services;
    DeploymentCreated(c1, app, NoFaults, check);
  }

  /** Lines 77-87: a pass over a MyApp whose spec the platform rejects (a
      negative replica count or a port outside 1-65535), while it has no
      Deployment, creates no Deployment and no Service and never completes:
      the create fails (with Invalid when no other fault intervenes). */
  lemma InvalidSpecPassCreatesNothing(c: Cluster, req: Key, o: Oracle, check: ReplicaCheck)
    requires WellKeyed(c) && req in c.apps && req !in c.deployments && !ValidSpec(c.apps[req])
    ensures var out := Pass(c, req, o, check);
      && out.cluster.deployments == c.deployments
      && out.cluster.services == c.services
      && out.result != RequeueAfter(LongRequeue)
      && (o == NoFaults ==> out.result == Failed(Invalid))
  {
    if o.getApp.Some? {
      return;
    }
    var app := c.apps[req];
    InitialStatusStage(c, req, app, o);
    var st := EnsureInitialStatus(c, req, app, o);
    if st.Finish? {
      return;
    }
    var c1 := st.value;
    assert c1.deployments == c.deployments && c1.services == c.services;
    DeploymentStage(c1, app, o, check);
    DeploymentStageErrors(c1, app, o, check);
    if o.ownDeployment.None? && (o.getDeployment.None? || o.getDeployment == Some(NotFound)) {
      DeploymentCreated(c1, app, o, check);
      BuiltChildrenValid(app);
      assert !ValidDeployment(OwnedDeployment(app));
    }
  }

  /** With the value comparison, a pass over a Deployment whose replica count
      matches the spec writes nothing to it, creates the Service when it is
      missing, and projects the status from the Deployment's ready count. */
  lemma InSyncPassProjectsStatus(c: Cluster, req: Key)
    requires WellKeyed(c) && req in c.apps && req in c.deployments && ValidPort(c.apps[req].spec.port)
    requires c.deployments[req].spec.replicas == Some(c.apps[req].spec.replicas)
    ensures var app, out := c.apps[req], Pass(c, req, NoFaults, ValueCompare);
      && req in out.cluster.apps
      && out.result == RequeueAfter(LongRequeue)
      && out.cluster.deployments == c.deployments
      && out.cluster.services == (if ServiceKey(app) in c.services then c.services
                                  else c.services[ServiceKey(app) := CreatedService(app)])
      && out.cluster.apps[req].status == FinalStatus(c.deployments[req].status.readyReplicas, app.spec.replicas)
      && StatusOnlyChanged(app, out.cluster.apps[req])
  {
    var app := c.apps[req];
    InitialStatusStage(c, req, app, NoFaults);
    var c1 := EnsureInitialStatus(c, req, app, NoFaults).value;
    assert WellKeyed(c1) && c1.deployments == c.deployments && c1.services == c.services;
    assert StatusOnlyChanged(app, c1.apps[req]);
    DeploymentInSync(c1, app, NoFaults, ValueCompare);
    ServiceEnsured(c1, app, NoFaults);
    var c2 := ApplyService(c1, app, NoFaults).value;
    assert WellKeyed(c2) && req in c2.apps && c2.apps[req] == c1.apps[req];
    FinalStatusStage(c2, req, app, c.deployments[req], NoFaults);
  }

  /** Idempotence, as far as the code gives it: with the value
      comparison, once the Deployment matches, the Service exists and the
      status already reports the Deployment's ready count, a pass rewrites the
      same status, so the only change is the MyApp's resource version. */
  lemma SteadyStatePassOnlyAdvancesVersion(c: Cluster, req: Key)
    requires WellKeyed(c) && req in c.apps && req in c.deployments
    requires c.deployments[req].spec.replicas == Some(c.apps[req].spec.replicas)
    requires ServiceKey(c.apps[req]) in c.services
    requires c.apps[req].status == FinalStatus(c.deployments[req].status.readyReplicas, c.apps[req].spec.replicas)
    ensures var app, out := c.apps[req], Pass(c, req, NoFaults, ValueCompare);
      && out.result == RequeueAfter(LongRequeue)
      && out.cluster == c.(apps := c.apps[req := app.(meta := app.meta.(resourceVersion := app.meta.resourceVersion + 1))])
  {
    var app := c.apps[req];
    InitialStatusStage(c, req, app, NoFaults);
    DeploymentInSync(c, app, NoFaults, ValueCompare);
    ServiceEnsured(c, app, NoFaults);
    FinalStatusStage(c, req, app, c.deployments[req], NoFaults);
  }

  /** Marks the Deployment of `req` as having all its desired replicas ready:
      the platform's doing, between two passes. */
  function ReplicasBecomeReady(c: Cluster, req: Key): Cluster
    requires req in c.deployments && c.deployments[req].spec.replicas.Some?
  {
    var d := c.deployments[req];
    c.(deployments := c.deployments[req := d.(status := DeploymentStatus(d.spec.replicas.value))])
  }

  /** Convergence, with the value comparison: a new MyApp alone in the
      cluster is Running with every replica ready after two passes, given that
      the replicas become ready in between; the first pass creates the
      Deployment, the second the Service and the final status. */
  lemma ValueCompareConverges(app: MyApp)
    requires NeverReconciled(app.status) && ValidSpec(app)
    ensures var req := KeyOf(app.meta);
      var c0 := Cluster(map[req := app], map[], map[]);
      var out1 := Pass(c0, req, NoFaults, ValueCompare);
      && out1.result == RequeueAfter(LongRequeue)
      && out1.cluster.deployments == map[req := CreatedDeployment(app)]
      && out1.cluster.services == map[]
      && req in out1.cluster.apps
      && out1.cluster.apps[req].status == InitialStatus(app.status)
      && var out2 := Pass(ReplicasBecomeReady(out1.cluster, req), req, NoFaults, ValueCompare);
      && out2.result == RequeueAfter(LongRequeue)
      && out2.cluster.services == map[ServiceKey(app) := CreatedService(app)]
      && req in out2.cluster.apps
      && out2.cluster.apps[req].status.phase == PhaseRunning
      && out2.cluster.apps[req].status.readyReplicas == app.spec.replicas
  {
    var req := KeyOf(app.meta);
    var c0 := Cluster(map[req := app], map[], map[]);
    assert WellKeyed(c0);
    CreatePassOnMissingDeployment(c0, req, ValueCompare);
    var out1 := Pass(c0, req, NoFaults, ValueCompare);
    PassFrame(c0, req, NoFaults, ValueCompare);
    var c1 := ReplicasBecomeReady(out1.cluster, req);
    assert WellKeyed(c1) && c1.apps == out1.cluster.apps;
    assert c1.apps[req].spec == app.spec && c1.apps[req].meta.name == app.meta.name;
    InSyncPassProjectsStatus(c1, req);
  }

  // ---------------------------------------------------------------------------
  // The replica comparison as written (line 94)

  /** With the pointer comparison, a pass over an existing Deployment never
      gets past it: it writes no Service and no final status, whatever the
      faults. */
  lemma PointerCompareStopsAtDeployment(c: Cluster, req: Key, o: Oracle)
    requires WellKeyed(c) && req in c.deployments
    ensures var out := Pass(c, req, o, PointerCompare);
      && out.cluster.services == c.services
      && out.cluster.apps.Keys == c.apps.Keys
      && (req in c.apps ==>
            || out.cluster.apps[req].status == c.apps[req].status
            || out.cluster.apps[req].status == InitialStatus(c.apps[req].status))
  {
    if o.getApp.None? && req in c.apps {
      var app := c.apps[req];
      InitialStatusStage(c, req, app, o);
      var st := EnsureInitialStatus(c, req, app, o);
      if st.Proceed? {
        var c1 := st.value;
        assert c1.deployments == c.deployments && c1.services == c.services;
        DeploymentStage(c1, app, o, PointerCompare);
      }
    }
  }

  /** The same in-sync Deployment that the value comparison leaves alone
      (InSyncPassProjectsStatus) is rewritten under the pointer comparison, and
      the pass returns before the Service and the status. */
  lemma PointerCompareRewritesInSyncDeployment(c: Cluster, req: Key)
    requires WellKeyed(c) && req in c.apps && req in c.deployments && ValidDeployment(c.deployments[req])
    requires c.deployments[req].spec.replicas == Some(c.apps[req].spec.replicas)
    ensures var app, d, out := c.apps[req], c.deployments[req], Pass(c, req, NoFaults, PointerCompare);
      && out.result == RequeueAfter(LongRequeue)
      && out.cluster.deployments == c.deployments[req := d.(meta := d.meta.(resourceVersion := d.meta.resourceVersion + 1))]
      && out.cluster.services == c.services
  {
    var app := c.apps[req];
    InitialStatusStage(c, req, app, NoFaults);
    var c1 := EnsureInitialStatus(c, req, app, NoFaults).value;
    assert WellKeyed(c1) && c1.deployments == c.deployments && c1.services == c.services;
    DeploymentRescaled(c1, app, NoFaults, PointerCompare);
    var d := c.deployments[req];
    assert d.spec.(replicas := Some(app.spec.replicas)) == d.spec;
  }

  /** Runs one pass per oracle, in order, with nothing else happening between. */
  function Run(c: Cluster, req: Key, os: seq<Oracle>, check: ReplicaCheck): Cluster
    decreases |os|
  {
    if os == [] then c else Run(Pass(c, req, os[0], check).cluster, req, os[1..], check)
  }

  /** Whatever the faults and the comparison, no number of passes gives a
      MyApp whose spec the platform rejects a Deployment or a Service. */
  lemma {:induction false} InvalidSpecNeverDeploys(c: Cluster, req: Key, os: seq<Oracle>, check: ReplicaCheck)
    requires WellKeyed(c) && req in c.apps && req !in c.deployments && !ValidSpec(c.apps[req])
    ensures var r := Run(c, req, os, check);
      req !in r.deployments && r.services == c.services
    decreases |os|
  {
    if os != [] {
      var next := Pass(c, req, os[0], check).cluster;
      PassFrame(c, req, os[0], check);
      InvalidSpecPassCreatesNothing(c, req, os[0], check);
      assert next.apps[req].spec == c.apps[req].spec;
      InvalidSpecNeverDeploys(next, req, os[1..], check);
    }
  }

  /** With the pointer comparison, once the Deployment exists no number of
      passes, with any faults, ever creates the Service or reports the MyApp
      Running. */
  lemma {:induction false} PointerCompareNeverRuns(c: Cluster, req: Key, os: seq<Oracle>)
    requires WellKeyed(c) && req in c.apps && req in c.deployments
    requires c.apps[req].status.phase != PhaseRunning
    ensures var r := Run(c, req, os, PointerCompare);
      && r.services == c.services
      && req in r.apps
      && r.apps[req].status.phase != PhaseRunning
    decreases |os|
  {
    if os != [] {
      var next := Pass(c, req, os[0], PointerCompare).cluster;
      PassFrame(c, req, os[0], PointerCompare);
      PointerCompareStopsAtDeployment(c, req, os[0]);
      PointerCompareNeverRuns(next, req, os[1..]);
    }
  }
}
