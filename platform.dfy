/** The orchestration platform as the controller sees it: an object store keyed
    by (namespace, name), holding MyApp, Deployment and Service objects, each with
    a resource version. Reads and writes may fail; the failure an individual call
    meets is supplied from outside as a `Fault`, so that every error path of the
    controller can be reached. */
module Platform {
  import opened MyAppTypes
  import opened Children

  datatype Key = Key(namespace: string, name: string)

  function KeyOf(meta: ObjectMeta): Key
  {
    Key(meta.namespace, meta.name)
  }

  /** The platform's error kinds. `Invalid` is a validation rejection; `Other`
      stands for every transient or unexpected failure (network, server,
      owner-reference rejection). */
  datatype Error = NotFound | AlreadyExists | Conflict | Invalid | Other(reason: string)

  datatype Result<+T> = Ok(value: T) | Err(error: Error)

  /** A failure forced onto one call (a network error, a concurrent writer, a
      concurrent deletion); `None` lets the store answer by its own state. */
  type Fault = Option<Error>

  datatype Cluster = Cluster(
    apps: map<Key, MyApp>,
    deployments: map<Key, Deployment>,
    services: map<Key, Service>)

  /** Every object is stored under its own namespace and name. */
  ghost predicate WellKeyed(c: Cluster)
  {
    && (forall k :: k in c.apps ==> KeyOf(c.apps[k].meta) == k)
    && (forall k :: k in c.deployments ==> KeyOf(c.deployments[k].meta) == k)
    && (forall k :: k in c.services ==> KeyOf(c.services[k].meta) == k)
  }

  /** What a Get returns. */
  function Lookup<T>(m: map<Key, T>, key: Key, fault: Fault): Result<T>
  {
    if fault.Some? then Err(fault.value)
    else if key in m then Ok(m[key])
    else Err(NotFound)
  }

  function ErrorOf<T>(r: Result<T>): Option<Error>
  {
    if r.Err? then Some(r.error) else None
  }

  /** The cluster after a write that produced `r`: unchanged when it failed. */
  function After(c: Cluster, r: Result<Cluster>): Cluster
  {
    if r.Ok? then r.value else c
  }

  /** An update of the status subresource of `obj`. It succeeds only when the
      stored object carries the same resource version as `obj`; it then copies
      `obj`'s status and nothing else, and advances the version. */
  function UpdateStatusIn(c: Cluster, obj: MyApp, fault: Fault): (r: Result<Cluster>)
    ensures r.Ok? <==>
      && fault.None?
      && KeyOf(obj.meta) in c.apps
      && c.apps[KeyOf(obj.meta)].meta.resourceVersion == obj.meta.resourceVersion
    ensures fault.None? && KeyOf(obj.meta) !in c.apps ==> r == Err(NotFound)
    ensures fault.None? && KeyOf(obj.meta) in c.apps && r.Err? ==> r == Err(Conflict)
    ensures r.Ok? ==>
      && r.value.deployments == c.deployments
      && r.value.services == c.services
      && r.value.apps.Keys == c.apps.Keys
      && (forall k :: k in c.apps && k != KeyOf(obj.meta) ==> r.value.apps[k] == c.apps[k])
    ensures r.Ok? ==>
      var was, now := c.apps[KeyOf(obj.meta)], r.value.apps[KeyOf(obj.meta)];
      && now.spec == was.spec
      && now.status == obj.status
      && now.meta == was.meta.(resourceVersion := was.meta.resourceVersion + 1)
    ensures WellKeyed(c) && r.Ok? ==> WellKeyed(r.value)
  {
    var key := KeyOf(obj.meta);
    if fault.Some? then Err(fault.value)
    else if key !in c.apps then Err(NotFound)
    else
      var stored := c.apps[key];
      if stored.meta.resourceVersion != obj.meta.resourceVersion then Err(Conflict)
      else
        var updated := stored.(status := obj.status,
                               meta := stored.meta.(resourceVersion := stored.meta.resourceVersion + 1));
        Ok(c.(apps := c.apps[key := updated]))
  }

  /** Creation of a Deployment: validated first, then refused when one with
      the same key exists. */
  function CreateDeploymentIn(c: Cluster, d: Deployment, fault: Fault): (r: Result<Cluster>)
    ensures r.Ok? <==> fault.None? && ValidDeployment(d) && KeyOf(d.meta) !in c.deployments
    ensures fault.None? && !ValidDeployment(d) ==> r == Err(Invalid)
    ensures fault.None? && ValidDeployment(d) && r.Err? ==> r == Err(AlreadyExists)
    ensures r.Ok? ==>
      && r.value.apps == c.apps
      && r.value.services == c.services
      && r.value.deployments == c.deployments[KeyOf(d.meta) := d.(meta := d.meta.(resourceVersion := 1))]
    ensures WellKeyed(c) && r.Ok? ==> WellKeyed(r.value)
  {
    var key := KeyOf(d.meta);
    if fault.Some? then Err(fault.value)
    else if !ValidDeployment(d) then Err(Invalid)
    else if key in c.deployments then Err(AlreadyExists)
    else Ok(c.(deployments := c.deployments[key := d.(meta := d.meta.(resourceVersion := 1))]))
  }

  /** A full update of a Deployment. Like a status update it needs a matching
      resource version, and the new object must pass validation; it replaces
      metadata and spec, keeps the stored status (a subresource of its own) and
      advances the version. */
  function UpdateDeploymentIn(c: Cluster, d: Deployment, fault: Fault): (r: Result<Cluster>)
    ensures r.Ok? <==>
      && fault.None?
      && KeyOf(d.meta) in c.deployments
      && c.deployments[KeyOf(d.meta)].meta.resourceVersion == d.meta.resourceVersion
      && ValidDeployment(d)
    ensures fault.None? && KeyOf(d.meta) !in c.deployments ==> r == Err(NotFound)
    ensures fault.None? && KeyOf(d.meta) in c.deployments ==>
      && (c.deployments[KeyOf(d.meta)].meta.resourceVersion != d.meta.resourceVersion ==> r == Err(Conflict))
      && (c.deployments[KeyOf(d.meta)].meta.resourceVersion == d.meta.resourceVersion && !ValidDeployment(d) ==> r == Err(Invalid))
    ensures r.Ok? ==>
      var was := c.deployments[KeyOf(d.meta)];
      && r.value.apps == c.apps
      && r.value.services == c.services
      && r.value.deployments == c.deployments[KeyOf(d.meta) :=
           d.(meta := d.meta.(resourceVersion := was.meta.resourceVersion + 1), status := was.status)]
    ensures WellKeyed(c) && r.Ok? ==> WellKeyed(r.value)
  {
    var key := KeyOf(d.meta);
    if fault.Some? then Err(fault.value)
    else if key !in c.deployments then Err(NotFound)
    else
      var stored := c.deployments[key];
      if stored.meta.resourceVersion != d.meta.resourceVersion then Err(Conflict)
      else if !ValidDeployment(d) then Err(Invalid)
      else Ok(c.(deployments := c.deployments[key := d.(meta := d.meta.(resourceVersion := stored.meta.resourceVersion + 1),
                                                        status := stored.status)]))
  }

  /** Creation of a Service: validated first, then refused when one with the
      same key exists. */
  function CreateServiceIn(c: Cluster, s: Service, fault: Fault): (r: Result<Cluster>)
    ensures r.Ok? <==> fault.None? && ValidService(s) && KeyOf(s.meta) !in c.services
    ensures fault.None? && !ValidService(s) ==> r == Err(Invalid)
    ensures fault.None? && ValidService(s) && r.Err? ==> r == Err(AlreadyExists)
    ensures r.Ok? ==>
      && r.value.apps == c.apps
      && r.value.deployments == c.deployments
      && r.value.services == c.services[KeyOf(s.meta) := s.(meta := s.meta.(resourceVersion := 1))]
    ensures WellKeyed(c) && r.Ok? ==> WellKeyed(r.value)
  {
    var key := KeyOf(s.meta);
    if fault.Some? then Err(fault.value)
    else if !ValidService(s) then Err(Invalid)
    else if key in c.services then Err(AlreadyExists)
    else Ok(c.(services := c.services[key := s.(meta := s.meta.(resourceVersion := 1))]))
  }

  /** The platform client: the three object collections, updated in place by
      the write calls. */
  class Store {
    var apps: map<Key, MyApp>
    var deployments: map<Key, Deployment>
    var services: map<Key, Service>

    function Snapshot(): Cluster
      reads this
    {
      Cluster(apps, deployments, services)
    }

    constructor (c: Cluster)
      ensures Snapshot() == c
    {
      apps, deployments, services := c.apps, c.deployments, c.services;
    }

    method GetApp(key: Key, fault: Fault) returns (r: Result<MyApp>)
      ensures r == Lookup(apps, key, fault)
    {
      if fault.Some? {
        return Err(fault.value);
      }
      if key !in apps {
        return Err(NotFound);
      }
      return Ok(apps[key]);
    }

    method GetDeployment(key: Key, fault: Fault) returns (r: Result<Deployment>)
      ensures r == Lookup(deployments, key, fault)
    {
      if fault.Some? {
        return Err(fault.value);
      }
      if key !in deployments {
        return Err(NotFound);
      }
      return Ok(deployments[key]);
    }

    method GetService(key: Key, fault: Fault) returns (r: Result<Service>)
      ensures r == Lookup(services, key, fault)
    {
      if fault.Some? {
        return Err(fault.value);
      }
      if key !in services {
        return Err(NotFound);
      }
      return Ok(services[key]);
    }

    method UpdateAppStatus(obj: MyApp, fault: Fault) returns (err: Option<Error>)
      modifies this
      ensures var r := UpdateStatusIn(old(Snapshot()), obj, fault);
        err == ErrorOf(r) && Snapshot() == After(old(Snapshot()), r)
    {
      var r := UpdateStatusIn(Snapshot(), obj, fault);
      if r.Err? {
        return Some(r.error);
      }
      apps := r.value.apps;
      return None;
    }

    method CreateDeployment(d: Deployment, fault: Fault) returns (err: Option<Error>)
      modifies this
      ensures var r := CreateDeploymentIn(old(Snapshot()), d, fault);
        err == ErrorOf(r) && Snapshot() == After(old(Snapshot()), r)
    {
      var r := CreateDeploymentIn(Snapshot(), d, fault);
      if r.Err? {
        return Some(r.error);
      }
      deployments := r.value.deployments;
      return None;
    }

    method UpdateDeployment(d: Deployment, fault: Fault) returns (err: Option<Error>)
      modifies this
      ensures var r := UpdateDeploymentIn(old(Snapshot()), d, fault);
        err == ErrorOf(r) && Snapshot() == After(old(Snapshot()), r)
    {
      var r := UpdateDeploymentIn(Snapshot(), d, fault);
      if r.Err? {
        return Some(r.error);
      }
      deployments := r.value.deployments;
      return None;
    }

    method CreateService(s: Service, fault: Fault) returns (err: Option<Error>)
      modifies this
      ensures var r := CreateServiceIn(old(Snapshot()), s, fault);
        err == ErrorOf(r) && Snapshot() == After(old(Snapshot()), r)
    {
      var r := CreateServiceIn(Snapshot(), s, fault);
      if r.Err? {
        return Some(r.error);
      }
      services := r.value.services;
      return None;
    }
  }
}
