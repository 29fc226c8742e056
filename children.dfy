/** The two child objects a MyApp owns, in the shape the controller builds them
    (a Deployment and a Service), and the pure builders that derive them from a
    MyApp (myapp_controller.go, deploymentForMyApp and serviceForMyApp). */
module Children {
  import opened MyAppTypes

  type Labels = map<string, string>

  datatype ContainerPort = ContainerPort(name: string, containerPort: int32)
  datatype Container = Container(name: string, image: string, ports: seq<ContainerPort>)
  datatype PodTemplateSpec = PodTemplateSpec(labels: Labels, containers: seq<Container>)

  /** `replicas` is a pointer in the platform's API, so it may be absent. */
  datatype DeploymentSpec = DeploymentSpec(replicas: Option<int32>, selector: Labels, template: PodTemplateSpec)
  datatype DeploymentStatus = DeploymentStatus(readyReplicas: int32)
  datatype Deployment = Deployment(meta: ObjectMeta, spec: DeploymentSpec, status: DeploymentStatus)

  datatype Protocol = TCP | UDP | SCTP
  datatype IntOrString = IntValue(intValue: int32) | StringValue(stringValue: string)
  datatype ServicePort = ServicePort(port: int32, targetPort: IntOrString, protocol: Protocol)
  datatype ServiceType = ClusterIP | NodePort | LoadBalancer | ExternalName
  datatype ServiceSpec = ServiceSpec(selector: Labels, ports: seq<ServicePort>, serviceType: ServiceType)
  datatype Service = Service(meta: ObjectMeta, spec: ServiceSpec)

  /** A port number the platform admits. */
  predicate ValidPort(p: int32)
  {
    1 <= p <= 65535
  }

  /** The platform's validation of the Deployment fields the controller sets:
      a replica count that is not negative and admissible container ports. */
  predicate ValidDeployment(d: Deployment)
  {
    && (d.spec.replicas.Some? ==> 0 <= d.spec.replicas.value)
    && (forall i, j :: 0 <= i < |d.spec.template.containers| && 0 <= j < |d.spec.template.containers[i].ports| ==>
          ValidPort(d.spec.template.containers[i].ports[j].containerPort))
  }

  /** The platform's validation of the Service fields the controller sets:
      admissible ports and numeric target ports. */
  predicate ValidService(s: Service)
  {
    forall i :: 0 <= i < |s.spec.ports| ==>
      && ValidPort(s.spec.ports[i].port)
      && (s.spec.ports[i].targetPort.IntValue? ==> ValidPort(s.spec.ports[i].targetPort.intValue))
  }

  /** A MyApp spec whose children the platform admits. */
  predicate ValidSpec(m: MyApp)
  {
    0 <= m.spec.replicas && ValidPort(m.spec.port)
  }

  const ServiceSuffix := "-service"
  const ServicePortNumber: int32 := 80

  /** The label set `{app: <name>}` shared by the Deployment, its pods and the Service. */
  function AppLabels(m: MyApp): Labels
  {
    map["app" := m.meta.name]
  }

  /** The Deployment the controller wants for `m`. */
  function DeploymentForMyApp(m: MyApp): (d: Deployment)
    ensures d.meta.name == m.meta.name && d.meta.namespace == m.meta.namespace
    ensures d.meta.labels == d.spec.selector == d.spec.template.labels == map["app" := m.meta.name]
    ensures d.meta.ownerReferences == []
    ensures d.spec.replicas == Some(m.spec.replicas)
    ensures |d.spec.template.containers| == 1
    ensures d.spec.template.containers[0].name == "app"
    ensures d.spec.template.containers[0].image == m.spec.image
    ensures d.spec.template.containers[0].ports == [ContainerPort("http", m.spec.port)]
  {
    var labels := AppLabels(m);
    Deployment(
      ObjectMeta(m.meta.name, m.meta.namespace, 0, labels, []),
      DeploymentSpec(
        Some(m.spec.replicas),
        labels,
        PodTemplateSpec(labels, [Container("app", m.spec.image, [ContainerPort("http", m.spec.port)])])),
      DeploymentStatus(0))
  }

  /** The Service the controller wants for `m`. */
  function ServiceForMyApp(m: MyApp): (s: Service)
    ensures s.meta.name == m.meta.name + "-service" && s.meta.namespace == m.meta.namespace
    ensures s.meta.labels == s.spec.selector == map["app" := m.meta.name]
    ensures s.meta.ownerReferences == []
    ensures s.spec.ports == [ServicePort(80, IntValue(m.spec.port), TCP)]
    ensures s.spec.serviceType == ClusterIP
  {
    var labels := AppLabels(m);
    Service(
      ObjectMeta(m.meta.name + ServiceSuffix, m.meta.namespace, 0, labels, []),
      ServiceSpec(labels, [ServicePort(ServicePortNumber, IntValue(m.spec.port), TCP)], ClusterIP))
  }

  /** Both builders read only the name, the namespace and the spec: two MyApps
      that agree on those get identical children, whatever their status,
      labels, owners or resource version. */
  lemma BuildersIgnoreStatus(m1: MyApp, m2: MyApp)
    requires m1.meta.name == m2.meta.name && m1.meta.namespace == m2.meta.namespace
    requires m1.spec == m2.spec
    ensures DeploymentForMyApp(m1) == DeploymentForMyApp(m2)
    ensures ServiceForMyApp(m1) == ServiceForMyApp(m2)
  {
  }

  /** The platform admits the built Deployment exactly when the spec's replica
      count and port are admissible, and the built Service exactly when the
      port is. */
  lemma BuiltChildrenValid(m: MyApp)
    ensures ValidDeployment(DeploymentForMyApp(m)) <==> ValidSpec(m)
    ensures ValidService(ServiceForMyApp(m)) <==> ValidPort(m.spec.port)
  {
    var d, s := DeploymentForMyApp(m), ServiceForMyApp(m);
    assert d.spec.template.containers[0].ports[0].containerPort == m.spec.port;
    assert s.spec.ports[0].targetPort.intValue == m.spec.port;
  }

  /** The Service routes to the Deployment's pods: its selector is the pods'
      label set, and its only port forwards to the pod container's "http" port. */
  lemma ServiceSelectsDeploymentPods(m: MyApp)
    ensures var d, s := DeploymentForMyApp(m), ServiceForMyApp(m);
      && s.spec.selector == d.spec.template.labels
      && s.meta.namespace == d.meta.namespace
      && s.meta.name != d.meta.name
      && |s.spec.ports| == 1
      && s.spec.ports[0].targetPort == IntValue(d.spec.template.containers[0].ports[0].containerPort)
  {
  }
}
