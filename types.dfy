/** The MyApp custom resource: its declared spec, its observed status and the
    object that carries both (myapp-controller/pkg/apis/example/v1/types.go). */
module MyAppTypes {

  datatype Option<+T> = None | Some(value: T)

  /** Go's int32. Every integer field of the resource lives in this range. */
  newtype int32 = x: int | -0x8000_0000 <= x < 0x8000_0000

  /** A back-link from a child object to the object that owns it. */
  datatype OwnerReference = OwnerReference(kind: string, name: string, controller: bool)

  /** The parts of the platform's object metadata that the controller reads or
      writes. The platform's resource version is an opaque string; here it is a
      counter that every successful write advances. */
  datatype ObjectMeta = ObjectMeta(
    name: string,
    namespace: string,
    resourceVersion: nat,
    labels: map<string, string>,
    ownerReferences: seq<OwnerReference>)

  /** The desired state: exactly an image and two int32 fields. */
  datatype MyAppSpec = MyAppSpec(image: string, replicas: int32, port: int32)

  /** The observed state, written only by the controller. */
  datatype MyAppStatus = MyAppStatus(phase: string, message: string, readyReplicas: int32)

  /** Metadata plus one spec and one status. Status is a separate subresource:
      writes to it leave the spec and the metadata alone (see Platform.UpdateStatusIn). */
  datatype MyApp = MyApp(meta: ObjectMeta, spec: MyAppSpec, status: MyAppStatus)

  /** A list of MyApp objects. */
  datatype MyAppList = MyAppList(items: seq<MyApp>)

  /** The controller reads an empty phase as "never reconciled". */
  predicate NeverReconciled(s: MyAppStatus)
  {
    s.phase == ""
  }
}
