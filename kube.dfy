/** The part of the Kubernetes core/v1 API the webhooks read and write, the
    cluster's ConfigMaps and Secrets as a lookup table, and the image
    registry as an oracle. */
module Kube {
  import opened Wrappers

  /** A reference to one key of a ConfigMap or Secret (ConfigMapKeySelector,
      SecretKeySelector). */
  datatype KeySelector = KeySelector(name: string, key: string)

  /** EnvVarSource: at most one of the two selectors is meant to be set, but
      the webhooks handle both. */
  datatype EnvVarSource = EnvVarSource(configMapKeyRef: Option<KeySelector>, secretKeyRef: Option<KeySelector>)

  datatype EnvVar = EnvVar(name: string, value: string, valueFrom: Option<EnvVarSource>)

  /** ConfigMapEnvSource / SecretEnvSource; a nil `Optional` is `false`. */
  datatype EnvSource = EnvSource(name: string, optional: bool)

  datatype EnvFromSource = EnvFromSource(configMapRef: Option<EnvSource>, secretRef: Option<EnvSource>)

  datatype VolumeMount = VolumeMount(name: string, mountPath: string)

  /** Resource requests and limits; quantities are kept as the strings they
      are parsed from. */
  datatype ResourceRequirements = ResourceRequirements(requests: map<string, string>, limits: map<string, string>)

  datatype Container = Container(
    name: string,
    image: string,
    imagePullPolicy: string,
    command: seq<string>,
    args: seq<string>,
    env: seq<EnvVar>,
    envFrom: seq<EnvFromSource>,
    volumeMounts: seq<VolumeMount>,
    resources: ResourceRequirements)

  datatype StorageMedium = DefaultMedium | Memory

  datatype VolumeSource = EmptyDir(medium: StorageMedium) | OtherSource(description: string)

  datatype Volume = Volume(name: string, source: VolumeSource)

  datatype LocalObjectReference = LocalObjectReference(name: string)

  /** The part of an image's configuration the webhooks use: Docker's
      ENTRYPOINT and CMD. */
  datatype ImageConfig = ImageConfig(entrypoint: seq<string>, cmd: seq<string>)

  datatype Kind = ConfigMapKind | SecretKind

  datatype ObjectKey = ObjectKey(kind: Kind, namespace: string, name: string)

  /** What a lookup of an object that exists gives: its data, or an API error
      other than "not found" (forbidden, server unavailable, ...). Secret data
      is held decoded, since Go's string([]byte) copies the bytes unchanged. */
  datatype Stored = Present(data: map<string, string>) | Unavailable(reason: string)

  /** The cluster as the webhooks see it; an absent key is an object that
      does not exist. */
  type Cluster = map<ObjectKey, Stored>

  /** A lookup error of the API server, or an error of the image registry
      client, held as the message of Go's wrapped error. */
  datatype Error =
    | NotFound(key: ObjectKey)
    | ApiFailure(key: ObjectKey, reason: string)
    | RegistryFailure(message: string)

  /** getDataFromConfigmap / getDataFromSecret. */
  function GetData(cluster: Cluster, kind: Kind, ns: string, name: string): Result<map<string, string>, Error> {
    var key := ObjectKey(kind, ns, name);
    if key !in cluster then Err(NotFound(key))
    else match cluster[key]
      case Present(data) => Ok(data)
      case Unavailable(reason) => Err(ApiFailure(key, reason))
  }

  /** The fields of a PodSpec the image registry consults. */
  datatype PodIdentity = PodIdentity(serviceAccountName: string, imagePullSecrets: seq<LocalObjectReference>)

  /** ImageRegistry.GetImageConfig as the mutators see it: from the
      namespace, the container and the pod, an image configuration or an
      error. */
  type ImageRegistry = (string, Container, PodIdentity) -> Result<ImageConfig, Error>

  /** The value of a PodSpec's mutable lists. */
  datatype PodView = PodView(initContainers: seq<Container>, containers: seq<Container>, volumes: seq<Volume>)

  /** The spec of a Pod under admission. The container lists are slices the
      webhooks write element by element, so they are arrays; the volume list
      is only ever replaced. */
  class Pod {
    const serviceAccountName: string
    const imagePullSecrets: seq<LocalObjectReference>
    var initContainers: array<Container>
    var containers: array<Container>
    var volumes: seq<Volume>

    /** The two container lists are separate slices. */
    ghost predicate Valid()
      reads this
    {
      initContainers != containers
    }

    function Identity(): PodIdentity {
      PodIdentity(serviceAccountName, imagePullSecrets)
    }

    function View(): PodView
      reads this, initContainers, containers
    {
      PodView(initContainers[..], containers[..], volumes)
    }

    constructor (serviceAccountName: string, imagePullSecrets: seq<LocalObjectReference>, view: PodView)
      ensures Valid() && fresh(initContainers) && fresh(containers)
      ensures Identity() == PodIdentity(serviceAccountName, imagePullSecrets)
      ensures View() == view
    {
      this.serviceAccountName := serviceAccountName;
      this.imagePullSecrets := imagePullSecrets;
      initContainers := new Container[|view.initContainers|](i requires 0 <= i < |view.initContainers| => view.initContainers[i]);
      containers := new Container[|view.containers|](i requires 0 <= i < |view.containers| => view.containers[i]);
      volumes := view.volumes;
    }
  }
}
