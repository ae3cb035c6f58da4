/** The older, AWS-only webhook (aws-secrets-webhook): it recognises AWS
    Secrets Manager and AWS SSM parameter references only, rewrites each
    eligible container to start a fixed secrets-init path with no provider
    flag and a fixed mount, and adds the init container and the volume
    whenever anything was rewritten, dry run or not. */
module AwsSecretsWebhook {
  import opened Wrappers
  import opened Strings
  import opened SecretRefs
  import opened Kube
  import opened Env
  import opened Mutation
  import SecretsInitWebhook

  /** Defaults for the image and the volume holding the binary. */
  const SecretsInitImage := "doitintl/secrets-init:latest"
  const BinVolumeName := "secrets-init-bin"
  const BinVolumePath := "/secrets-init/bin/"

  /** What a rewritten container runs and mounts, whatever the configured
      volume name and path are. */
  const HelperCommand := "/secrets-init/secrets-init"
  const HelperMountName := "secrets-init"
  const HelperMountPath := "/secrets-init/"

  /** Resource limits of the init container, kept as the strings the source
      parses; it declares no requests. */
  const LimitsCpu := "50m"
  const LimitsMemory := "64Mi"

  const InitContainerName := "copy-secrets-init"

  /** The webhook's configuration: the cluster it reads ConfigMaps and
      Secrets from, the registry it asks for image configs, and the init
      container's image and volume. */
  datatype Webhook = Webhook(
    cluster: Cluster,
    registry: ImageRegistry,
    image: string,
    pullPolicy: string,
    volumeName: string,
    volumePath: string)

  /** hasSecretsPrefix: an AWS Secrets Manager or AWS SSM parameter
      reference. */
  function HasSecretsPrefix(value: string): (r: bool)
    ensures r <==> IsAwsSecret(value) || IsSsmParameter(value)
  {
    HasPrefixIff(value, AwsSecretsManagerPrefix);
    HasPrefixIff(value, AwsSsmPrefix);
    ContainsIff(value, SsmParameterMarker);
    HasPrefix(value, AwsSecretsManagerPrefix) ||
    (HasPrefix(value, AwsSsmPrefix) && Contains(value, SsmParameterMarker))
  }

  /** GCP Secret Manager references are not recognised; apart from them the
      two variants accept the same values. */
  lemma NarrowerThanCurrentVariant(suffix: string, v: string)
    ensures !HasSecretsPrefix(GcpSecretManagerPrefix + suffix)
    ensures SecretsInitWebhook.HasSecretsPrefix(GcpSecretManagerPrefix + suffix)
    ensures HasSecretsPrefix(v) ==> SecretsInitWebhook.HasSecretsPrefix(v)
    ensures !IsGcpSecret(v) ==> (HasSecretsPrefix(v) <==> SecretsInitWebhook.HasSecretsPrefix(v))
  {
    var g := GcpSecretManagerPrefix + suffix;
    assert IsGcpSecret(g);
    assert !HasPrefix(g, AwsSecretsManagerPrefix) by {
      if |AwsSecretsManagerPrefix| <= |g| {
        assert g[..|AwsSecretsManagerPrefix|][0] != AwsSecretsManagerPrefix[0];
      }
    }
    assert !HasPrefix(g, AwsSsmPrefix) by {
      if |AwsSsmPrefix| <= |g| {
        assert g[..|AwsSsmPrefix|][0] != AwsSsmPrefix[0];
      }
    }
  }

  /** The rewritten container: it starts the fixed helper path with the
      original command line as its args and mounts the fixed helper mount
      after its own mounts. */
  function Rewrite(c: Container, args: seq<string>): Container {
    c.(command := [HelperCommand],
       args := args,
       volumeMounts := c.volumeMounts + [VolumeMount(HelperMountName, HelperMountPath)])
  }

  function PlanFor(wh: Webhook, cs: seq<Container>, pod: PodIdentity, ns: string): seq<Step> {
    Plan(HasSecretsPrefix, wh.cluster, wh.registry, Rewrite, cs, pod, ns)
  }

  /** A rewritten container keeps its name, image, environment and
      resources; its command is the fixed helper; its args are exactly the
      command line Kubernetes would have run; the fixed mount is appended
      whatever volume name and path the webhook was configured with. */
  lemma RewrittenContainer(wh: Webhook, c: Container, pod: PodIdentity, ns: string)
    requires StepFor(HasSecretsPrefix, wh.cluster, wh.registry, Rewrite, c, pod, ns).Rewritten?
    ensures var r := StepFor(HasSecretsPrefix, wh.cluster, wh.registry, Rewrite, c, pod, ns).container;
            var image := if |c.command| > 0 then ImageConfig([], []) else wh.registry(ns, c, pod).value;
            r.name == c.name && r.image == c.image && r.imagePullPolicy == c.imagePullPolicy &&
            r.env == c.env && r.envFrom == c.envFrom && r.resources == c.resources &&
            r.command == [HelperCommand] &&
            r.args == KubernetesCommandLine(c.command, c.args, image.entrypoint, image.cmd) &&
            r.volumeMounts == c.volumeMounts + [VolumeMount(HelperMountName, HelperMountPath)]
  {
  }

  /** The rewriting keeps every container's environment and gives it a
      command. */
  lemma RewriteKeepsReferences()
    ensures PreservesReferences(Rewrite)
  {
  }

  /** getVolumes: one memory-backed EmptyDir named `volumeName`. */
  function GetVolumes(existingVolumes: seq<Volume>, volumeName: string): seq<Volume> {
    [Volume(volumeName, EmptyDir(Memory))]
  }

  /** The volumes already in the pod play no part: the same single volume
      is returned for any of them, even one that already holds it. */
  lemma GetVolumesIgnoresExisting(existing: seq<Volume>, volumeName: string)
    ensures GetVolumes(existing, volumeName) == GetVolumes([], volumeName)
    ensures |GetVolumes(existing, volumeName)| == 1
    ensures GetVolumes(existing, volumeName)[0].name == volumeName
    ensures GetVolumes(existing, volumeName)[0].source == EmptyDir(Memory)
  {
  }

  /** The init container: a shell copies the secrets-init binary into
      `volumePath`, where the volume is mounted. */
  function CopySecretsInit(image: string, pullPolicy: string, volumeName: string, volumePath: string): Container {
    Container(
      InitContainerName, image, pullPolicy,
      ["sh", "-c", "cp /usr/local/bin/secrets-init " + volumePath],
      [], [], [],
      [VolumeMount(volumeName, volumePath)],
      ResourceRequirements(map[], map["cpu" := LimitsCpu, "memory" := LimitsMemory]))
  }

  /** getInitContainers: the init container when either list was rewritten,
      nothing otherwise. */
  method GetInitContainers(initContainersMutated: bool, containersMutated: bool,
                           image: string, pullPolicy: string, volumeName: string, volumePath: string)
    returns (containers: seq<Container>)
    ensures |containers| == if initContainersMutated || containersMutated then 1 else 0
    ensures forall k :: 0 <= k < |containers| ==> containers[k] == CopySecretsInit(image, pullPolicy, volumeName, volumePath)
  {
    containers := [];
    if initContainersMutated || containersMutated {
      containers := containers + [CopySecretsInit(image, pullPolicy, volumeName, volumePath)];
    }
  }

  /** The init container copies the binary into the volume the pod gains,
      and is never rewritten itself. The rewritten containers, however,
      mount the fixed name `secrets-init`: unless the configured volume
      name is that one (the default is `secrets-init-bin`), no volume the
      mutation adds carries the name their mount refers to. */
  lemma InjectedPiecesAgree(wh: Webhook, c: Container, args: seq<string>, pod: PodIdentity, ns: string,
                            image: string, pullPolicy: string, volumeName: string, volumePath: string)
    ensures var init := CopySecretsInit(image, pullPolicy, volumeName, volumePath);
            var volumes := GetVolumes([], volumeName);
            var r := Rewrite(c, args);
            init.volumeMounts == [VolumeMount(volumes[0].name, volumePath)] &&
            StepFor(HasSecretsPrefix, wh.cluster, wh.registry, Rewrite, init, pod, ns) == Unchanged &&
            (r.volumeMounts[|r.volumeMounts| - 1].name == volumes[0].name <==> volumeName == HelperMountName) &&
            (volumeName == BinVolumeName ==> r.volumeMounts[|r.volumeMounts| - 1].name != volumes[0].name)
  {
  }

  /** mutatePod as a function of the pod's lists: init containers first,
      then containers; an error stops it with the rewrites done so far;
      when anything was rewritten the init containers are put in front and
      the volumes appended. The dry-run flag plays no part. */
  function MutatePodSpec(wh: Webhook, view: PodView, pod: PodIdentity, ns: string,
                         image: string, pullPolicy: string, volumeName: string, volumePath: string)
    : (PodView, Option<Error>)
  {
    var init := Apply(view.initContainers, PlanFor(wh, view.initContainers, pod, ns));
    if init.err.Some? then (view.(initContainers := init.containers), init.err)
    else
      var main := Apply(view.containers, PlanFor(wh, view.containers, pod, ns));
      if main.err.Some? then (PodView(init.containers, main.containers, view.volumes), main.err)
      else if init.mutated || main.mutated then
        (PodView([CopySecretsInit(image, pullPolicy, volumeName, volumePath)] + init.containers,
                 main.containers,
                 view.volumes + GetVolumes(view.volumes, volumeName)),
         None)
      else (PodView(init.containers, main.containers, view.volumes), None)
  }

  /** Some container of either list is rewritten and no lookup fails. */
  ghost predicate Injects(wh: Webhook, view: PodView, pod: PodIdentity, ns: string) {
    var init := Apply(view.initContainers, PlanFor(wh, view.initContainers, pod, ns));
    var main := Apply(view.containers, PlanFor(wh, view.containers, pod, ns));
    init.err.None? && main.err.None? && (init.mutated || main.mutated)
  }

  /** The init container and the volume are added once, exactly when
      something was rewritten and nothing failed; otherwise neither list
      gains an element. The containers keep their number and order. */
  lemma InjectedAtMostOnce(wh: Webhook, view: PodView, pod: PodIdentity, ns: string,
                           image: string, pullPolicy: string, volumeName: string, volumePath: string)
    ensures var (v, err) := MutatePodSpec(wh, view, pod, ns, image, pullPolicy, volumeName, volumePath);
            var init := Apply(view.initContainers, PlanFor(wh, view.initContainers, pod, ns));
            |v.containers| == |view.containers| &&
            (if Injects(wh, view, pod, ns) then
               err.None? &&
               v.initContainers == [CopySecretsInit(image, pullPolicy, volumeName, volumePath)] + init.containers &&
               v.volumes == view.volumes + [Volume(volumeName, EmptyDir(Memory))]
             else
               v.initContainers == init.containers && v.volumes == view.volumes)
  {
  }

  /** A pod none of whose containers refers to a secret and none of whose
      lookups fails comes back unchanged. */
  lemma NoSecretsNoChange(wh: Webhook, view: PodView, pod: PodIdentity, ns: string,
                          image: string, pullPolicy: string, volumeName: string, volumePath: string)
    requires forall i :: 0 <= i < |view.initContainers| ==> PlanFor(wh, view.initContainers, pod, ns)[i] == Unchanged
    requires forall i :: 0 <= i < |view.containers| ==> PlanFor(wh, view.containers, pod, ns)[i] == Unchanged
    ensures MutatePodSpec(wh, view, pod, ns, image, pullPolicy, volumeName, volumePath) == (view, None)
  {
    NothingEligibleChangesNothing(view.initContainers, PlanFor(wh, view.initContainers, pod, ns));
    NothingEligibleChangesNothing(view.containers, PlanFor(wh, view.containers, pod, ns));
  }

  /** Not idempotent either: a second request over the first one's output
      rewrites the containers again and adds a second init container and a
      second volume of the same name. */
  lemma MutatingTwiceInjectsTwice(wh: Webhook, view: PodView, pod: PodIdentity, ns: string,
                                  image: string, pullPolicy: string, volumeName: string, volumePath: string)
    requires Injects(wh, view, pod, ns)
    ensures var (once, _) := MutatePodSpec(wh, view, pod, ns, image, pullPolicy, volumeName, volumePath);
            var (twice, err) := MutatePodSpec(wh, once, pod, ns, image, pullPolicy, volumeName, volumePath);
            err.None? &&
            |twice.initContainers| == |view.initContainers| + 2 &&
            twice.volumes == view.volumes + [Volume(volumeName, EmptyDir(Memory))] + [Volume(volumeName, EmptyDir(Memory))]
  {
    var initContainer := CopySecretsInit(image, pullPolicy, volumeName, volumePath);
    RewriteKeepsReferences();
    InjectedPiecesAgree(wh, initContainer, [], pod, ns, image, pullPolicy, volumeName, volumePath);
    ApplyAgainBehind(HasSecretsPrefix, wh.cluster, wh.registry, Rewrite, initContainer, view.initContainers, pod, ns);
    ApplyAgain(HasSecretsPrefix, wh.cluster, wh.registry, Rewrite, view.containers, pod, ns);
  }

  /** A GCP reference is left alone here but rewritten by the current
      variant. */
  lemma GcpReferenceContrast(cluster: Cluster, registry: ImageRegistry, pod: PodIdentity, ns: string)
    ensures var c := SecretsInitWebhook.TestContainer(["echo"], [], GcpSecretManagerPrefix + "projects/p/secrets/s");
            var aws := Webhook(cluster, registry, SecretsInitImage, "IfNotPresent", BinVolumeName, BinVolumePath);
            var current := SecretsInitWebhook.TestWebhook(cluster, ImageConfig([], []));
            StepFor(HasSecretsPrefix, aws.cluster, aws.registry, Rewrite, c, pod, ns) == Unchanged &&
            StepFor(SecretsInitWebhook.HasSecretsPrefix, current.cluster, current.registry,
                    SecretsInitWebhook.RewriteWith(current), c, pod, ns).Rewritten?
  {
    var v := GcpSecretManagerPrefix + "projects/p/secrets/s";
    var c := SecretsInitWebhook.TestContainer(["echo"], [], v);
    NarrowerThanCurrentVariant("projects/p/secrets/s", v);
    NoSecretsMeansUnchanged(HasSecretsPrefix, cluster, registry, Rewrite, c, pod, ns);
    assert c.env[..0] == [];
    assert EnvScan(SecretsInitWebhook.HasSecretsPrefix, cluster, c.env, ns).bindings == [c.env[0]];
  }

  /** mutatePod on the pod object: the two container slices are rewritten in
      place, and the init-container slice and the volume list are replaced
      when the init containers and the volumes are added. `dryRun` is
      accepted and not used. */
  method MutatePod(wh: Webhook, pod: Pod, ns: string, image: string, pullPolicy: string,
                   volumeName: string, volumePath: string, dryRun: bool)
    returns (err: Option<Error>)
    requires pod.Valid()
    modifies pod, pod.initContainers, pod.containers
    ensures pod.Valid()
    ensures (pod.View(), err) == MutatePodSpec(wh, old(pod.View()), pod.Identity(), ns, image, pullPolicy, volumeName, volumePath)
  {
    var initContainersMutated, e := MutateContainers(HasSecretsPrefix, wh.cluster, wh.registry, Rewrite,
                                                     pod.initContainers, pod.Identity(), ns);
    if e.Some? {
      return e;
    }
    var containersMutated, e' := MutateContainers(HasSecretsPrefix, wh.cluster, wh.registry, Rewrite,
                                                  pod.containers, pod.Identity(), ns);
    if e'.Some? {
      return e';
    }
    if initContainersMutated || containersMutated {
      var added := GetInitContainers(initContainersMutated, containersMutated, image, pullPolicy, volumeName, volumePath);
      assert added == [CopySecretsInit(image, pullPolicy, volumeName, volumePath)];
      var prepended := added + pod.initContainers[..];
      var initContainers := new Container[|prepended|](i requires 0 <= i < |prepended| => prepended[i]);
      pod.initContainers := initContainers;
      assert pod.initContainers[..] == prepended;
      pod.volumes := pod.volumes + GetVolumes(pod.volumes, volumeName);
    }
    err := None;
  }

  /** What secretsMutator receives: the request's namespace and dry-run
      flag, and the object under admission. */
  datatype AdmissionRequest = AdmissionRequest(namespace: string, dryRun: bool)
  datatype AdmissionObject = PodObject(pod: Pod) | OtherObject(kind: string)

  /** secretsMutator: pods are mutated in the request's namespace with the
      webhook's image and volume; any other kind of object passes through.
      It never asks the framework to stop the mutation chain. */
  method SecretsMutator(wh: Webhook, req: AdmissionRequest, obj: AdmissionObject) returns (stop: bool, err: Option<Error>)
    requires obj.PodObject? ==> obj.pod.Valid()
    modifies if obj.PodObject? then {obj.pod, obj.pod.initContainers, obj.pod.containers} else {}
    ensures !stop
    ensures obj.OtherObject? ==> err.None?
    ensures obj.PodObject? ==>
              obj.pod.Valid() &&
              (obj.pod.View(), err) ==
                MutatePodSpec(wh, old(obj.pod.View()), obj.pod.Identity(), req.namespace,
                              wh.image, wh.pullPolicy, wh.volumeName, wh.volumePath)
  {
    match obj
    case PodObject(pod) =>
      err := MutatePod(wh, pod, req.namespace, wh.image, wh.pullPolicy, wh.volumeName, wh.volumePath, req.dryRun);
      stop := false;
    case OtherObject(_) =>
      return false, None;
  }
}
