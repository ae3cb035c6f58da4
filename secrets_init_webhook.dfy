/** The current webhook (secrets-init-webhook): it recognises GCP Secret
    Manager, AWS Secrets Manager and AWS SSM parameter references, rewrites
    each eligible container to start through secrets-init with a
    `--provider=` flag, and, unless the request is a dry run, adds the init
    container and the volume that bring the secrets-init binary into the
    pod. */
module SecretsInitWebhook {
  import opened Wrappers
  import opened Strings
  import opened SecretRefs
  import opened Kube
  import opened Env
  import opened Mutation

  /** Defaults for the image and the volume holding the binary. */
  const SecretsInitImage := "doitintl/secrets-init:latest"
  const BinVolumeName := "secrets-init-bin"
  const BinVolumePath := "/secrets-init/bin"

  /** Resource quantities of the init container, kept as the strings the
      source parses. */
  const RequestsCpu := "5m"
  const RequestsMemory := "10Mi"
  const LimitsCpu := "20m"
  const LimitsMemory := "50Mi"

  const InitContainerName := "copy-secrets-init"
  const InitContainerBinary := "/usr/local/bin/secrets-init"

  /** The webhook's configuration: the cluster it reads ConfigMaps and
      Secrets from, the registry it asks for image configs, the provider
      passed to secrets-init, and the init container's image and volume. */
  datatype Webhook = Webhook(
    cluster: Cluster,
    registry: ImageRegistry,
    provider: string,
    image: string,
    pullPolicy: string,
    volumeName: string,
    volumePath: string)

  /** hasSecretsPrefix: a GCP Secret Manager, AWS Secrets Manager or AWS SSM
      parameter reference. */
  function HasSecretsPrefix(value: string): (r: bool)
    ensures r <==> IsGcpSecret(value) || IsAwsSecret(value) || IsSsmParameter(value)
  {
    HasPrefixIff(value, GcpSecretManagerPrefix);
    HasPrefixIff(value, AwsSecretsManagerPrefix);
    HasPrefixIff(value, AwsSsmPrefix);
    ContainsIff(value, SsmParameterMarker);
    HasPrefix(value, GcpSecretManagerPrefix) ||
    HasPrefix(value, AwsSecretsManagerPrefix) ||
    (HasPrefix(value, AwsSsmPrefix) && Contains(value, SsmParameterMarker))
  }

  /** Anything after the Secrets Manager prefix is accepted; an SSM ARN
      that does not name a parameter is not. */
  lemma PrefixRules(suffix: string, v: string)
    ensures HasSecretsPrefix(GcpSecretManagerPrefix + suffix)
    ensures HasSecretsPrefix(AwsSecretsManagerPrefix + suffix)
    ensures !Occurs(v, SsmParameterMarker) && !IsGcpSecret(v) && !IsAwsSecret(v) ==> !HasSecretsPrefix(v)
    ensures !HasSecretsPrefix("")
  {
  }

  /** The rewritten container: it starts secrets-init from the shared volume,
      passing the provider and then the original command line, and mounts
      that volume after its own mounts. */
  function Rewrite(wh: Webhook, c: Container, args: seq<string>): Container {
    c.(command := [wh.volumePath + "/secrets-init"],
       args := ["--provider=" + wh.provider] + args,
       volumeMounts := c.volumeMounts + [VolumeMount(wh.volumeName, wh.volumePath)])
  }

  function RewriteWith(wh: Webhook): (Container, seq<string>) -> Container {
    (c, args) => Rewrite(wh, c, args)
  }

  function PlanFor(wh: Webhook, cs: seq<Container>, pod: PodIdentity, ns: string): seq<Step> {
    Plan(HasSecretsPrefix, wh.cluster, wh.registry, RewriteWith(wh), cs, pod, ns)
  }

  /** A rewritten container keeps its name, image, environment and
      resources; its command is the secrets-init binary on the shared
      volume; its args are the provider flag and then the command line
      Kubernetes would have run; exactly one mount is appended. */
  lemma RewrittenContainer(wh: Webhook, c: Container, pod: PodIdentity, ns: string)
    requires StepFor(HasSecretsPrefix, wh.cluster, wh.registry, RewriteWith(wh), c, pod, ns).Rewritten?
    ensures var r := StepFor(HasSecretsPrefix, wh.cluster, wh.registry, RewriteWith(wh), c, pod, ns).container;
            var image := if |c.command| > 0 then ImageConfig([], []) else wh.registry(ns, c, pod).value;
            r.name == c.name && r.image == c.image && r.imagePullPolicy == c.imagePullPolicy &&
            r.env == c.env && r.envFrom == c.envFrom && r.resources == c.resources &&
            r.command == [wh.volumePath + "/secrets-init"] &&
            r.args == ["--provider=" + wh.provider] + KubernetesCommandLine(c.command, c.args, image.entrypoint, image.cmd) &&
            r.volumeMounts == c.volumeMounts + [VolumeMount(wh.volumeName, wh.volumePath)]
  {
  }

  /** Worked cases of mutateContainers with a registry that answers every
      request with one fixed image config. */
  const TopSecret := AwsSecretsManagerPrefix + ":us-east-1:123456789012:secret:test/topsecret"

  function FixedRegistry(image: ImageConfig): ImageRegistry {
    (ns: string, c: Container, pod: PodIdentity) => Ok(image)
  }

  function TestWebhook(cluster: Cluster, image: ImageConfig): Webhook {
    Webhook(cluster, FixedRegistry(image), "aws", SecretsInitImage, "IfNotPresent", BinVolumeName, BinVolumePath)
  }

  function TestContainer(command: seq<string>, args: seq<string>, value: string): Container {
    Container("TestContainer", "test-image", "", command, args, [EnvVar("topsecret", value, None)], [], [],
              ResourceRequirements(map[], map[]))
  }

  /** The literal value is a secret reference, so the container is
      eligible; its environment needs no lookup. */
  lemma TopSecretIsFound(cluster: Cluster, command: seq<string>, args: seq<string>, ns: string)
    ensures ContainerSecrets(HasSecretsPrefix, cluster, TestContainer(command, args, TopSecret), ns).Found()
  {
    var c := TestContainer(command, args, TopSecret);
    assert TopSecret == AwsSecretsManagerPrefix + ":us-east-1:123456789012:secret:test/topsecret";
    assert c.env[..0] == [];
    assert EnvScan(HasSecretsPrefix, cluster, c.env, ns).bindings == [c.env[0]];
  }

  /** A declared command with no args: the command is kept as it is. */
  lemma CommandWithoutArgsExample(cluster: Cluster, pod: PodIdentity, ns: string)
    ensures var wh := TestWebhook(cluster, ImageConfig([], []));
            var c := TestContainer(["echo"], [], TopSecret);
            StepFor(HasSecretsPrefix, wh.cluster, wh.registry, RewriteWith(wh), c, pod, ns) ==
              Rewritten(c.(command := ["/secrets-init/bin/secrets-init"], args := ["--provider=aws", "echo"],
                           volumeMounts := [VolumeMount("secrets-init-bin", "/secrets-init/bin")]))
  {
    TopSecretIsFound(cluster, ["echo"], [], ns);
    assert BinVolumePath + "/secrets-init" == "/secrets-init/bin/secrets-init";
    assert "--provider=" + "aws" == "--provider=aws";
  }

  /** Args with no command: the image's entrypoint comes first. */
  lemma ArgsWithoutCommandExample(cluster: Cluster, pod: PodIdentity, ns: string)
    ensures var wh := TestWebhook(cluster, ImageConfig(["/bin/zsh"], []));
            var c := TestContainer([], ["-c", "echo test"], TopSecret);
            StepFor(HasSecretsPrefix, wh.cluster, wh.registry, RewriteWith(wh), c, pod, ns) ==
              Rewritten(c.(command := ["/secrets-init/bin/secrets-init"], args := ["--provider=aws", "/bin/zsh", "-c", "echo test"],
                           volumeMounts := [VolumeMount("secrets-init-bin", "/secrets-init/bin")]))
  {
    TopSecretIsFound(cluster, [], ["-c", "echo test"], ns);
    assert BinVolumePath + "/secrets-init" == "/secrets-init/bin/secrets-init";
    assert "--provider=" + "aws" == "--provider=aws";
  }

  /** Neither command nor args nor entrypoint: the image's CMD is run. */
  lemma ImageCmdOnlyExample(cluster: Cluster, pod: PodIdentity, ns: string)
    ensures var wh := TestWebhook(cluster, ImageConfig([], ["test-cmd"]));
            var c := TestContainer([], [], TopSecret);
            StepFor(HasSecretsPrefix, wh.cluster, wh.registry, RewriteWith(wh), c, pod, ns) ==
              Rewritten(c.(command := ["/secrets-init/bin/secrets-init"], args := ["--provider=aws", "test-cmd"],
                           volumeMounts := [VolumeMount("secrets-init-bin", "/secrets-init/bin")]))
  {
    TopSecretIsFound(cluster, [], [], ns);
    assert BinVolumePath + "/secrets-init" == "/secrets-init/bin/secrets-init";
    assert "--provider=" + "aws" == "--provider=aws";
  }

  /** A value with no secret prefix leaves the container alone. */
  lemma PlainValueExample(cluster: Cluster, pod: PodIdentity, ns: string)
    ensures var wh := TestWebhook(cluster, ImageConfig([], []));
            var c := TestContainer(["/bin/bash"], [], "hello world");
            StepFor(HasSecretsPrefix, wh.cluster, wh.registry, RewriteWith(wh), c, pod, ns) == Unchanged
  {
  }

  /** getSecretsInitVolume: a memory-backed EmptyDir. */
  function GetSecretsInitVolume(volumeName: string): Volume {
    Volume(volumeName, EmptyDir(Memory))
  }

  /** getSecretsInitContainer: copies the secrets-init binary into the
      shared volume. */
  function GetSecretsInitContainer(image: string, pullPolicy: string, volumeName: string, volumePath: string): Container {
    Container(
      InitContainerName, image, pullPolicy, [],
      ["cp", InitContainerBinary, volumePath],
      [], [],
      [VolumeMount(volumeName, volumePath)],
      ResourceRequirements(
        map["cpu" := RequestsCpu, "memory" := RequestsMemory],
        map["cpu" := LimitsCpu, "memory" := LimitsMemory]))
  }

  /** The pieces fit together: the init container mounts the volume the pod
      gains, copies the binary into the directory where that volume is
      mounted, and rewritten containers mount the same volume at the same
      place and start the copied binary. The init container itself has no
      secret reference, so it is never rewritten. */
  lemma InjectedPiecesAgree(wh: Webhook, c: Container, args: seq<string>, pod: PodIdentity, ns: string)
    ensures var init := GetSecretsInitContainer(wh.image, wh.pullPolicy, wh.volumeName, wh.volumePath);
            var volume := GetSecretsInitVolume(wh.volumeName);
            var r := Rewrite(wh, c, args);
            init.volumeMounts == [VolumeMount(volume.name, wh.volumePath)] &&
            init.args[|init.args| - 1] == wh.volumePath &&
            r.volumeMounts[|r.volumeMounts| - 1] == init.volumeMounts[0] &&
            r.command == [init.args[|init.args| - 1] + "/secrets-init"] &&
            StepFor(HasSecretsPrefix, wh.cluster, wh.registry, RewriteWith(wh), init, pod, ns) == Unchanged
  {
  }

  /** mutatePod as a function of the pod's lists: init containers first,
      then containers; an error stops it with the rewrites done so far;
      when anything was rewritten and the request is not a dry run, the init
      container is prepended and the volume appended. */
  function MutatePodSpec(wh: Webhook, view: PodView, pod: PodIdentity, ns: string, dryRun: bool): (PodView, Option<Error>) {
    var init := Apply(view.initContainers, PlanFor(wh, view.initContainers, pod, ns));
    if init.err.Some? then (view.(initContainers := init.containers), init.err)
    else
      var main := Apply(view.containers, PlanFor(wh, view.containers, pod, ns));
      if main.err.Some? then (PodView(init.containers, main.containers, view.volumes), main.err)
      else if (init.mutated || main.mutated) && !dryRun then
        (PodView([GetSecretsInitContainer(wh.image, wh.pullPolicy, wh.volumeName, wh.volumePath)] + init.containers,
                 main.containers,
                 view.volumes + [GetSecretsInitVolume(wh.volumeName)]),
         None)
      else (PodView(init.containers, main.containers, view.volumes), None)
  }

  /** Some container of either list is rewritten and no lookup fails. */
  ghost predicate Injects(wh: Webhook, view: PodView, pod: PodIdentity, ns: string) {
    var init := Apply(view.initContainers, PlanFor(wh, view.initContainers, pod, ns));
    var main := Apply(view.containers, PlanFor(wh, view.containers, pod, ns));
    init.err.None? && main.err.None? && (init.mutated || main.mutated)
  }

  /** The init container and the volume are added once, exactly when
      something was rewritten, nothing failed and the request is not a dry
      run; otherwise neither list gains an element. The containers keep
      their number and order in every case. */
  lemma InjectedAtMostOnce(wh: Webhook, view: PodView, pod: PodIdentity, ns: string, dryRun: bool)
    ensures var (v, err) := MutatePodSpec(wh, view, pod, ns, dryRun);
            var init := Apply(view.initContainers, PlanFor(wh, view.initContainers, pod, ns));
            |v.containers| == |view.containers| &&
            (if Injects(wh, view, pod, ns) && !dryRun then
               err.None? &&
               v.initContainers == [GetSecretsInitContainer(wh.image, wh.pullPolicy, wh.volumeName, wh.volumePath)] + init.containers &&
               v.volumes == view.volumes + [GetSecretsInitVolume(wh.volumeName)]
             else
               v.initContainers == init.containers && v.volumes == view.volumes)
  {
  }

  /** A dry run rewrites the same containers as a real request and returns
      the same error; it only leaves out the init container and the volume. */
  lemma DryRunStillRewrites(wh: Webhook, view: PodView, pod: PodIdentity, ns: string)
    ensures var (dry, dryErr) := MutatePodSpec(wh, view, pod, ns, true);
            var (wet, wetErr) := MutatePodSpec(wh, view, pod, ns, false);
            dryErr == wetErr && dry.containers == wet.containers && dry.volumes == view.volumes &&
            (if Injects(wh, view, pod, ns) then wet.initContainers == [wet.initContainers[0]] + dry.initContainers
             else wet.initContainers == dry.initContainers)
  {
  }

  /** A pod none of whose containers refers to a secret and none of whose
      lookups fails comes back unchanged, dry run or not. */
  lemma NoSecretsNoChange(wh: Webhook, view: PodView, pod: PodIdentity, ns: string, dryRun: bool)
    requires forall i :: 0 <= i < |view.initContainers| ==> PlanFor(wh, view.initContainers, pod, ns)[i] == Unchanged
    requires forall i :: 0 <= i < |view.containers| ==> PlanFor(wh, view.containers, pod, ns)[i] == Unchanged
    ensures MutatePodSpec(wh, view, pod, ns, dryRun) == (view, None)
  {
    NothingEligibleChangesNothing(view.initContainers, PlanFor(wh, view.initContainers, pod, ns));
    NothingEligibleChangesNothing(view.containers, PlanFor(wh, view.containers, pod, ns));
  }

  /** The rewriting keeps every container's environment and gives it a
      command. */
  lemma RewriteKeepsReferences(wh: Webhook)
    ensures PreservesReferences(RewriteWith(wh))
  {
  }

  /** The mutation is not idempotent: a rewritten container still carries
      its secret references, so a second request over the first one's
      output rewrites it again and adds a second init container and a
      second volume. */
  lemma MutatingTwiceInjectsTwice(wh: Webhook, view: PodView, pod: PodIdentity, ns: string)
    requires Injects(wh, view, pod, ns)
    ensures var (once, _) := MutatePodSpec(wh, view, pod, ns, false);
            var (twice, err) := MutatePodSpec(wh, once, pod, ns, false);
            err.None? &&
            |twice.initContainers| == |view.initContainers| + 2 &&
            twice.volumes == view.volumes + [GetSecretsInitVolume(wh.volumeName)] + [GetSecretsInitVolume(wh.volumeName)]
  {
    var initContainer := GetSecretsInitContainer(wh.image, wh.pullPolicy, wh.volumeName, wh.volumePath);
    RewriteKeepsReferences(wh);
    InjectedPiecesAgree(wh, initContainer, [], pod, ns);
    ApplyAgainBehind(HasSecretsPrefix, wh.cluster, wh.registry, RewriteWith(wh), initContainer, view.initContainers, pod, ns);
    ApplyAgain(HasSecretsPrefix, wh.cluster, wh.registry, RewriteWith(wh), view.containers, pod, ns);
  }

  /** mutatePod on the pod object: the two container slices are rewritten in
      place, and the init-container slice and the volume list are replaced
      when the init container and the volume are added. */
  method MutatePod(wh: Webhook, pod: Pod, ns: string, dryRun: bool) returns (err: Option<Error>)
    requires pod.Valid()
    modifies pod, pod.initContainers, pod.containers
    ensures pod.Valid()
    ensures (pod.View(), err) == MutatePodSpec(wh, old(pod.View()), pod.Identity(), ns, dryRun)
  {
    var initContainersMutated, e := MutateContainers(HasSecretsPrefix, wh.cluster, wh.registry, RewriteWith(wh),
                                                     pod.initContainers, pod.Identity(), ns);
    if e.Some? {
      return e;
    }
    var containersMutated, e' := MutateContainers(HasSecretsPrefix, wh.cluster, wh.registry, RewriteWith(wh),
                                                  pod.containers, pod.Identity(), ns);
    if e'.Some? {
      return e';
    }
    if (initContainersMutated || containersMutated) && !dryRun {
      var prepended := [GetSecretsInitContainer(wh.image, wh.pullPolicy, wh.volumeName, wh.volumePath)] + pod.initContainers[..];
      var initContainers := new Container[|prepended|](i requires 0 <= i < |prepended| => prepended[i]);
      pod.initContainers := initContainers;
      assert pod.initContainers[..] == prepended;
      pod.volumes := pod.volumes + [GetSecretsInitVolume(wh.volumeName)];
    }
    err := None;
  }

  /** What secretsMutator receives: the request's namespace and dry-run
      flag, and the object under admission. */
  datatype AdmissionRequest = AdmissionRequest(namespace: string, dryRun: bool)
  datatype AdmissionObject = PodObject(pod: Pod) | OtherObject(kind: string)

  /** secretsMutator: pods are mutated in the request's namespace, honouring
      its dry-run flag; any other kind of object passes through. It never
      asks the framework to stop the mutation chain. */
  method SecretsMutator(wh: Webhook, req: AdmissionRequest, obj: AdmissionObject) returns (stop: bool, err: Option<Error>)
    requires obj.PodObject? ==> obj.pod.Valid()
    modifies if obj.PodObject? then {obj.pod, obj.pod.initContainers, obj.pod.containers} else {}
    ensures !stop
    ensures obj.OtherObject? ==> err.None?
    ensures obj.PodObject? ==>
              obj.pod.Valid() &&
              (obj.pod.View(), err) == MutatePodSpec(wh, old(obj.pod.View()), obj.pod.Identity(), req.namespace, req.dryRun)
  {
    match obj
    case PodObject(pod) =>
      err := MutatePod(wh, pod, req.namespace, req.dryRun);
      stop := false;
    case OtherObject(_) =>
      return false, None;
  }
}
