# kube-secrets-init: the pod-mutation engine in Dafny

kube-secrets-init is a Kubernetes mutating admission webhook. When a pod
is created, it looks at every container's environment. A container whose
`env` or `envFrom` refers to a cloud secret is rewritten:

- A secret reference is a GCP Secret Manager name, an AWS Secrets Manager
  ARN or an AWS SSM parameter ARN.
- The reference may be a literal value, or a value read from a ConfigMap or
  a Secret.
- A rewritten container starts the `secrets-init` helper, which resolves
  the references and then runs the original command line.

The webhook also adds an init container, which copies the helper binary
into a shared in-memory volume, and it adds that volume.

The model covers two variants:

- the current webhook, `cmd/secrets-init-webhook`;
- the older AWS-only webhook, `cmd/aws-secrets-webhook`.

It also covers the current webhook's image registry client
(`Registry.GetImageConfig`) and the image-config cache that both variants
ship.

Modules:

- `Wrappers`: `Option` and `Result`.
- `Strings`: Go's `strings.HasPrefix` and `strings.Contains`, each proved
  equal to a reference definition.
- `SecretRefs`: the prefixes, and what a GCP, AWS Secrets Manager or SSM
  reference is.
- `Kube`: the core/v1 fields the webhooks use.
  - The cluster's ConfigMaps and Secrets are a lookup table, in which a
    missing key means "not found".
  - The image registry, as the mutators see it, is a function.
  - A pod under admission is a `Pod` class. Its two container slices are
    arrays, which the webhooks write element by element.
- `Env`: `lookForEnvFrom`, `lookForValueFrom` and the scan over `env` in
  `mutateContainers`.
  - Each is specified by a function: `EnvFromSpec`, `LookForValueFrom`,
    `EnvScan`.
  - Each loop is a method proved against its function.
  - Both variants share this code, parameterised by their `hasSecretsPrefix`.
  - `lookForEnvFrom` at `cmd/aws-secrets-webhook/main.go:119-163` is the
    same code as `cmd/secrets-init-webhook/main.go:131-175`.
  - `lookForValueFrom` at `cmd/aws-secrets-webhook/main.go:165-193` is the
    same code as `cmd/secrets-init-webhook/main.go:177-205`.
- `Mutation`: the loop of `mutateContainers` over one slice of containers.
  - It is written once.
  - The two variants differ only in the prefix predicate and in how they
    rewrite a container, so both are passed in.
  - `StepFor` decides one container and `Apply` runs the loop with its
    early return on error.
  - `MutateContainers` is the array method, proved against them.
    Its loop is `TakeSteps`.
- `SecretsInitWebhook` and `AwsSecretsWebhook`: each variant's
  `hasSecretsPrefix`, container rewrite, init container, volume,
  `mutatePod` and `secretsMutator`.
  - `mutatePod` is a method on the `Pod` object.
  - It is proved equal to `MutatePodSpec`, a function of the pod's lists.
- `ImageCache`: `InMemoryImageCache` as a class with a map field. It is
  generic in the stored type, so one class covers both `cache.go` files,
  which differ only in that type.
- `Registry`: `Registry.GetImageConfig`.
  - It is a method on a `Registry` object that owns a cache.
  - It is proved against `Lookup`, a function of the cache contents.
  - `getKeychain` is modelled: the pod's keychain, chained with the
    default pull secret's keychain when both its name and its namespace
    are configured.
  - The services behind the keychains and the download of the image
    configuration are left to the caller as function parameters
    (`Registry.Backend`).
  - Ghost logs record which keychains were requested and which images were
    fetched.

Some properties in the model are not tests the source states. They are
facts about the code as written, proved here:

- The mutation is not idempotent. A second admission of an already-mutated
  pod rewrites the same containers and adds a second init container and a
  second volume of the same name.
- A dry run in the current variant rewrites exactly what a real request
  rewrites. It leaves out only the init container and the volume.
- The AWS-only variant ignores the dry-run flag.
- The AWS-only variant does not recognise GCP references. On every other
  value it agrees with the current variant.
- In the AWS-only variant, a rewritten container always mounts a volume
  named `secrets-init` at `/secrets-init/` and runs
  `/secrets-init/secrets-init`, whatever the configured volume name and
  path are. The volume the variant adds is named after the configured
  volume name, whose default is `secrets-init-bin`. So the added volume
  carries the mounted name only when the configured name is
  `secrets-init`.
- Caching in `GetImageConfig` is invisible while the cache agrees with the
  registry. This is what justifies treating the registry as a function in
  the mutators.

## Model

| member | source | states |
|---|---|---|
| `SecretsInitWebhook.HasSecretsPrefix` | cmd/secrets-init-webhook/main.go:108-112 | true exactly for a GCP Secret Manager reference, an AWS Secrets Manager ARN, or an SSM ARN that names a parameter, each stated as a reference predicate over `prefix + rest` and substring occurrence |
| `SecretsInitWebhook.PrefixRules` | cmd/secrets-init-webhook/main.go:108-112 | any suffix after either managed-secret prefix is accepted; the empty string is not; a value that is neither GCP nor AWS Secrets Manager and holds no `:parameter/` anywhere is rejected |
| `AwsSecretsWebhook.HasSecretsPrefix` | cmd/aws-secrets-webhook/main.go:99-101 | true exactly for an AWS Secrets Manager ARN or an SSM parameter ARN |
| `AwsSecretsWebhook.NarrowerThanCurrentVariant` | cmd/aws-secrets-webhook/main.go:99-101 | every GCP reference is rejected here and accepted by the current variant; what this variant accepts the current one accepts; off GCP references the two agree |
| `Strings.HasPrefixIff` | cmd/secrets-init-webhook/main.go:109-111 | the prefix test used by both predicates holds iff the value is the prefix followed by something |
| `Strings.ContainsIff` | cmd/secrets-init-webhook/main.go:111 | the substring test holds iff the marker occurs at some position of the value |
| `Env.EnvFromSpec` | cmd/secrets-init-webhook/main.go:131-175 | definition: the envFrom entries in declared order, each giving the blocks of its ConfigMap and then its Secret, stopping at the first entry that fails; its properties are the `Env` lemmas below |
| `Env.SecretBindingsExact` | cmd/secrets-init-webhook/main.go:144-152 | a fetched object contributes a binding `key=value` exactly for each of its keys whose value is a secret reference, with no valueFrom |
| `Env.AppendSecretBindings` | cmd/secrets-init-webhook/main.go:163-171 | the loop over a fetched map keeps what was collected before and appends each secret binding of the object exactly once, in whatever order the map is iterated |
| `Env.EnumeratesMembers` | cmd/secrets-init-webhook/main.go:144 | an enumeration of an object's bindings has one element per binding and holds exactly the bindings |
| `Env.EnumerateOneMore` | cmd/secrets-init-webhook/main.go:144-151 | visiting one more key of the map extends a correct enumeration of the visited keys' bindings to one of the larger key set |
| `Env.FlattensLength` | cmd/secrets-init-webhook/main.go:131-175 | the collected list is as long as the bindings of all fetched objects together |
| `Env.FlattensAppend` | cmd/secrets-init-webhook/main.go:150 | appending one more object's enumeration to a flattening of earlier objects flattens the longer list of objects |
| `Env.TotalSizeZero` | cmd/secrets-init-webhook/main.go:239 | a list that flattens the fetched objects' bindings is empty iff every object contributed nothing, and so is their binding count |
| `Env.EnvFromConcat` | cmd/secrets-init-webhook/main.go:134-173 | the entries are processed in declared order: the result over `xs + ys` is that of `xs` if it failed, and otherwise `xs`'s bindings followed by those of `ys` with `ys`'s error |
| `Env.OptionalMissingConfigMapSkipsEntry` | cmd/secrets-init-webhook/main.go:135-143 | an optional ConfigMap that does not exist skips its whole entry (its SecretRef included) and nothing else: the result is that of the list without the entry |
| `Env.SkippedEntryIsEmpty` | cmd/secrets-init-webhook/main.go:138-139 | such an entry contributes no bindings and no error |
| `Env.ConfigMapErrorStops` | cmd/secrets-init-webhook/main.go:137-142 | a required ConfigMap that is missing, or any other lookup failure, ends the scan with the bindings gathered before the entry and that error (a not-found error naming the object, or the API failure) |
| `Env.EnvFromStep` | cmd/secrets-init-webhook/main.go:134-173 | one more entry after an error-free prefix appends that entry's bindings, and an error in it is the result of the whole scan |
| `Env.EnvFromStops` | cmd/secrets-init-webhook/main.go:141 | once the scan has failed, later entries change nothing |
| `Env.AppendRef` | cmd/secrets-init-webhook/main.go:154-172 | fetching one referenced object yields its bindings when it exists, nothing when it is optional and missing, and the lookup error otherwise; the collected list grows only by that object's bindings |
| `Env.LookForEntry` | cmd/secrets-init-webhook/main.go:135-172 | one envFrom entry: ConfigMap first, then Secret; the returned error and the appended bindings are the entry's as `EntryOutcome` defines them |
| `Env.LookForEnvFrom` | cmd/secrets-init-webhook/main.go:131-175 | the returned list enumerates, object by object and in declared order, the secret bindings of the fetched objects, and the returned error is the first lookup error |
| `Env.LookForValueFrom` | cmd/secrets-init-webhook/main.go:177-205 | a returned binding keeps the variable's name, carries a secret-reference value and comes from one of the selectors; the ConfigMap selector wins when it yields a reference; a failing ConfigMap lookup is the error even when a Secret selector is set; when the ConfigMap selector is absent or resolves to a non-reference, the Secret selector's lookup error or reference is the answer; nothing is returned iff each present selector resolves to a non-reference; a missing key reads as the empty string |
| `Env.EnvScan` | cmd/secrets-init-webhook/main.go:223-237 | definition: the `env` entries in declared order, each giving its literal reference and then its resolved valueFrom binding, stopping at the first lookup error |
| `Env.EnvScanStep` | cmd/secrets-init-webhook/main.go:223-237 | one more `env` entry after an error-free prefix appends its literal reference and then its resolved valueFrom binding; its error is the error of the scan |
| `Env.EnvScanStops` | cmd/secrets-init-webhook/main.go:228-231 | once a valueFrom lookup fails, later entries do not change the error |
| `Env.CollectEnvEntry` | cmd/secrets-init-webhook/main.go:224-236 | one `env` entry appends its literal value when that is a secret reference, then its resolved valueFrom binding, and reports the lookup error |
| `Env.LookForEnv` | cmd/secrets-init-webhook/main.go:223-237 | the loop over `env` returns the scan's first error, and without one appends exactly the scan's bindings in declared order |
| `Env.AllSecretConcat` | cmd/secrets-init-webhook/main.go:220 | joining two lists of all-secret bindings keeps them all secret |
| `Env.EnvFromSpecSecret` | cmd/secrets-init-webhook/main.go:145-150 | every binding gathered from envFrom has a secret-reference value and no valueFrom |
| `Env.EnvScanSecret` | cmd/secrets-init-webhook/main.go:224-235 | every binding gathered from `env` has a secret-reference value |
| `Env.ContainerSecretsAreSecret` | cmd/secrets-init-webhook/main.go:214-237 | everything the container scan collects is a secret reference |
| `Env.CollectEnvVars` | cmd/secrets-init-webhook/main.go:214-237 | a container's collected list is its envFrom bindings followed by its `env` bindings; an envFrom error skips the `env` scan; the error is the first lookup error |
| `Mutation.EffectiveCommandIsKubernetesRule` | cmd/secrets-init-webhook/main.go:247-267 | the command line handed to secrets-init is the one Kubernetes runs (declared command and args, else the image's entrypoint with the declared args or the image's CMD); the image is not needed when a command is declared |
| `Mutation.EnvFromWithoutRefsIsEmpty` | cmd/secrets-init-webhook/main.go:215-221 | envFrom entries that name no object contribute nothing and never fail |
| `Mutation.EnvScanWithoutSecretsIsEmpty` | cmd/secrets-init-webhook/main.go:223-237 | `env` entries that are neither references nor valueFrom contribute nothing and never fail |
| `Mutation.NoSecretsMeansUnchanged` | cmd/secrets-init-webhook/main.go:239-242 | a container with no reference in its environment is left as it is |
| `Mutation.StepFor` | cmd/secrets-init-webhook/main.go:214-279 | definition: the decision for one container, failing on a lookup or registry error, keeping it when nothing was found, rewriting it with the assembled command line otherwise; the registry is asked only without a declared command |
| `Mutation.Apply` | cmd/secrets-init-webhook/main.go:207-283 | definition: the decisions taken in index order, the first failure returning at once with the flag false; the slice keeps its length |
| `Mutation.FirstFailure` | cmd/secrets-init-webhook/main.go:217-230 | the container at which the loop stops: every earlier step succeeds, and the step there fails |
| `Mutation.ApplyContainers` | cmd/secrets-init-webhook/main.go:213-280 | after the loop, each container before the first failure carries its own decision (rewritten or kept), and every later one is untouched |
| `Mutation.ApplyError` | cmd/secrets-init-webhook/main.go:217-256 | the returned error is the first container's failure, and none if no step fails |
| `Mutation.ApplyMutated` | cmd/secrets-init-webhook/main.go:244-282 | the returned flag is true iff no step fails and some container was rewritten |
| `Mutation.ApplyClosedForm` | cmd/secrets-init-webhook/main.go:207-283 | the three facts above together: the whole outcome of `mutateContainers` from its per-container decisions |
| `Mutation.NothingEligibleChangesNothing` | cmd/secrets-init-webhook/main.go:239-242 | if no container is eligible, the slice, the flag and the error are untouched |
| `Mutation.ApplyStopsAt` | cmd/secrets-init-webhook/main.go:254-256 | at a failure the loop returns immediately: the rewritten prefix stays, the rest of the slice is as it was, the flag is false |
| `Mutation.ApplyStep` | cmd/secrets-init-webhook/main.go:213-280 | one more iteration over an error-free prefix keeps, rewrites or fails the next container as its decision says |
| `Mutation.ApplyPrependUnchanged` | cmd/secrets-init-webhook/main.go:310-312 | a container the loop leaves alone in front of the slice changes neither the flag nor the error nor the other containers |
| `Mutation.PlanPrepend` | cmd/secrets-init-webhook/main.go:213 | each container's decision depends on that container only, so the decisions for `[c] + cs` are `c`'s followed by those for `cs` |
| `Mutation.StepAgain` | cmd/secrets-init-webhook/main.go:269-279 | a rewritten container keeps its environment and has a command, so deciding it again rewrites it again (without a registry call) and a kept one is kept |
| `Mutation.ApplyWithoutFailure` | cmd/secrets-init-webhook/main.go:207-283 | with no failing step, no error is returned and the flag is true iff some container is rewritten |
| `Mutation.SucceededEverywhere` | cmd/secrets-init-webhook/main.go:207-283 | a run that returns no error took every container's decision |
| `Mutation.PlanAgain` | cmd/secrets-init-webhook/main.go:207-283 | over a successful run's output the loop decides to rewrite exactly the same positions, and fails nowhere |
| `Mutation.SameRewritesSameOutcome` | cmd/secrets-init-webhook/main.go:244-282 | two runs that fail nowhere and rewrite the same positions return the same flag |
| `Mutation.ApplyAgain` | cmd/secrets-init-webhook/main.go:207-283 | a second run over a successful run's output succeeds and returns the same flag |
| `Mutation.ApplyAgainBehind` | cmd/secrets-init-webhook/main.go:308-312 | the same holds with the injected init container in front of the slice, which comes back one longer |
| `Mutation.DecideContainer` | cmd/secrets-init-webhook/main.go:214-277 | the body of the loop for one container computes the decision `StepFor` defines: fail on a lookup or registry error, keep when nothing was found, otherwise rewrite with the assembled command line |
| `Mutation.MutateContainers` | cmd/secrets-init-webhook/main.go:207-283 | the caller's slice, the flag and the error after the loop are those of running the decisions in order with an early return on the first error |
| `Mutation.TakeSteps` | cmd/secrets-init-webhook/main.go:208-282 | the loop itself, given a decision for each container: the slice, the flag and the error it leaves are `Apply`'s for those decisions, each taken decision being the one `DecideContainer` makes |
| `SecretsInitWebhook.Rewrite` | cmd/secrets-init-webhook/main.go:267-279 | definition: the rewritten container, with `<volumePath>/secrets-init` as command, `--provider=` and the command line as args, and the shared volume's mount appended |
| `SecretsInitWebhook.GetSecretsInitVolume` | cmd/secrets-init-webhook/main.go:322-331 | definition: one memory-backed EmptyDir volume under the given name |
| `SecretsInitWebhook.GetSecretsInitContainer` | cmd/secrets-init-webhook/main.go:333-356 | definition: the `copy-secrets-init` init container, which copies the binary into `volumePath` on the given volume, with fixed resource requests and limits |
| `SecretsInitWebhook.MutatePodSpec` | cmd/secrets-init-webhook/main.go:285-320 | definition: init containers, then containers, each error returning with the rewrites done so far; on success and off a dry run, the init container in front and the volume appended when anything was rewritten |
| `SecretsInitWebhook.RewrittenContainer` | cmd/secrets-init-webhook/main.go:267-279 | a rewritten container keeps name, image, pull policy, environment and resources, runs `<volumePath>/secrets-init` with `--provider=<provider>` followed by the Kubernetes command line, and gains exactly the shared volume's mount |
| `SecretsInitWebhook.RewriteKeepsReferences` | cmd/secrets-init-webhook/main.go:269-277 | the rewriting keeps every container's environment and gives it a command |
| `SecretsInitWebhook.TopSecretIsFound` | cmd/secrets-init-webhook/main_test.go:51-94 | a literal Secrets Manager ARN in `env` makes the container eligible with no lookup |
| `SecretsInitWebhook.CommandWithoutArgsExample` | cmd/secrets-init-webhook/main_test.go:51-94 | command `echo`, no args: rewritten to `/secrets-init/bin/secrets-init --provider=aws echo` with the `secrets-init-bin` mount |
| `SecretsInitWebhook.ArgsWithoutCommandExample` | cmd/secrets-init-webhook/main_test.go:199-243 | args only, entrypoint `/bin/zsh`: rewritten to `--provider=aws /bin/zsh -c "echo test"` |
| `SecretsInitWebhook.ImageCmdOnlyExample` | cmd/secrets-init-webhook/main_test.go:246-289 | no command, no args, no entrypoint: the image's CMD `test-cmd` follows the provider flag |
| `SecretsInitWebhook.PlainValueExample` | cmd/secrets-init-webhook/main_test.go:292-331 | a plain value leaves the container unchanged |
| `SecretsInitWebhook.InjectedPiecesAgree` | cmd/secrets-init-webhook/main.go:322-356 | the init container mounts the added volume at `volumePath` and copies the binary there; rewritten containers mount that volume at that path and run the copied binary; the init container has no references and is never rewritten |
| `SecretsInitWebhook.InjectedAtMostOnce` | cmd/secrets-init-webhook/main.go:285-320 | the init container is prepended and the volume appended once, exactly when something was rewritten, nothing failed and the request is not a dry run; the container count never changes |
| `SecretsInitWebhook.DryRunStillRewrites` | cmd/secrets-init-webhook/main.go:308-317 | a dry run rewrites the same containers and returns the same error as a real request, and differs only by the missing init container and volume |
| `SecretsInitWebhook.NoSecretsNoChange` | cmd/secrets-init-webhook/main.go:285-320 | a pod with no eligible container comes back unchanged with no error |
| `SecretsInitWebhook.MutatingTwiceInjectsTwice` | cmd/secrets-init-webhook/main.go:285-320 | admitting the mutated pod again succeeds and adds a second init container and a second volume of the same name |
| `SecretsInitWebhook.MutatePod` | cmd/secrets-init-webhook/main.go:285-320 | the pod object after the call, and the error, are those `MutatePodSpec` gives for the pod's lists before it, the two slices staying separate |
| `SecretsInitWebhook.SecretsMutator` | cmd/secrets-init-webhook/main.go:390-397 | never stops the chain; a pod is mutated in the request's namespace with its dry-run flag; any other object passes with no error |
| `AwsSecretsWebhook.Rewrite` | cmd/aws-secrets-webhook/main.go:248-260 | definition: the rewritten container, with `/secrets-init/secrets-init` as command, the command line as args and the fixed `secrets-init` mount appended |
| `AwsSecretsWebhook.GetVolumes` | cmd/aws-secrets-webhook/main.go:311-324 | definition: one memory-backed EmptyDir volume under `volumeName` |
| `AwsSecretsWebhook.CopySecretsInit` | cmd/aws-secrets-webhook/main.go:330-347 | definition: the `copy-secrets-init` init container, a shell copy of the binary into `volumePath` on the given volume, with fixed resource limits |
| `AwsSecretsWebhook.MutatePodSpec` | cmd/aws-secrets-webhook/main.go:266-309 | definition: init containers, then containers, each error returning with the rewrites done so far; when anything was rewritten, the init container in front and the volume appended, whatever the dry-run flag |
| `AwsSecretsWebhook.RewrittenContainer` | cmd/aws-secrets-webhook/main.go:248-260 | a rewritten container keeps its other fields, runs `/secrets-init/secrets-init` with exactly the Kubernetes command line as args, and gains the fixed `secrets-init` mount at `/secrets-init/` |
| `AwsSecretsWebhook.RewriteKeepsReferences` | cmd/aws-secrets-webhook/main.go:250-258 | the rewriting keeps every container's environment and gives it a command |
| `AwsSecretsWebhook.GetVolumesIgnoresExisting` | cmd/aws-secrets-webhook/main.go:311-324 | the added volume list is one memory-backed EmptyDir named `volumeName`, whatever volumes the pod has |
| `AwsSecretsWebhook.GetInitContainers` | cmd/aws-secrets-webhook/main.go:326-351 | one init container, the shell copy into `volumePath`, when either list was rewritten, and none otherwise |
| `AwsSecretsWebhook.InjectedPiecesAgree` | cmd/aws-secrets-webhook/main.go:311-351 | the init container mounts the added volume and is never rewritten; a rewritten container's mount (added at main.go:253-258) names the added volume iff the configured volume name is `secrets-init`, so with the default `secrets-init-bin` (main.go:37) it names none |
| `AwsSecretsWebhook.InjectedAtMostOnce` | cmd/aws-secrets-webhook/main.go:266-309 | the init container and the volume are added once, exactly when something was rewritten and nothing failed; the dry-run flag plays no part |
| `AwsSecretsWebhook.NoSecretsNoChange` | cmd/aws-secrets-webhook/main.go:266-309 | a pod with no eligible container comes back unchanged |
| `AwsSecretsWebhook.MutatingTwiceInjectsTwice` | cmd/aws-secrets-webhook/main.go:300-306 | admitting the mutated pod again adds a second init container and a second volume |
| `AwsSecretsWebhook.GcpReferenceContrast` | cmd/aws-secrets-webhook/main.go:195-226 | a container whose only reference is a GCP one is left alone by this variant and rewritten by the current one |
| `AwsSecretsWebhook.MutatePod` | cmd/aws-secrets-webhook/main.go:266-309 | the pod object after the call, and the error, are those `MutatePodSpec` gives, whatever the dry-run flag |
| `AwsSecretsWebhook.SecretsMutator` | cmd/aws-secrets-webhook/main.go:385-402 | never stops the chain; a pod is mutated with the webhook's image, pull policy, volume name and path; any other object passes |
| `ImageCache.InMemoryImageCache.constructor` | cmd/secrets-init-webhook/registry/cache.go:21-24 | a new cache holds no entry |
| `ImageCache.InMemoryImageCache.Get` | cmd/secrets-init-webhook/registry/cache.go:26-34 | a hit returns the stored entry, a miss returns nothing, and the map is not changed |
| `ImageCache.InMemoryImageCache.Put` | cmd/secrets-init-webhook/registry/cache.go:36-41 | the entry under the image is replaced or added, every other key keeps its entry, and no other key appears |
| `ImageCache.FreshCacheMisses` | cmd/aws-secrets-webhook/registry/cache.go:21-34 | a freshly created cache misses on every key |
| `ImageCache.GetAfterPut` | cmd/aws-secrets-webhook/registry/cache.go:27-41 | Get after Put returns the value put, whatever the cache held before |
| `ImageCache.LastPutWins` | cmd/aws-secrets-webhook/registry/cache.go:37-41 | a second Put under the same key replaces the first |
| `ImageCache.PutKeepsOtherKeys` | cmd/secrets-init-webhook/registry/cache.go:37-41 | a Put under one key leaves what another key returns unchanged |
| `ImageCache.GetTwice` | cmd/aws-secrets-webhook/registry/cache.go:26-34 | Get does not change the cache: two Gets agree, and they hit iff the key was put |
| `Registry.PullSecretNames` | cmd/secrets-init-webhook/registry/registry.go:76-78 | the pull-secret names of the pod, one per reference, in declared order |
| `Registry.ContainerInfoOf` | cmd/secrets-init-webhook/registry/registry.go:71-78 | the keychain request carries the namespace, the pod's service account and its pull-secret names in declared order |
| `Registry.GetKeychain` | cmd/secrets-init-webhook/registry/registry.go:93-125 | definition: the pod's keychain, combined with the default pull secret's when both default settings are set; either failure is a `RegistryFailure` message under its own prefix |
| `Registry.PodKeychainErrorIsReturned` | cmd/secrets-init-webhook/registry/registry.go:105-108 | a pod keychain that cannot be built is the error, whatever the settings and the default pull secret |
| `Registry.DefaultChainOnlyWhenConfigured` | cmd/secrets-init-webhook/registry/registry.go:110 | unless both the default pull secret and its namespace are set, the pod's keychain is used alone and the default chain is never consulted |
| `Registry.DefaultChainIsChained` | cmd/secrets-init-webhook/registry/registry.go:110-122 | when both are set, the default pull secret's keychain is built in its namespace and follows the pod's; its failure is the error |
| `Registry.FetchImageConfig` | cmd/secrets-init-webhook/registry/registry.go:128-161 | definition: the fetched configuration under the keychain and the TLS flag, or the fetch's message as a `RegistryFailure` |
| `Registry.Lookup` | cmd/secrets-init-webhook/registry/registry.go:66-91 | definition: the answer and the cache after one `GetImageConfig`; its properties are the lemmas below |
| `Registry.HitConsultsNothing` | cmd/secrets-init-webhook/registry/registry.go:67-69 | on a hit the cached configuration is the answer and the cache is unchanged, whatever the settings, keychains and registry would say |
| `Registry.KeychainErrorIsReturned` | cmd/secrets-init-webhook/registry/registry.go:80-83 | on a miss, a keychain error is the answer and the cache is unchanged |
| `Registry.MissFetches` | cmd/secrets-init-webhook/registry/registry.go:85-90 | otherwise the registry is asked with the keychain and the configured TLS flag; a configuration is returned and stored under the container's image, and a failure is returned as the fetch's message and nothing is stored |
| `Registry.LookupOnlyAdds` | cmd/secrets-init-webhook/registry/registry.go:66-91 | a lookup never changes a stored entry and adds at most the container's image; it succeeds iff the image is then cached, with the returned configuration |
| `Registry.SecondLookupHits` | cmd/secrets-init-webhook/registry/registry.go:67-69 | after a successful lookup, looking the same image up again returns the same configuration and changes nothing, for any pod and any keychain and registry |
| `Registry.CachingIsTransparent` | cmd/secrets-init-webhook/registry/registry.go:66-91 | while the cache agrees with the registry under the pod's keychain, every lookup answers what an uncached fetch would, and the cache keeps agreeing |
| `Registry.Registry.constructor` | cmd/secrets-init-webhook/registry/registry.go:54-62 | a new registry has an empty cache of its own and the given TLS, config-key and default pull-secret settings |
| `Registry.Registry.GetImageConfig` | cmd/secrets-init-webhook/registry/registry.go:66-91 | the answer and the cache afterwards are `Lookup`'s; a hit requests no keychain and fetches nothing; a miss requests one keychain from the pod's pull secrets, and fetches only if the keychain, with the default chain when configured, can be built |

## Left out

- HTTP serving, TLS, metrics, the command-line flags, the logger and the
  Kubernetes client: I/O outside the decision logic. The cluster's
  ConfigMaps and Secrets are a lookup table (`Kube.Cluster`).
- The `context.Context` arguments, which carry no data the decisions use.
- The services behind `getKeychain` and `getImageConfig` in `registry.go`:
  `k8schain.New`, the default pull secret's `kubernetes.New`,
  `authn.NewMultiKeychain` and the network fetch of an image's
  configuration. They are the functions of `Registry.Backend`, and their
  errors are the reasons they return. The TLS flag is passed to the fetch
  and not interpreted.
- The stages inside the image fetch: parsing the reference, getting the
  descriptor, the image and its config file each wrap their own error in
  `getImageConfig`. The model's fetch is one service, and its message is
  taken to name the stage. The two keychain failures are
  `Kube.RegistryFailure` messages with `getKeychain`'s prefixes in front
  of the service's message, as `fmt.Errorf` builds them; `%w`'s error
  chain is not modelled.
- `dockerConfigJSONKey`: `NewRegistry` stores it, and nothing in
  `registry.go` reads it. The model stores it too.
- The mutexes of both caches: they order concurrent requests only. `Get`
  and `Put` run one at a time here.
- `Put` with a nil configuration, which would panic in Go. `GetImageConfig`
  never does this, and `Put` takes a value here.
- The AWS variant's `registry.go` is not part of this model. Its
  `cache.go` is covered by the same generic class.
- `isNewImage` and `parseContainerImage`, whose source is not part of this
  model.
- The two call sites disagree with the shown `registry.go` signatures:
  `GetImageConfig` is called without a context, and `NewRegistry` with no
  arguments. In the mutators the registry is the function
  `Kube.ImageRegistry` of the namespace, the container and the pod.
- Resource quantities are kept as the strings `resource.MustParse` reads.
- Secret data is kept as strings, since Go's `string([]byte)` copies the
  bytes unchanged.
- Go's map iteration order is left open. A fetched object's bindings are
  specified as a set, and the methods may produce any order of it.
- `AwsSecretsWebhook.GetInitContainers`: the parameters
  `originalContainers`, `podSecurityContext`, `containerEnvVars` and
  `containerVolMounts` are unused by the source and are not modelled.
- The `containerEnvVars` and `containerVolMounts` values that the AWS
  variant's `mutatePod` builds only feed those unused parameters, and are
  not modelled.
- The current variant's early return on an empty slice in
  `mutateContainers` gives the same result as running the loop over no
  containers, so one loop models both variants.
- Of the `Optional` flags, a nil pointer reads as `false`.
- The behaviour of objects other than pods in `secretsMutator`: they are
  passed through untouched, and are modelled only by their kind.
