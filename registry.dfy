/** Registry.GetImageConfig of the current variant: the image configuration
    of a container's image, served from the in-memory cache when the image
    was fetched before, otherwise fetched with a keychain built from the
    pod's pull credentials, and from the default pull secret when one is
    configured, and then cached. The services the keychains and the fetch
    come from are left to the caller as functions. */
module Registry {
  import opened Wrappers
  import opened Kube
  import opened ImageCache

  /** What the keychain is built from (containerInfo). */
  datatype ContainerInfo = ContainerInfo(namespace: string, imagePullSecrets: seq<string>, serviceAccountName: string)

  /** The settings NewRegistry stores. */
  datatype RegistrySettings = RegistrySettings(
    registrySkipVerify: bool,
    dockerConfigJSONKey: string,
    defaultImagePullSecret: string,
    defaultImagePullSecretNamespace: string)

  /** The services the registry client calls, with their errors as the
      messages they give: k8schain.New for the pod's credentials,
      kubernetes.New for the default pull secret (namespace, then secret
      name), authn.NewMultiKeychain, and the remote fetch of an image's
      configuration under a keychain, with the TLS skip flag. */
  datatype Backend<!K> = Backend(
    k8sChain: ContainerInfo -> Result<K, string>,
    defaultChain: (string, string) -> Result<K, string>,
    multiKeychain: (K, K) -> K,
    fetch: (K, string, bool) -> Result<ImageConfig, string>)

  /** The names of the pod's image pull secrets, in declared order. */
  function PullSecretNames(refs: seq<LocalObjectReference>): (names: seq<string>)
    ensures |names| == |refs|
    ensures forall i :: 0 <= i < |refs| ==> names[i] == refs[i].name
  {
    if refs == [] then [] else PullSecretNames(refs[..|refs| - 1]) + [refs[|refs| - 1].name]
  }

  /** The keychain request for a container of `pod` in `namespace`. */
  function ContainerInfoOf(namespace: string, pod: PodIdentity): (info: ContainerInfo)
    ensures info.namespace == namespace && info.serviceAccountName == pod.serviceAccountName
    ensures |info.imagePullSecrets| == |pod.imagePullSecrets|
    ensures forall i :: 0 <= i < |pod.imagePullSecrets| ==> info.imagePullSecrets[i] == pod.imagePullSecrets[i].name
  {
    ContainerInfo(namespace, PullSecretNames(pod.imagePullSecrets), pod.serviceAccountName)
  }

  /** The prefixes getKeychain puts in front of the two keychain errors. */
  const K8sChainFailure := "failed to create k8schain authentication: "
  const DefaultChainFailure := "failed to create default chain authentication: "

  /** A default pull secret is chained in only when both its name and its
      namespace are configured. */
  predicate UsesDefaultChain(settings: RegistrySettings) {
    settings.defaultImagePullSecretNamespace != "" && settings.defaultImagePullSecret != ""
  }

  /** getKeychain: the pod's keychain, followed by the default pull secret's
      when one is configured; either failure is wrapped and returned. */
  function GetKeychain<K>(settings: RegistrySettings, backend: Backend<K>, info: ContainerInfo): Result<K, Error> {
    match backend.k8sChain(info)
    case Err(message) => Err(RegistryFailure(K8sChainFailure + message))
    case Ok(keychain) =>
      if !UsesDefaultChain(settings) then Ok(keychain)
      else
        match backend.defaultChain(settings.defaultImagePullSecretNamespace, settings.defaultImagePullSecret)
        case Err(message) => Err(RegistryFailure(DefaultChainFailure + message))
        case Ok(defaultKeychain) => Ok(backend.multiKeychain(keychain, defaultKeychain))
  }

  /** A pod keychain that cannot be built is the error, whatever the
      settings and the default pull secret. */
  lemma PodKeychainErrorIsReturned<K>(settings: RegistrySettings, backend: Backend<K>, info: ContainerInfo)
    requires backend.k8sChain(info).Err?
    ensures GetKeychain(settings, backend, info) == Err(RegistryFailure(K8sChainFailure + backend.k8sChain(info).error))
  {
  }

  /** Without a configured default pull secret the pod's keychain is used
      alone, and the default chain is never consulted: any other default
      chain and multi-keychain give the same answer. */
  lemma DefaultChainOnlyWhenConfigured<K>(settings: RegistrySettings, backend: Backend<K>, info: ContainerInfo,
                                          defaultChain: (string, string) -> Result<K, string>, multiKeychain: (K, K) -> K)
    requires !UsesDefaultChain(settings)
    ensures GetKeychain(settings, backend, info)
         == GetKeychain(settings, backend.(defaultChain := defaultChain, multiKeychain := multiKeychain), info)
    ensures backend.k8sChain(info).Ok? ==> GetKeychain(settings, backend, info) == Ok(backend.k8sChain(info).value)
  {
  }

  /** With a configured default pull secret, the default keychain is built
      from that secret in its namespace and comes after the pod's: the two
      are combined in that order, or the default chain's failure is the
      error. */
  lemma DefaultChainIsChained<K>(settings: RegistrySettings, backend: Backend<K>, info: ContainerInfo)
    requires UsesDefaultChain(settings) && backend.k8sChain(info).Ok?
    ensures var d := backend.defaultChain(settings.defaultImagePullSecretNamespace, settings.defaultImagePullSecret);
            (d.Ok? ==> GetKeychain(settings, backend, info) == Ok(backend.multiKeychain(backend.k8sChain(info).value, d.value))) &&
            (d.Err? ==> GetKeychain(settings, backend, info) == Err(RegistryFailure(DefaultChainFailure + d.error)))
  {
  }

  /** getImageConfig: the fetched configuration, or the fetch failure. */
  function FetchImageConfig<K>(backend: Backend<K>, keychain: K, image: string, skipVerify: bool): Result<ImageConfig, Error> {
    match backend.fetch(keychain, image, skipVerify)
    case Ok(config) => Ok(config)
    case Err(message) => Err(RegistryFailure(message))
  }

  /** One lookup as a value: the answer and the cache after it. Keyed by the
      container's image string; a hit consults no service; a keychain error
      and a failed fetch leave the cache as it was; a fetched configuration
      is stored and returned. */
  function Lookup<K>(cache: map<string, ImageConfig>, settings: RegistrySettings, namespace: string,
                     container: Container, pod: PodIdentity, backend: Backend<K>): (Result<ImageConfig, Error>, map<string, ImageConfig>)
  {
    if container.image in cache then (Ok(cache[container.image]), cache)
    else
      match GetKeychain(settings, backend, ContainerInfoOf(namespace, pod))
      case Err(e) => (Err(e), cache)
      case Ok(keychain) =>
        var fetched := FetchImageConfig(backend, keychain, container.image, settings.registrySkipVerify);
        if fetched.Ok? then (fetched, cache[container.image := fetched.value]) else (fetched, cache)
  }

  /** A hit answers the cached configuration and changes nothing, whatever
      the keychains and the registry would say. */
  lemma HitConsultsNothing<K>(cache: map<string, ImageConfig>, settings: RegistrySettings, namespace: string,
                              container: Container, pod: PodIdentity, backend: Backend<K>)
    requires container.image in cache
    ensures Lookup(cache, settings, namespace, container, pod, backend) == (Ok(cache[container.image]), cache)
  {
  }

  /** On a miss, a keychain that cannot be built is the answer, and the
      cache is left as it was. */
  lemma KeychainErrorIsReturned<K>(cache: map<string, ImageConfig>, settings: RegistrySettings, namespace: string,
                                   container: Container, pod: PodIdentity, backend: Backend<K>)
    requires container.image !in cache && GetKeychain(settings, backend, ContainerInfoOf(namespace, pod)).Err?
    ensures Lookup(cache, settings, namespace, container, pod, backend)
         == (Err(GetKeychain(settings, backend, ContainerInfoOf(namespace, pod)).error), cache)
  {
  }

  /** On a miss with a keychain, the registry's answer is returned, fetched
      with the pod's keychain and the configured TLS setting; it is cached
      exactly when it is a configuration. */
  lemma MissFetches<K>(cache: map<string, ImageConfig>, settings: RegistrySettings, namespace: string,
                       container: Container, pod: PodIdentity, backend: Backend<K>)
    requires container.image !in cache && GetKeychain(settings, backend, ContainerInfoOf(namespace, pod)).Ok?
    ensures var keychain := GetKeychain(settings, backend, ContainerInfoOf(namespace, pod)).value;
            var fetched := backend.fetch(keychain, container.image, settings.registrySkipVerify);
            var (r, cache') := Lookup(cache, settings, namespace, container, pod, backend);
            (fetched.Ok? ==> r == Ok(fetched.value) && cache' == cache[container.image := fetched.value]) &&
            (fetched.Err? ==> r == Err(RegistryFailure(fetched.error)) && cache' == cache)
  {
  }

  /** The cache only ever gains entries: an entry once stored keeps its
      value, at most the container's image is added, and a successful
      answer is what the cache now holds for that image. */
  lemma LookupOnlyAdds<K>(cache: map<string, ImageConfig>, settings: RegistrySettings, namespace: string,
                          container: Container, pod: PodIdentity, backend: Backend<K>)
    ensures var (r, cache') := Lookup(cache, settings, namespace, container, pod, backend);
            cache'.Keys <= cache.Keys + {container.image} &&
            (forall k :: k in cache ==> k in cache' && cache'[k] == cache[k]) &&
            (r.Ok? <==> container.image in cache') &&
            (r.Ok? ==> cache'[container.image] == r.value)
  {
  }

  /** A second lookup of the same image after a successful one is a hit:
      it returns the same configuration, for any pod, namespace and
      settings and whatever the services would now answer, and changes
      nothing. */
  lemma SecondLookupHits<K>(cache: map<string, ImageConfig>, settings: RegistrySettings,
                            namespace: string, container: Container, pod: PodIdentity, backend: Backend<K>,
                            settings2: RegistrySettings, namespace2: string, pod2: PodIdentity, backend2: Backend<K>)
    requires Lookup(cache, settings, namespace, container, pod, backend).0.Ok?
    ensures var (r, cache') := Lookup(cache, settings, namespace, container, pod, backend);
            Lookup(cache', settings2, namespace2, container, pod2, backend2) == (r, cache')
  {
  }

  /** Entries that agree with what the registry serves under one keychain. */
  ghost predicate Coherent<K>(cache: map<string, ImageConfig>, skipVerify: bool, keychain: K, backend: Backend<K>)
  {
    forall image :: image in cache ==> FetchImageConfig(backend, keychain, image, skipVerify) == Ok(cache[image])
  }

  /** As long as the cache agrees with the registry and a keychain can be
      built, caching is invisible: every lookup answers what an uncached
      fetch would, and the cache keeps agreeing. This is why the mutators
      may treat the registry as a function of the container. */
  lemma CachingIsTransparent<K>(cache: map<string, ImageConfig>, settings: RegistrySettings, namespace: string,
                                container: Container, pod: PodIdentity, backend: Backend<K>)
    requires GetKeychain(settings, backend, ContainerInfoOf(namespace, pod)).Ok?
    requires Coherent(cache, settings.registrySkipVerify, GetKeychain(settings, backend, ContainerInfoOf(namespace, pod)).value, backend)
    ensures var keychain := GetKeychain(settings, backend, ContainerInfoOf(namespace, pod)).value;
            var (r, cache') := Lookup(cache, settings, namespace, container, pod, backend);
            r == FetchImageConfig(backend, keychain, container.image, settings.registrySkipVerify) &&
            Coherent(cache', settings.registrySkipVerify, keychain, backend)
  {
  }

  class Registry {
    const imageCache: InMemoryImageCache<ImageConfig>
    const registrySkipVerify: bool
    const dockerConfigJSONKey: string
    const defaultImagePullSecret: string
    const defaultImagePullSecretNamespace: string
    /** The pod keychains requested and the images fetched, in order. */
    ghost var keychainRequests: seq<ContainerInfo>
    ghost var fetches: seq<string>

    /** NewRegistry: an empty cache and the configured settings. */
    constructor (skipVerify: bool, configJSONKey: string, imagePullSecret: string, imagePullSecretNamespace: string)
      ensures fresh(imageCache) && imageCache.cache == map[]
      ensures Settings() == RegistrySettings(skipVerify, configJSONKey, imagePullSecret, imagePullSecretNamespace)
      ensures keychainRequests == [] && fetches == []
    {
      imageCache := new InMemoryImageCache<ImageConfig>();
      registrySkipVerify := skipVerify;
      dockerConfigJSONKey := configJSONKey;
      defaultImagePullSecret := imagePullSecret;
      defaultImagePullSecretNamespace := imagePullSecretNamespace;
      keychainRequests := [];
      fetches := [];
    }

    function Settings(): RegistrySettings {
      RegistrySettings(registrySkipVerify, dockerConfigJSONKey, defaultImagePullSecret, defaultImagePullSecretNamespace)
    }

    /** GetImageConfig: answers and updates the cache as Lookup says; a hit
        requests no keychain and fetches nothing, a miss requests the pod's
        keychain once and fetches only when the keychain can be built. */
    method GetImageConfig<K>(namespace: string, container: Container, pod: PodIdentity, backend: Backend<K>)
      returns (r: Result<ImageConfig, Error>)
      modifies this, imageCache
      ensures (r, imageCache.cache) == Lookup(old(imageCache.cache), Settings(), namespace, container, pod, backend)
      ensures container.image in old(imageCache.cache) ==> keychainRequests == old(keychainRequests) && fetches == old(fetches)
      ensures container.image !in old(imageCache.cache) ==>
                keychainRequests == old(keychainRequests) + [ContainerInfoOf(namespace, pod)] &&
                fetches == old(fetches) + (if GetKeychain(Settings(), backend, ContainerInfoOf(namespace, pod)).Ok? then [container.image] else [])
    {
      var cached := imageCache.Get(container.image);
      if cached.Some? {
        return Ok(cached.value);
      }

      var names: seq<string> := [];
      var i := 0;
      while i < |pod.imagePullSecrets|
        invariant 0 <= i <= |pod.imagePullSecrets|
        invariant names == PullSecretNames(pod.imagePullSecrets[..i])
      {
        assert pod.imagePullSecrets[..i + 1][..i] == pod.imagePullSecrets[..i];
        names := names + [pod.imagePullSecrets[i].name];
        i := i + 1;
      }
      assert pod.imagePullSecrets[..i] == pod.imagePullSecrets;
      var info := ContainerInfo(namespace, names, pod.serviceAccountName);

      keychainRequests := keychainRequests + [info];
      var keychain := GetKeychain(Settings(), backend, info);
      if keychain.Err? {
        return Err(keychain.error);
      }

      fetches := fetches + [container.image];
      r := FetchImageConfig(backend, keychain.value, container.image, registrySkipVerify);
      if r.Ok? {
        imageCache.Put(container.image, r.value);
      }
    }
  }
}
