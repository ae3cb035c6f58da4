/** Resolution of a container's environment into the secret-tagged bindings
    that decide whether the container is rewritten: lookForEnvFrom,
    lookForValueFrom and the scan over `env` in mutateContainers. Both
    webhook variants share this code; they differ only in the predicate
    `isSecret` that tells a secret reference from a plain value. */
module Env {
  import opened Wrappers
  import opened Kube

  /** The bindings a fetched ConfigMap or Secret contributes through envFrom,
      for the keys in `keys`: every key whose value is a secret reference. */
  function SecretBindings(isSecret: string -> bool, data: map<string, string>, keys: set<string>): set<EnvVar> {
    set k | k in keys && k in data && isSecret(data[k]) :: EnvVar(k, data[k], None)
  }

  /** `s` lists the elements of `block`, each once, in some order. Go leaves
      the order of a map's keys unspecified, so this is all the source fixes
      about the bindings of one object. */
  ghost predicate Enumerates(s: seq<EnvVar>, block: set<EnvVar>)
    decreases |s|
  {
    if s == [] then block == {}
    else s[|s| - 1] in block && Enumerates(s[..|s| - 1], block - {s[|s| - 1]})
  }

  /** An enumeration lists exactly the elements of the block, as many as the
      block has, so none twice. */
  lemma {:induction false} EnumeratesMembers(s: seq<EnvVar>, block: set<EnvVar>)
    requires Enumerates(s, block)
    ensures |s| == |block|
    ensures forall x :: x in s <==> x in block
    decreases |s|
  {
    if s != [] {
      var last := s[|s| - 1];
      var init := s[..|s| - 1];
      EnumeratesMembers(init, block - {last});
      assert s == init + [last];
      assert block == (block - {last}) + {last};
    }
  }

  /** `s` is the concatenation of enumerations of `blocks`, in order. */
  ghost predicate Flattens(s: seq<EnvVar>, blocks: seq<set<EnvVar>>)
    decreases |blocks|
  {
    if blocks == [] then s == []
    else
      |blocks[0]| <= |s| && Enumerates(s[..|blocks[0]|], blocks[0]) && Flattens(s[|blocks[0]|..], blocks[1..])
  }

  /** The number of bindings in all blocks. */
  function TotalSize(blocks: seq<set<EnvVar>>): nat {
    if blocks == [] then 0 else |blocks[0]| + TotalSize(blocks[1..])
  }

  lemma {:induction false} FlattensLength(s: seq<EnvVar>, blocks: seq<set<EnvVar>>)
    requires Flattens(s, blocks)
    ensures |s| == TotalSize(blocks)
    decreases |blocks|
  {
    if blocks != [] {
      FlattensLength(s[|blocks[0]|..], blocks[1..]);
    }
  }

  lemma {:induction false} FlattensAppend(s: seq<EnvVar>, blocks: seq<set<EnvVar>>, t: seq<EnvVar>, block: set<EnvVar>)
    requires Flattens(s, blocks) && Enumerates(t, block)
    ensures Flattens(s + t, blocks + [block])
    decreases |blocks|
  {
    if blocks == [] {
      EnumeratesMembers(t, block);
      assert s + t == t;
      assert t[..|block|] == t;
      assert (blocks + [block])[1..] == [];
    } else {
      var n := |blocks[0]|;
      FlattensAppend(s[n..], blocks[1..], t, block);
      assert (s + t)[..n] == s[..n];
      assert (s + t)[n..] == s[n..] + t;
      assert (blocks + [block])[1..] == blocks[1..] + [block];
    }
  }

  /** A flattening is empty exactly when every fetched object contributed
      nothing, which is what the `len(envVars) == 0` test asks. */
  lemma {:induction false} TotalSizeZero(s: seq<EnvVar>, blocks: seq<set<EnvVar>>)
    requires Flattens(s, blocks)
    ensures |s| == 0 <==> forall j :: 0 <= j < |blocks| ==> blocks[j] == {}
    ensures TotalSize(blocks) == 0 <==> forall j :: 0 <= j < |blocks| ==> blocks[j] == {}
    decreases |blocks|
  {
    FlattensLength(s, blocks);
    if blocks != [] {
      TotalSizeZero(s[|blocks[0]|..], blocks[1..]);
      assert forall j :: 1 <= j < |blocks| ==> blocks[j] == blocks[1..][j - 1];
    }
  }

  /** What one ConfigMapRef or SecretRef of an envFrom entry yields. */
  datatype RefOutcome = Bound(block: set<EnvVar>) | Skipped | LookupFailed(error: Error)

  function FetchRef(isSecret: string -> bool, cluster: Cluster, kind: Kind, ref: EnvSource, ns: string): RefOutcome {
    match GetData(cluster, kind, ns, ref.name)
    case Ok(data) => Bound(SecretBindings(isSecret, data, data.Keys))
    case Err(e) => if e.NotFound? && ref.optional then Skipped else LookupFailed(e)
  }

  /** The blocks gathered from envFrom, one per object fetched, and the error
      that stopped the gathering, if any. */
  datatype EnvFromOutcome = EnvFromOutcome(blocks: seq<set<EnvVar>>, err: Option<Error>)

  /** One envFrom entry: the ConfigMap first, then the Secret. A skipped
      ConfigMap skips the whole entry, its SecretRef included. */
  function EntryOutcome(isSecret: string -> bool, cluster: Cluster, ef: EnvFromSource, ns: string): EnvFromOutcome {
    var cm := if ef.configMapRef.Some? then Some(FetchRef(isSecret, cluster, ConfigMapKind, ef.configMapRef.value, ns)) else None;
    if cm == Some(Skipped) then EnvFromOutcome([], None)
    else if cm.Some? && cm.value.LookupFailed? then EnvFromOutcome([], Some(cm.value.error))
    else
      var cmBlocks := if cm.Some? then [cm.value.block] else [];
      var sec := if ef.secretRef.Some? then Some(FetchRef(isSecret, cluster, SecretKind, ef.secretRef.value, ns)) else None;
      if sec.Some? && sec.value.LookupFailed? then EnvFromOutcome(cmBlocks, Some(sec.value.error))
      else if sec.Some? && sec.value.Bound? then EnvFromOutcome(cmBlocks + [sec.value.block], None)
      else EnvFromOutcome(cmBlocks, None)
  }

  /** The envFrom entries in declared order, stopping at the first error. */
  function EnvFromSpec(isSecret: string -> bool, cluster: Cluster, envFrom: seq<EnvFromSource>, ns: string): EnvFromOutcome
    decreases |envFrom|
  {
    if envFrom == [] then EnvFromOutcome([], None)
    else
      var p := EnvFromSpec(isSecret, cluster, envFrom[..|envFrom| - 1], ns);
      if p.err.Some? then p
      else
        var e := EntryOutcome(isSecret, cluster, envFrom[|envFrom| - 1], ns);
        EnvFromOutcome(p.blocks + e.blocks, e.err)
  }

  /** A fetched object contributes exactly its keys whose values are secret
      references; the other keys are dropped without error. */
  lemma SecretBindingsExact(isSecret: string -> bool, data: map<string, string>, x: EnvVar)
    ensures x in SecretBindings(isSecret, data, data.Keys) <==>
            x.name in data && data[x.name] == x.value && isSecret(x.value) && x.valueFrom.None?
  {
  }

  /** Entries are consulted in declared order: the outcome of `xs + ys` is
      that of `xs`, followed, when `xs` gave no error, by that of `ys`. */
  lemma {:induction false} EnvFromConcat(isSecret: string -> bool, cluster: Cluster, xs: seq<EnvFromSource>, ys: seq<EnvFromSource>, ns: string)
    ensures var p := EnvFromSpec(isSecret, cluster, xs, ns);
            var q := EnvFromSpec(isSecret, cluster, ys, ns);
            EnvFromSpec(isSecret, cluster, xs + ys, ns) ==
              if p.err.Some? then p else EnvFromOutcome(p.blocks + q.blocks, q.err)
    decreases |ys|
  {
    if ys == [] {
      assert xs + ys == xs;
    } else {
      var ys' := ys[..|ys| - 1];
      EnvFromConcat(isSecret, cluster, xs, ys', ns);
      assert (xs + ys)[..|xs + ys| - 1] == xs + ys';
      assert (xs + ys)[|xs + ys| - 1] == ys[|ys| - 1];
      var p := EnvFromSpec(isSecret, cluster, xs, ns);
      var q' := EnvFromSpec(isSecret, cluster, ys', ns);
      if p.err.None? && q'.err.None? {
        var e := EntryOutcome(isSecret, cluster, ys[|ys| - 1], ns);
        assert (p.blocks + q'.blocks) + e.blocks == p.blocks + (q'.blocks + e.blocks);
      }
    }
  }

  /** An entry whose optional ConfigMap does not exist changes nothing, even
      when the same entry also names a Secret. */
  lemma OptionalMissingConfigMapSkipsEntry(isSecret: string -> bool, cluster: Cluster, xs: seq<EnvFromSource>, ef: EnvFromSource, ys: seq<EnvFromSource>, ns: string)
    requires ef.configMapRef.Some? && ef.configMapRef.value.optional
    requires ObjectKey(ConfigMapKind, ns, ef.configMapRef.value.name) !in cluster
    ensures EnvFromSpec(isSecret, cluster, xs + [ef] + ys, ns) == EnvFromSpec(isSecret, cluster, xs + ys, ns)
  {
    SkippedEntryIsEmpty(isSecret, cluster, ef, ns);
    EnvFromConcat(isSecret, cluster, xs, [ef], ns);
    EnvFromConcat(isSecret, cluster, xs + [ef], ys, ns);
    EnvFromConcat(isSecret, cluster, xs, ys, ns);
    assert [ef][..0] == [];
    assert EnvFromSpec(isSecret, cluster, [ef], ns) == EnvFromOutcome([], None);
  }

  lemma SkippedEntryIsEmpty(isSecret: string -> bool, cluster: Cluster, ef: EnvFromSource, ns: string)
    requires ef.configMapRef.Some? && ef.configMapRef.value.optional
    requires ObjectKey(ConfigMapKind, ns, ef.configMapRef.value.name) !in cluster
    ensures EntryOutcome(isSecret, cluster, ef, ns) == EnvFromOutcome([], None)
  {
  }

  /** A required ConfigMap that does not exist, or one whose lookup fails for
      another reason, stops the gathering with that error; the blocks
      gathered before it are kept and later entries are not consulted. */
  lemma ConfigMapErrorStops(isSecret: string -> bool, cluster: Cluster, xs: seq<EnvFromSource>, ef: EnvFromSource, ys: seq<EnvFromSource>, ns: string)
    requires EnvFromSpec(isSecret, cluster, xs, ns).err.None?
    requires ef.configMapRef.Some?
    requires var key := ObjectKey(ConfigMapKind, ns, ef.configMapRef.value.name);
             (key !in cluster && !ef.configMapRef.value.optional) || (key in cluster && cluster[key].Unavailable?)
    ensures var key := ObjectKey(ConfigMapKind, ns, ef.configMapRef.value.name);
            var r := EnvFromSpec(isSecret, cluster, xs + [ef] + ys, ns);
            r.blocks == EnvFromSpec(isSecret, cluster, xs, ns).blocks &&
            r.err == Some(if key in cluster then ApiFailure(key, cluster[key].reason) else NotFound(key))
  {
    EnvFromConcat(isSecret, cluster, xs, [ef], ns);
    EnvFromConcat(isSecret, cluster, xs + [ef], ys, ns);
    assert [ef][..0] == [];
  }

  /** The value stored under a selector's key; a missing key reads as the
      empty string, as indexing a Go map does. */
  function SelectedValue(cluster: Cluster, kind: Kind, sel: KeySelector, ns: string): Result<string, Error> {
    match GetData(cluster, kind, ns, sel.name)
    case Ok(data) => Ok(if sel.key in data then data[sel.key] else "")
    case Err(e) => Err(e)
  }

  /** One selector of a valueFrom: the binding when its value is a secret
      reference, nothing when it is not, or the lookup error. */
  function Pick(isSecret: string -> bool, cluster: Cluster, kind: Kind, sel: KeySelector, name: string, ns: string): Result<Option<EnvVar>, Error> {
    match SelectedValue(cluster, kind, sel, ns)
    case Ok(v) => if isSecret(v) then Ok(Some(EnvVar(name, v, None))) else Ok(None)
    case Err(e) => Err(e)
  }

  /** The selector, if present, resolves to a value that is not a secret
      reference. */
  ghost predicate Declines(isSecret: string -> bool, cluster: Cluster, kind: Kind, sel: Option<KeySelector>, ns: string) {
    sel.Some? ==> SelectedValue(cluster, kind, sel.value, ns).Ok? && !isSecret(SelectedValue(cluster, kind, sel.value, ns).value)
  }

  /** lookForValueFrom: the ConfigMap selector is tried first; the Secret
      selector is consulted only when the ConfigMap one yields nothing. */
  function LookForValueFrom(isSecret: string -> bool, cluster: Cluster, env: EnvVar, ns: string): (r: Result<Option<EnvVar>, Error>)
    requires env.valueFrom.Some?
    ensures r.Ok? && r.value.Some? ==>
              r.value.value.name == env.name && r.value.value.valueFrom.None? && isSecret(r.value.value.value) &&
              ((env.valueFrom.value.configMapKeyRef.Some? &&
                SelectedValue(cluster, ConfigMapKind, env.valueFrom.value.configMapKeyRef.value, ns) == Ok(r.value.value.value)) ||
               (env.valueFrom.value.secretKeyRef.Some? &&
                SelectedValue(cluster, SecretKind, env.valueFrom.value.secretKeyRef.value, ns) == Ok(r.value.value.value)))
    ensures r == Ok(None) <==>
              Declines(isSecret, cluster, ConfigMapKind, env.valueFrom.value.configMapKeyRef, ns) &&
              Declines(isSecret, cluster, SecretKind, env.valueFrom.value.secretKeyRef, ns)
    ensures r.Err? ==>
              (env.valueFrom.value.configMapKeyRef.Some? &&
               SelectedValue(cluster, ConfigMapKind, env.valueFrom.value.configMapKeyRef.value, ns) == Err(r.error)) ||
              (env.valueFrom.value.secretKeyRef.Some? &&
               SelectedValue(cluster, SecretKind, env.valueFrom.value.secretKeyRef.value, ns) == Err(r.error))
    ensures env.valueFrom.value.configMapKeyRef.Some? &&
            SelectedValue(cluster, ConfigMapKind, env.valueFrom.value.configMapKeyRef.value, ns).Ok? &&
            isSecret(SelectedValue(cluster, ConfigMapKind, env.valueFrom.value.configMapKeyRef.value, ns).value) ==>
              r == Ok(Some(EnvVar(env.name, SelectedValue(cluster, ConfigMapKind, env.valueFrom.value.configMapKeyRef.value, ns).value, None)))
    ensures env.valueFrom.value.configMapKeyRef.Some? &&
            SelectedValue(cluster, ConfigMapKind, env.valueFrom.value.configMapKeyRef.value, ns).Err? ==>
              r == Err(SelectedValue(cluster, ConfigMapKind, env.valueFrom.value.configMapKeyRef.value, ns).error)
    ensures Declines(isSecret, cluster, ConfigMapKind, env.valueFrom.value.configMapKeyRef, ns) &&
            env.valueFrom.value.secretKeyRef.Some? &&
            SelectedValue(cluster, SecretKind, env.valueFrom.value.secretKeyRef.value, ns).Err? ==>
              r == Err(SelectedValue(cluster, SecretKind, env.valueFrom.value.secretKeyRef.value, ns).error)
    ensures Declines(isSecret, cluster, ConfigMapKind, env.valueFrom.value.configMapKeyRef, ns) &&
            env.valueFrom.value.secretKeyRef.Some? &&
            SelectedValue(cluster, SecretKind, env.valueFrom.value.secretKeyRef.value, ns).Ok? &&
            isSecret(SelectedValue(cluster, SecretKind, env.valueFrom.value.secretKeyRef.value, ns).value) ==>
              r == Ok(Some(EnvVar(env.name, SelectedValue(cluster, SecretKind, env.valueFrom.value.secretKeyRef.value, ns).value, None)))
  {
    var src := env.valueFrom.value;
    var fromSecret := if src.secretKeyRef.Some? then Pick(isSecret, cluster, SecretKind, src.secretKeyRef.value, env.name, ns) else Ok(None);
    if src.configMapKeyRef.Some? then
      var fromConfigMap := Pick(isSecret, cluster, ConfigMapKind, src.configMapKeyRef.value, env.name, ns);
      if fromConfigMap != Ok(None) then fromConfigMap else fromSecret
    else fromSecret
  }

  /** The bindings the scan over `env` collects, and the lookup error that
      stopped it, if any. */
  datatype EnvScanOutcome = EnvScanOutcome(bindings: seq<EnvVar>, err: Option<Error>)

  /** One entry of `env`: a literal value that is a secret reference is kept
      as it is, and then a valueFrom, if any, is resolved. */
  function EnvEntry(isSecret: string -> bool, cluster: Cluster, e: EnvVar, ns: string): EnvScanOutcome {
    var literal := if isSecret(e.value) then [e] else [];
    if e.valueFrom.None? then EnvScanOutcome(literal, None)
    else match LookForValueFrom(isSecret, cluster, e, ns)
      case Err(err) => EnvScanOutcome(literal, Some(err))
      case Ok(None) => EnvScanOutcome(literal, None)
      case Ok(Some(b)) => EnvScanOutcome(literal + [b], None)
  }

  /** The `env` list in declared order, stopping at the first error. */
  function EnvScan(isSecret: string -> bool, cluster: Cluster, env: seq<EnvVar>, ns: string): EnvScanOutcome
    decreases |env|
  {
    if env == [] then EnvScanOutcome([], None)
    else
      var p := EnvScan(isSecret, cluster, env[..|env| - 1], ns);
      if p.err.Some? then p
      else
        var e := EnvEntry(isSecret, cluster, env[|env| - 1], ns);
        EnvScanOutcome(p.bindings + e.bindings, e.err)
  }

  /** One more entry after a prefix of `env` that gave no error; an error in
      it is the error of the whole scan. */
  lemma EnvScanStep(isSecret: string -> bool, cluster: Cluster, env: seq<EnvVar>, i: nat, ns: string)
    requires i < |env|
    requires EnvScan(isSecret, cluster, env[..i], ns).err.None?
    ensures var e := EnvEntry(isSecret, cluster, env[i], ns);
            EnvScan(isSecret, cluster, env[..i + 1], ns) ==
              EnvScanOutcome(EnvScan(isSecret, cluster, env[..i], ns).bindings + e.bindings, e.err)
    ensures EnvEntry(isSecret, cluster, env[i], ns).err.Some? ==>
              EnvScan(isSecret, cluster, env, ns).err == EnvEntry(isSecret, cluster, env[i], ns).err
  {
    assert env[..i + 1][..i] == env[..i];
    if EnvEntry(isSecret, cluster, env[i], ns).err.Some? {
      EnvScanStops(isSecret, cluster, env, i + 1, ns);
    }
  }

  /** Once the scan has failed, later entries do not change the failure. */
  lemma {:induction false} EnvScanStops(isSecret: string -> bool, cluster: Cluster, env: seq<EnvVar>, k: nat, ns: string)
    requires k <= |env|
    requires EnvScan(isSecret, cluster, env[..k], ns).err.Some?
    ensures EnvScan(isSecret, cluster, env, ns).err == EnvScan(isSecret, cluster, env[..k], ns).err
    decreases |env| - k
  {
    if k < |env| {
      var env' := env[..|env| - 1];
      assert env'[..k] == env[..k];
      EnvScanStops(isSecret, cluster, env', k, ns);
    } else {
      assert env[..k] == env;
    }
  }

  /** Everything a container's environment refers to: the envFrom blocks,
      the env bindings, and the first error. */
  datatype SecretRefs = SecretRefs(blocks: seq<set<EnvVar>>, bindings: seq<EnvVar>, err: Option<Error>) {
    /** Some secret reference was found and no lookup failed. */
    predicate Found() {
      err.None? && (TotalSize(blocks) > 0 || |bindings| > 0)
    }
  }

  /** envFrom first, then env; an envFrom error skips the env scan. */
  function ContainerSecrets(isSecret: string -> bool, cluster: Cluster, c: Container, ns: string): SecretRefs {
    var fromEnvFrom := EnvFromSpec(isSecret, cluster, c.envFrom, ns);
    if fromEnvFrom.err.Some? then SecretRefs(fromEnvFrom.blocks, [], fromEnvFrom.err)
    else
      var fromEnv := EnvScan(isSecret, cluster, c.env, ns);
      SecretRefs(fromEnvFrom.blocks, fromEnv.bindings, fromEnv.err)
  }

  /** Appends the secret bindings of one fetched object, in the order the
      map happens to be iterated. */
  method AppendSecretBindings(isSecret: string -> bool, data: map<string, string>, envVars: seq<EnvVar>) returns (r: seq<EnvVar>)
    ensures |envVars| <= |r| && r[..|envVars|] == envVars
    ensures Enumerates(r[|envVars|..], SecretBindings(isSecret, data, data.Keys))
  {
    r := envVars;
    ghost var added: seq<EnvVar> := [];
    ghost var done: set<string> := {};
    var remaining := data.Keys;
    while remaining != {}
      invariant remaining <= data.Keys && done == data.Keys - remaining
      invariant r == envVars + added
      invariant Enumerates(added, SecretBindings(isSecret, data, done))
      decreases remaining
    {
      var key :| key in remaining;
      var value := data[key];
      EnumerateOneMore(isSecret, data, added, done, key);
      if isSecret(value) {
        r := r + [EnvVar(key, value, None)];
        added := added + [EnvVar(key, value, None)];
      } else {
        assert added + [] == added;
      }
      remaining := remaining - {key};
      done := done + {key};
    }
    assert done == data.Keys;
    assert r[|envVars|..] == added;
  }

  /** Taking one more key into account adds its binding when, and only
      when, its value is a secret reference. */
  lemma EnumerateOneMore(isSecret: string -> bool, data: map<string, string>, added: seq<EnvVar>, done: set<string>, key: string)
    requires key in data && key !in done
    requires Enumerates(added, SecretBindings(isSecret, data, done))
    ensures Enumerates(added + (if isSecret(data[key]) then [EnvVar(key, data[key], None)] else []),
                       SecretBindings(isSecret, data, done + {key}))
  {
    var e := EnvVar(key, data[key], None);
    assert e !in SecretBindings(isSecret, data, done);
    if isSecret(data[key]) {
      assert SecretBindings(isSecret, data, done + {key}) == SecretBindings(isSecret, data, done) + {e};
      assert (added + [e])[..|added|] == added;
      assert (SecretBindings(isSecret, data, done) + {e}) - {e} == SecretBindings(isSecret, data, done);
    } else {
      assert SecretBindings(isSecret, data, done + {key}) == SecretBindings(isSecret, data, done);
      assert added + [] == added;
    }
  }

  /** One more envFrom entry after a prefix that gave no error; an error in
      it is the error of the whole list. */
  lemma EnvFromStep(isSecret: string -> bool, cluster: Cluster, envFrom: seq<EnvFromSource>, i: nat, ns: string)
    requires i < |envFrom|
    requires EnvFromSpec(isSecret, cluster, envFrom[..i], ns).err.None?
    ensures var e := EntryOutcome(isSecret, cluster, envFrom[i], ns);
            EnvFromSpec(isSecret, cluster, envFrom[..i + 1], ns) ==
              EnvFromOutcome(EnvFromSpec(isSecret, cluster, envFrom[..i], ns).blocks + e.blocks, e.err)
    ensures EntryOutcome(isSecret, cluster, envFrom[i], ns).err.Some? ==>
              EnvFromSpec(isSecret, cluster, envFrom, ns) == EnvFromSpec(isSecret, cluster, envFrom[..i + 1], ns)
  {
    assert envFrom[..i + 1][..i] == envFrom[..i];
    if EntryOutcome(isSecret, cluster, envFrom[i], ns).err.Some? {
      EnvFromStops(isSecret, cluster, envFrom, i + 1, ns);
    }
  }

  /** Once the gathering has failed, later entries do not change it. */
  lemma {:induction false} EnvFromStops(isSecret: string -> bool, cluster: Cluster, envFrom: seq<EnvFromSource>, k: nat, ns: string)
    requires k <= |envFrom|
    requires EnvFromSpec(isSecret, cluster, envFrom[..k], ns).err.Some?
    ensures EnvFromSpec(isSecret, cluster, envFrom, ns) == EnvFromSpec(isSecret, cluster, envFrom[..k], ns)
    decreases |envFrom| - k
  {
    if k < |envFrom| {
      var init := envFrom[..|envFrom| - 1];
      assert init[..k] == envFrom[..k];
      EnvFromStops(isSecret, cluster, init, k, ns);
    } else {
      assert envFrom[..k] == envFrom;
    }
  }

  /** The block shared by the ConfigMapRef and SecretRef halves of the
      loop in lookForEnvFrom: fetch the object and, when it exists, append
      its secret bindings. */
  method AppendRef(isSecret: string -> bool, cluster: Cluster, kind: Kind, ref: EnvSource, ns: string,
                   envVars: seq<EnvVar>, ghost blocks: seq<set<EnvVar>>)
    returns (r: seq<EnvVar>, outcome: RefOutcome)
    requires Flattens(envVars, blocks)
    ensures outcome == FetchRef(isSecret, cluster, kind, ref, ns)
    ensures outcome.Bound? ==> Flattens(r, blocks + [outcome.block])
    ensures !outcome.Bound? ==> r == envVars
  {
    var got := GetData(cluster, kind, ns, ref.name);
    if got.Err? {
      if got.error.NotFound? && ref.optional {
        return envVars, Skipped;
      }
      return envVars, LookupFailed(got.error);
    }
    r := AppendSecretBindings(isSecret, got.value, envVars);
    outcome := Bound(SecretBindings(isSecret, got.value, got.value.Keys));
    assert r == envVars + r[|envVars|..];
    FlattensAppend(envVars, blocks, r[|envVars|..], outcome.block);
  }

  /** The body of the loop in lookForEnvFrom for one entry; an early
      return without error here is the loop's `continue`. */
  method LookForEntry(isSecret: string -> bool, cluster: Cluster, ef: EnvFromSource, ns: string,
                      envVars: seq<EnvVar>, ghost blocks: seq<set<EnvVar>>)
    returns (r: seq<EnvVar>, err: Option<Error>)
    requires Flattens(envVars, blocks)
    ensures err == EntryOutcome(isSecret, cluster, ef, ns).err
    ensures Flattens(r, blocks + EntryOutcome(isSecret, cluster, ef, ns).blocks)
  {
    ghost var entry := EntryOutcome(isSecret, cluster, ef, ns);
    ghost var cmBlocks: seq<set<EnvVar>> := [];
    r := envVars;
    if ef.configMapRef.Some? {
      var next, outcome := AppendRef(isSecret, cluster, ConfigMapKind, ef.configMapRef.value, ns, r, blocks);
      if outcome.Skipped? {
        assert blocks + entry.blocks == blocks;
        return r, None;
      } else if outcome.LookupFailed? {
        assert blocks + entry.blocks == blocks;
        return r, Some(outcome.error);
      }
      r := next;
      cmBlocks := [outcome.block];
    }
    assert entry.blocks[..|cmBlocks|] == cmBlocks;
    assert cmBlocks == [] ==> blocks + cmBlocks == blocks;
    if ef.secretRef.Some? {
      var next, outcome := AppendRef(isSecret, cluster, SecretKind, ef.secretRef.value, ns, r, blocks + cmBlocks);
      if outcome.Skipped? {
        return r, None;
      } else if outcome.LookupFailed? {
        return r, Some(outcome.error);
      }
      assert entry.blocks == cmBlocks + [outcome.block];
      assert blocks + cmBlocks + [outcome.block] == blocks + entry.blocks;
      return next, None;
    }
    err := None;
  }

  /** lookForEnvFrom: the bindings in envFrom order, each object's bindings
      in map order, and the first lookup error, with the bindings gathered
      before it. */
  method LookForEnvFrom(isSecret: string -> bool, cluster: Cluster, envFrom: seq<EnvFromSource>, ns: string)
    returns (envVars: seq<EnvVar>, err: Option<Error>)
    ensures Flattens(envVars, EnvFromSpec(isSecret, cluster, envFrom, ns).blocks)
    ensures err == EnvFromSpec(isSecret, cluster, envFrom, ns).err
  {
    envVars := [];
    var i := 0;
    while i < |envFrom|
      invariant 0 <= i <= |envFrom|
      invariant EnvFromSpec(isSecret, cluster, envFrom[..i], ns).err.None?
      invariant Flattens(envVars, EnvFromSpec(isSecret, cluster, envFrom[..i], ns).blocks)
    {
      EnvFromStep(isSecret, cluster, envFrom, i, ns);
      var e;
      envVars, e := LookForEntry(isSecret, cluster, envFrom[i], ns, envVars, EnvFromSpec(isSecret, cluster, envFrom[..i], ns).blocks);
      if e.Some? {
        return envVars, e;
      }
      i := i + 1;
    }
    assert envFrom[..i] == envFrom;
    err := None;
  }

  /** Every binding in `blocks` is a secret reference with a literal value. */
  ghost predicate AllSecret(isSecret: string -> bool, blocks: seq<set<EnvVar>>) {
    forall j, x :: 0 <= j < |blocks| && x in blocks[j] ==> isSecret(x.value) && x.valueFrom.None?
  }

  lemma AllSecretConcat(isSecret: string -> bool, p: seq<set<EnvVar>>, q: seq<set<EnvVar>>)
    requires AllSecret(isSecret, p) && AllSecret(isSecret, q)
    ensures AllSecret(isSecret, p + q)
  {
  }

  /** Every binding gathered from envFrom is a secret reference with a
      literal value. */
  lemma {:induction false} EnvFromSpecSecret(isSecret: string -> bool, cluster: Cluster, envFrom: seq<EnvFromSource>, ns: string)
    ensures AllSecret(isSecret, EnvFromSpec(isSecret, cluster, envFrom, ns).blocks)
    decreases |envFrom|
  {
    if envFrom != [] {
      var p := EnvFromSpec(isSecret, cluster, envFrom[..|envFrom| - 1], ns);
      EnvFromSpecSecret(isSecret, cluster, envFrom[..|envFrom| - 1], ns);
      if p.err.None? {
        var e := EntryOutcome(isSecret, cluster, envFrom[|envFrom| - 1], ns);
        assert AllSecret(isSecret, e.blocks);
        AllSecretConcat(isSecret, p.blocks, e.blocks);
      }
    }
  }

  /** Every binding the env scan gathers is a secret reference. */
  lemma {:induction false} EnvScanSecret(isSecret: string -> bool, cluster: Cluster, env: seq<EnvVar>, ns: string)
    ensures forall x :: x in EnvScan(isSecret, cluster, env, ns).bindings ==> isSecret(x.value)
    decreases |env|
  {
    if env != [] {
      EnvScanSecret(isSecret, cluster, env[..|env| - 1], ns);
    }
  }

  /** Every binding that makes a container eligible is a secret reference,
      so a container whose values are all plain is never eligible. */
  lemma ContainerSecretsAreSecret(isSecret: string -> bool, cluster: Cluster, c: Container, ns: string)
    ensures forall x :: x in ContainerSecrets(isSecret, cluster, c, ns).bindings ==> isSecret(x.value)
    ensures AllSecret(isSecret, ContainerSecrets(isSecret, cluster, c, ns).blocks)
  {
    EnvFromSpecSecret(isSecret, cluster, c.envFrom, ns);
    EnvScanSecret(isSecret, cluster, c.env, ns);
  }

  /** The body of the loop over `env` in mutateContainers for one entry. */
  method CollectEnvEntry(isSecret: string -> bool, cluster: Cluster, env: EnvVar, ns: string, envVars: seq<EnvVar>)
    returns (r: seq<EnvVar>, err: Option<Error>)
    ensures r == envVars + EnvEntry(isSecret, cluster, env, ns).bindings
    ensures err == EnvEntry(isSecret, cluster, env, ns).err
  {
    r := envVars;
    if isSecret(env.value) {
      r := r + [env];
    }
    if env.valueFrom.Some? {
      var valueFrom := LookForValueFrom(isSecret, cluster, env, ns);
      if valueFrom.Err? {
        return r, Some(valueFrom.error);
      }
      if valueFrom.value.None? {
        return r, None;
      }
      r := r + [valueFrom.value.value];
    }
    err := None;
  }

  /** The loop over a container's `env` in mutateContainers, appending to
      the bindings gathered from envFrom. */
  method LookForEnv(isSecret: string -> bool, cluster: Cluster, env: seq<EnvVar>, ns: string, envVars: seq<EnvVar>)
    returns (r: seq<EnvVar>, err: Option<Error>)
    ensures err == EnvScan(isSecret, cluster, env, ns).err
    ensures err.None? ==> r == envVars + EnvScan(isSecret, cluster, env, ns).bindings
  {
    r := envVars;
    var i := 0;
    assert env[..0] == [];
    while i < |env|
      invariant 0 <= i <= |env|
      invariant EnvScan(isSecret, cluster, env[..i], ns).err.None?
      invariant r == envVars + EnvScan(isSecret, cluster, env[..i], ns).bindings
    {
      EnvScanStep(isSecret, cluster, env, i, ns);
      ghost var scanned := EnvScan(isSecret, cluster, env[..i], ns).bindings;
      ghost var added := EnvEntry(isSecret, cluster, env[i], ns).bindings;
      var e;
      r, e := CollectEnvEntry(isSecret, cluster, env[i], ns, r);
      if e.Some? {
        return r, e;
      }
      assert envVars + (scanned + added) == (envVars + scanned) + added;
      i := i + 1;
    }
    assert env[..i] == env;
    err := None;
  }

  /** The secret-tagged bindings of one container, as the loop body of
      mutateContainers gathers them before deciding whether to rewrite. */
  method CollectEnvVars(isSecret: string -> bool, cluster: Cluster, c: Container, ns: string)
    returns (envVars: seq<EnvVar>, err: Option<Error>)
    ensures err == ContainerSecrets(isSecret, cluster, c, ns).err
    ensures err.None? ==>
              var refs := ContainerSecrets(isSecret, cluster, c, ns);
              var n := TotalSize(refs.blocks);
              n <= |envVars| && Flattens(envVars[..n], refs.blocks) && envVars[n..] == refs.bindings
  {
    ghost var fromEnvFrom := EnvFromSpec(isSecret, cluster, c.envFrom, ns);
    envVars := [];
    if |c.envFrom| > 0 {
      var gathered, e := LookForEnvFrom(isSecret, cluster, c.envFrom, ns);
      if e.Some? {
        return envVars, e;
      }
      envVars := gathered;
    } else {
      assert c.envFrom == [];
    }
    ghost var gathered := envVars;
    FlattensLength(gathered, fromEnvFrom.blocks);
    envVars, err := LookForEnv(isSecret, cluster, c.env, ns, envVars);
    if err.None? {
      assert envVars[..|gathered|] == gathered;
    }
  }
}
