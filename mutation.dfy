/** The per-container loop of mutateContainers, shared by both webhook
    variants: which containers are eligible, how the command the container
    would have run is recovered, and how the slice is rewritten in place.
    The variants differ only in the secret-reference predicate and in how
    an eligible container is rewritten, which they pass in. */
module Mutation {
  import opened Wrappers
  import opened Kube
  import opened Env

  /** The command line a container runs, by the rule Kubernetes documents for
      combining its `command` and `args` with the image's ENTRYPOINT and CMD:
      a declared command replaces the entrypoint and drops CMD; declared args
      replace CMD. */
  function KubernetesCommandLine(command: seq<string>, args: seq<string>, entrypoint: seq<string>, cmd: seq<string>): seq<string> {
    if command == [] && args == [] then entrypoint + cmd
    else if command == [] then entrypoint + args
    else if args == [] then command
    else command + args
  }

  /** The original command line as mutateContainers assembles it: the
      declared command, or the image's entrypoint followed by its CMD when
      no args are declared; then the declared args. The image config is only
      consulted, and only needed, when no command is declared. */
  function EffectiveCommand(c: Container, image: Option<ImageConfig>): seq<string>
    requires |c.command| > 0 || image.Some?
  {
    var base := if |c.command| > 0 then c.command
                else image.value.entrypoint + (if |c.args| == 0 then image.value.cmd else []);
    base + c.args
  }

  /** The assembled command line is the one Kubernetes would run, so the
      rewritten container still starts the program it started before. */
  lemma EffectiveCommandIsKubernetesRule(c: Container, image: ImageConfig)
    ensures EffectiveCommand(c, Some(image)) == KubernetesCommandLine(c.command, c.args, image.entrypoint, image.cmd)
    ensures |c.command| > 0 ==> EffectiveCommand(c, None) == EffectiveCommand(c, Some(image))
  {
  }

  /** What the loop does with one container. */
  datatype Step = Unchanged | Rewritten(container: Container) | Failed(error: Error)

  /** The state of the caller's slice after the loop, the returned flag and
      the returned error. */
  datatype Outcome = Outcome(containers: seq<Container>, mutated: bool, err: Option<Error>)

  /** The decision for one container: a lookup error fails; no secret
      reference leaves it alone; otherwise it is rewritten, after asking the
      registry for the image config when no command is declared. */
  function StepFor(isSecret: string -> bool, cluster: Cluster, registry: ImageRegistry,
                   rewrite: (Container, seq<string>) -> Container,
                   c: Container, pod: PodIdentity, ns: string): Step
  {
    var refs := ContainerSecrets(isSecret, cluster, c, ns);
    if refs.err.Some? then Failed(refs.err.value)
    else if !refs.Found() then Unchanged
    else if |c.command| > 0 then Rewritten(rewrite(c, EffectiveCommand(c, None)))
    else match registry(ns, c, pod)
      case Err(e) => Failed(e)
      case Ok(image) => Rewritten(rewrite(c, EffectiveCommand(c, Some(image))))
  }

  function Plan(isSecret: string -> bool, cluster: Cluster, registry: ImageRegistry,
                rewrite: (Container, seq<string>) -> Container,
                cs: seq<Container>, pod: PodIdentity, ns: string): (steps: seq<Step>)
    ensures |steps| == |cs|
  {
    seq(|cs|, i requires 0 <= i < |cs| => StepFor(isSecret, cluster, registry, rewrite, cs[i], pod, ns))
  }

  /** The loop over the slice: steps are taken in index order; the first
      failure stops the loop and clears the flag, while the containers
      already rewritten stay rewritten in the caller's slice. */
  function Apply(cs: seq<Container>, steps: seq<Step>): (r: Outcome)
    requires |steps| == |cs|
    ensures |r.containers| == |cs|
    decreases |cs|
  {
    if cs == [] then Outcome([], false, None)
    else
      var n := |cs| - 1;
      var p := Apply(cs[..n], steps[..n]);
      if p.err.Some? then Outcome(p.containers + [cs[n]], false, p.err)
      else match steps[n]
        case Unchanged => Outcome(p.containers + [cs[n]], p.mutated, None)
        case Rewritten(c) => Outcome(p.containers + [c], true, None)
        case Failed(e) => Outcome(p.containers + [cs[n]], false, Some(e))
  }

  /** The index of the first failing step, or the number of steps. */
  function FirstFailure(steps: seq<Step>): (k: nat)
    ensures k <= |steps|
    ensures forall j :: 0 <= j < k ==> !steps[j].Failed?
    ensures k < |steps| ==> steps[k].Failed?
    decreases |steps|
  {
    if steps == [] then 0
    else
      var n := |steps| - 1;
      var k := FirstFailure(steps[..n]);
      if k < n then k else if steps[n].Failed? then n else n + 1
  }

  /** A container after its step, when the step is taken. */
  function After(c: Container, s: Step): Container {
    if s.Rewritten? then s.container else c
  }

  /** Containers before the first failure carry their step; the others
      are untouched. */
  lemma {:induction false} ApplyContainers(cs: seq<Container>, steps: seq<Step>)
    requires |steps| == |cs|
    ensures forall i :: 0 <= i < |cs| ==>
              Apply(cs, steps).containers[i] == if i < FirstFailure(steps) then After(cs[i], steps[i]) else cs[i]
    decreases |cs|
  {
    if cs != [] {
      var n := |cs| - 1;
      ApplyContainers(cs[..n], steps[..n]);
      var p := Apply(cs[..n], steps[..n]);
      var r := Apply(cs, steps);
      var k := FirstFailure(steps[..n]);
      ApplyError(cs[..n], steps[..n]);
      forall i | 0 <= i < |cs|
        ensures r.containers[i] == if i < FirstFailure(steps) then After(cs[i], steps[i]) else cs[i]
      {
        if i < n {
          assert r.containers[i] == p.containers[i];
          assert steps[..n][i] == steps[i] && cs[..n][i] == cs[i];
        }
      }
    }
  }

  /** The error is the first failure's. */
  lemma {:induction false} ApplyError(cs: seq<Container>, steps: seq<Step>)
    requires |steps| == |cs|
    ensures Apply(cs, steps).err == if FirstFailure(steps) < |steps| then Some(steps[FirstFailure(steps)].error) else None
    decreases |cs|
  {
    if cs != [] {
      var n := |cs| - 1;
      ApplyError(cs[..n], steps[..n]);
      var k := FirstFailure(steps[..n]);
      if k < n {
        assert steps[..n][k] == steps[k];
      }
    }
  }

  /** The flag is set iff nothing failed and something was rewritten. */
  lemma {:induction false} ApplyMutated(cs: seq<Container>, steps: seq<Step>)
    requires |steps| == |cs|
    ensures Apply(cs, steps).mutated <==>
              FirstFailure(steps) == |steps| && exists i :: 0 <= i < |steps| && steps[i].Rewritten?
    decreases |cs|
  {
    if cs != [] {
      var n := |cs| - 1;
      ApplyMutated(cs[..n], steps[..n]);
      ApplyError(cs[..n], steps[..n]);
      var k := FirstFailure(steps[..n]);
      if k == n && !steps[n].Failed? && !steps[n].Rewritten? {
        if exists i :: 0 <= i < n + 1 && steps[i].Rewritten? {
          var i :| 0 <= i < n + 1 && steps[i].Rewritten?;
          assert steps[..n][i].Rewritten?;
        }
      } else if k == n && !steps[n].Failed? {
        if exists i :: 0 <= i < n && steps[..n][i].Rewritten? {
          var i :| 0 <= i < n && steps[..n][i].Rewritten?;
          assert steps[i].Rewritten?;
        }
      }
    }
  }

  /** The outcome of the loop in closed form: containers before the first
      failure carry their step, the others are untouched; the error is the
      first failure's; the flag is set iff nothing failed and something was
      rewritten. */
  lemma ApplyClosedForm(cs: seq<Container>, steps: seq<Step>)
    requires |steps| == |cs|
    ensures var r := Apply(cs, steps);
            var k := FirstFailure(steps);
            (forall i :: 0 <= i < |cs| ==> r.containers[i] == if i < k then After(cs[i], steps[i]) else cs[i]) &&
            r.err == (if k < |steps| then Some(steps[k].error) else None) &&
            (r.mutated <==> k == |steps| && exists i :: 0 <= i < |steps| && steps[i].Rewritten?)
  {
    ApplyContainers(cs, steps);
    ApplyError(cs, steps);
    ApplyMutated(cs, steps);
  }

  /** No container that fails and none that is eligible: the slice and the
      flag are left as they were. */
  lemma NothingEligibleChangesNothing(cs: seq<Container>, steps: seq<Step>)
    requires |steps| == |cs|
    requires forall i :: 0 <= i < |steps| ==> steps[i] == Unchanged
    ensures Apply(cs, steps) == Outcome(cs, false, None)
  {
    ApplyClosedForm(cs, steps);
    var r := Apply(cs, steps);
    assert FirstFailure(steps) == |steps|;
    assert r.containers == cs;
  }

  /** A container with no secret reference and no failing lookup is never
      rewritten, whatever the registry and the rewriting do. */
  lemma NoSecretsMeansUnchanged(isSecret: string -> bool, cluster: Cluster, registry: ImageRegistry,
                                rewrite: (Container, seq<string>) -> Container,
                                c: Container, pod: PodIdentity, ns: string)
    requires forall j :: 0 <= j < |c.envFrom| ==> !c.envFrom[j].configMapRef.Some? && !c.envFrom[j].secretRef.Some?
    requires forall j :: 0 <= j < |c.env| ==> !isSecret(c.env[j].value) && c.env[j].valueFrom.None?
    ensures StepFor(isSecret, cluster, registry, rewrite, c, pod, ns) == Unchanged
  {
    EnvFromWithoutRefsIsEmpty(isSecret, cluster, c.envFrom, ns);
    EnvScanWithoutSecretsIsEmpty(isSecret, cluster, c.env, ns);
  }

  lemma {:induction false} EnvFromWithoutRefsIsEmpty(isSecret: string -> bool, cluster: Cluster, envFrom: seq<EnvFromSource>, ns: string)
    requires forall j :: 0 <= j < |envFrom| ==> !envFrom[j].configMapRef.Some? && !envFrom[j].secretRef.Some?
    ensures EnvFromSpec(isSecret, cluster, envFrom, ns) == EnvFromOutcome([], None)
    decreases |envFrom|
  {
    if envFrom != [] {
      EnvFromWithoutRefsIsEmpty(isSecret, cluster, envFrom[..|envFrom| - 1], ns);
    }
  }

  lemma {:induction false} EnvScanWithoutSecretsIsEmpty(isSecret: string -> bool, cluster: Cluster, env: seq<EnvVar>, ns: string)
    requires forall j :: 0 <= j < |env| ==> !isSecret(env[j].value) && env[j].valueFrom.None?
    ensures EnvScan(isSecret, cluster, env, ns) == EnvScanOutcome([], None)
    decreases |env|
  {
    if env != [] {
      EnvScanWithoutSecretsIsEmpty(isSecret, cluster, env[..|env| - 1], ns);
    }
  }

  /** Two steps that both succeed and agree on rewriting. */
  ghost predicate Alike(s: Step, s': Step) {
    !s.Failed? && !s'.Failed? && (s'.Rewritten? <==> s.Rewritten?)
  }

  /** A rewritten form that keeps the container's environment and declares
      a command. */
  ghost predicate KeepsReferences(c: Container, r: Container) {
    r.env == c.env && r.envFrom == c.envFrom && |r.command| > 0
  }

  /** A rewriting that keeps every container's references. */
  ghost predicate PreservesReferences(rewrite: (Container, seq<string>) -> Container) {
    forall c, args :: KeepsReferences(c, rewrite(c, args))
  }

  /** A rewritten container that keeps its environment is eligible again:
      running the mutation over its own output rewrites the same
      containers once more and fails nowhere. */
  lemma StepAgain(isSecret: string -> bool, cluster: Cluster, registry: ImageRegistry,
                  rewrite: (Container, seq<string>) -> Container,
                  c: Container, pod: PodIdentity, ns: string)
    requires !StepFor(isSecret, cluster, registry, rewrite, c, pod, ns).Failed?
    requires PreservesReferences(rewrite)
    ensures var s := StepFor(isSecret, cluster, registry, rewrite, c, pod, ns);
            Alike(s, StepFor(isSecret, cluster, registry, rewrite, After(c, s), pod, ns))
  {
  }

  /** Without a failing step the loop reports no error, and it reports a
      change iff some step rewrites. */
  lemma ApplyWithoutFailure(cs: seq<Container>, steps: seq<Step>)
    requires |steps| == |cs|
    requires forall i :: 0 <= i < |steps| ==> !steps[i].Failed?
    ensures Apply(cs, steps).err.None?
    ensures Apply(cs, steps).mutated <==> exists i :: 0 <= i < |steps| && steps[i].Rewritten?
  {
  }

  /** Two runs' steps: neither fails anywhere, and they rewrite the same
      positions. */
  ghost predicate Replays(steps: seq<Step>, steps': seq<Step>) {
    |steps'| == |steps| && forall i :: 0 <= i < |steps| ==> Alike(steps[i], steps'[i])
  }

  /** A run that reports no error took every step. */
  lemma SucceededEverywhere(cs: seq<Container>, steps: seq<Step>)
    requires |steps| == |cs|
    requires Apply(cs, steps).err.None?
    ensures forall i :: 0 <= i < |steps| ==> !steps[i].Failed?
    ensures forall i :: 0 <= i < |cs| ==> Apply(cs, steps).containers[i] == After(cs[i], steps[i])
  {
    ApplyClosedForm(cs, steps);
    assert FirstFailure(steps) == |steps|;
  }

  /** Feeding a successful run's slice through the loop again: nothing
      fails, and exactly the same positions are rewritten. */
  lemma PlanAgain(isSecret: string -> bool, cluster: Cluster, registry: ImageRegistry,
                  rewrite: (Container, seq<string>) -> Container,
                  cs: seq<Container>, pod: PodIdentity, ns: string)
    requires Apply(cs, Plan(isSecret, cluster, registry, rewrite, cs, pod, ns)).err.None?
    requires PreservesReferences(rewrite)
    ensures var steps := Plan(isSecret, cluster, registry, rewrite, cs, pod, ns);
            var cs' := Apply(cs, steps).containers;
            Replays(steps, Plan(isSecret, cluster, registry, rewrite, cs', pod, ns))
  {
    var steps := Plan(isSecret, cluster, registry, rewrite, cs, pod, ns);
    var cs' := Apply(cs, steps).containers;
    var steps' := Plan(isSecret, cluster, registry, rewrite, cs', pod, ns);
    SucceededEverywhere(cs, steps);
    forall i | 0 <= i < |cs'|
      ensures Alike(steps[i], steps'[i])
    {
      assert cs'[i] == After(cs[i], steps[i]);
      StepAgain(isSecret, cluster, registry, rewrite, cs[i], pod, ns);
    }
  }

  /** So a second run over a successful run's output succeeds, and reports
      a change iff the first one did. */
  lemma ApplyAgain(isSecret: string -> bool, cluster: Cluster, registry: ImageRegistry,
                   rewrite: (Container, seq<string>) -> Container,
                   cs: seq<Container>, pod: PodIdentity, ns: string)
    requires Apply(cs, Plan(isSecret, cluster, registry, rewrite, cs, pod, ns)).err.None?
    requires PreservesReferences(rewrite)
    ensures var r := Apply(cs, Plan(isSecret, cluster, registry, rewrite, cs, pod, ns));
            var r' := Apply(r.containers, Plan(isSecret, cluster, registry, rewrite, r.containers, pod, ns));
            r'.err.None? && r'.mutated == r.mutated
  {
    var steps := Plan(isSecret, cluster, registry, rewrite, cs, pod, ns);
    var cs' := Apply(cs, steps).containers;
    PlanAgain(isSecret, cluster, registry, rewrite, cs, pod, ns);
    SameRewritesSameOutcome(cs, steps, cs', Plan(isSecret, cluster, registry, rewrite, cs', pod, ns));
  }

  /** Two runs whose steps fail nowhere and rewrite the same positions
      report the same outcome. */
  lemma SameRewritesSameOutcome(cs: seq<Container>, steps: seq<Step>, cs': seq<Container>, steps': seq<Step>)
    requires |steps| == |cs| && |steps'| == |cs'|
    requires Replays(steps, steps')
    ensures Apply(cs', steps').err.None? && Apply(cs', steps').mutated == Apply(cs, steps).mutated
  {
    ApplyWithoutFailure(cs, steps);
    ApplyWithoutFailure(cs', steps');
    if Apply(cs, steps).mutated {
      var i :| 0 <= i < |steps| && steps[i].Rewritten?;
      assert steps'[i].Rewritten?;
    }
    if Apply(cs', steps').mutated {
      var i :| 0 <= i < |steps'| && steps'[i].Rewritten?;
      assert steps[i].Rewritten?;
    }
  }

  /** A container left alone in front of the slice changes nothing else. */
  lemma {:induction false} ApplyPrependUnchanged(c: Container, cs: seq<Container>, steps: seq<Step>)
    requires |steps| == |cs|
    ensures Apply([c] + cs, [Unchanged] + steps) == Apply(cs, steps).(containers := [c] + Apply(cs, steps).containers)
    decreases |cs|
  {
    if cs != [] {
      var n := |cs| - 1;
      assert ([c] + cs)[..n + 1] == [c] + cs[..n];
      assert ([Unchanged] + steps)[..n + 1] == [Unchanged] + steps[..n];
      ApplyPrependUnchanged(c, cs[..n], steps[..n]);
    }
  }

  /** A second run over a successful run's output with a container in
      front that the run leaves alone succeeds, reports a change iff the
      first run did, and returns one container more. */
  lemma ApplyAgainBehind(isSecret: string -> bool, cluster: Cluster, registry: ImageRegistry,
                         rewrite: (Container, seq<string>) -> Container,
                         c: Container, cs: seq<Container>, pod: PodIdentity, ns: string)
    requires StepFor(isSecret, cluster, registry, rewrite, c, pod, ns) == Unchanged
    requires Apply(cs, Plan(isSecret, cluster, registry, rewrite, cs, pod, ns)).err.None?
    requires PreservesReferences(rewrite)
    ensures var r := Apply(cs, Plan(isSecret, cluster, registry, rewrite, cs, pod, ns));
            var r' := Apply([c] + r.containers, Plan(isSecret, cluster, registry, rewrite, [c] + r.containers, pod, ns));
            r'.err.None? && r'.mutated == r.mutated && |r'.containers| == |cs| + 1
  {
    var r := Apply(cs, Plan(isSecret, cluster, registry, rewrite, cs, pod, ns));
    var steps := Plan(isSecret, cluster, registry, rewrite, r.containers, pod, ns);
    ApplyAgain(isSecret, cluster, registry, rewrite, cs, pod, ns);
    PlanPrepend(isSecret, cluster, registry, rewrite, c, r.containers, pod, ns);
    ApplyPrependUnchanged(c, r.containers, steps);
  }

  /** The plan of a slice with a container in front starts with that
      container's step. */
  lemma PlanPrepend(isSecret: string -> bool, cluster: Cluster, registry: ImageRegistry,
                    rewrite: (Container, seq<string>) -> Container,
                    c: Container, cs: seq<Container>, pod: PodIdentity, ns: string)
    ensures Plan(isSecret, cluster, registry, rewrite, [c] + cs, pod, ns)
         == [StepFor(isSecret, cluster, registry, rewrite, c, pod, ns)] + Plan(isSecret, cluster, registry, rewrite, cs, pod, ns)
  {
  }

  /** After a failure the rest of the slice is returned as it was. */
  lemma {:induction false} ApplyStopsAt(cs: seq<Container>, steps: seq<Step>, i: nat)
    requires |steps| == |cs| && i < |cs|
    requires Apply(cs[..i], steps[..i]).err.None? && steps[i].Failed?
    ensures Apply(cs, steps) == Outcome(Apply(cs[..i], steps[..i]).containers + cs[i..], false, Some(steps[i].error))
    decreases |cs| - i
  {
    var n := |cs| - 1;
    if i < n {
      assert cs[..n][..i] == cs[..i] && steps[..n][..i] == steps[..i];
      ApplyStopsAt(cs[..n], steps[..n], i);
      assert cs[..n][i..] + [cs[n]] == cs[i..];
    } else {
      assert cs[i..] == [cs[n]];
    }
  }

  /** One more container after a prefix that did not fail. */
  lemma ApplyStep(cs: seq<Container>, steps: seq<Step>, i: nat)
    requires |steps| == |cs| && i < |cs|
    requires Apply(cs[..i], steps[..i]).err.None?
    ensures var p := Apply(cs[..i], steps[..i]);
            Apply(cs[..i + 1], steps[..i + 1]) ==
              match steps[i]
              case Unchanged => Outcome(p.containers + [cs[i]], p.mutated, None)
              case Rewritten(c) => Outcome(p.containers + [c], true, None)
              case Failed(e) => Outcome(p.containers + [cs[i]], false, Some(e))
  {
    assert cs[..i + 1][..i] == cs[..i] && steps[..i + 1][..i] == steps[..i];
  }

  /** The body of the loop in mutateContainers for one container, up to
      the write into the slice: gather its secret-tagged bindings, and when
      there are any, assemble the original command line and rewrite it. */
  method DecideContainer(isSecret: string -> bool, cluster: Cluster, registry: ImageRegistry,
                         rewrite: (Container, seq<string>) -> Container,
                         container: Container, pod: PodIdentity, ns: string)
    returns (step: Step)
    ensures step == StepFor(isSecret, cluster, registry, rewrite, container, pod, ns)
  {
    var envVars, e := CollectEnvVars(isSecret, cluster, container, ns);
    if e.Some? {
      return Failed(e.value);
    }
    ghost var refs := ContainerSecrets(isSecret, cluster, container, ns);
    assert |envVars| == TotalSize(refs.blocks) + |refs.bindings| by {
      FlattensLength(envVars[..TotalSize(refs.blocks)], refs.blocks);
    }
    if |envVars| == 0 {
      return Unchanged;
    }
    var args := container.command;
    ghost var image: Option<ImageConfig> := None;
    if |args| == 0 {
      var imageConfig := registry(ns, container, pod);
      if imageConfig.Err? {
        return Failed(imageConfig.error);
      }
      image := Some(imageConfig.value);
      args := args + imageConfig.value.entrypoint;
      assert args == imageConfig.value.entrypoint;
      if |container.args| == 0 {
        args := args + imageConfig.value.cmd;
      } else {
        assert args == imageConfig.value.entrypoint + [];
      }
    }
    args := args + container.args;
    assert args == EffectiveCommand(container, image);
    step := Rewritten(rewrite(container, args));
  }

  /** `steps` holds the decision for each container of `cs`. The fact about
      the `k`-th one is used only where that decision is asked for. */
  ghost predicate Decides(isSecret: string -> bool, cluster: Cluster, registry: ImageRegistry,
                          rewrite: (Container, seq<string>) -> Container,
                          cs: seq<Container>, pod: PodIdentity, ns: string, steps: seq<Step>)
  {
    |steps| == |cs| &&
    forall k {:trigger StepFor(isSecret, cluster, registry, rewrite, cs[k], pod, ns)} :: 0 <= k < |cs| ==>
      steps[k] == StepFor(isSecret, cluster, registry, rewrite, cs[k], pod, ns)
  }

  /** `Plan`'s decisions for `cs`, held so that each is looked at only
      where it is taken. */
  lemma Decisions(isSecret: string -> bool, cluster: Cluster, registry: ImageRegistry,
                  rewrite: (Container, seq<string>) -> Container,
                  cs: seq<Container>, pod: PodIdentity, ns: string)
    returns (steps: seq<Step>)
    ensures steps == Plan(isSecret, cluster, registry, rewrite, cs, pod, ns)
    ensures Decides(isSecret, cluster, registry, rewrite, cs, pod, ns, steps)
  {
    steps := Plan(isSecret, cluster, registry, rewrite, cs, pod, ns);
  }

  /** DecideContainer for the `i`-th container of `cs`: its result is the
      `i`-th of the decisions. */
  method DecideAt(isSecret: string -> bool, cluster: Cluster, registry: ImageRegistry,
                  rewrite: (Container, seq<string>) -> Container,
                  container: Container, pod: PodIdentity, ns: string,
                  ghost cs: seq<Container>, ghost steps: seq<Step>, ghost i: nat)
    returns (step: Step)
    requires i < |cs| && cs[i] == container
    requires Decides(isSecret, cluster, registry, rewrite, cs, pod, ns, steps)
    ensures step == steps[i]
  {
    step := DecideContainer(isSecret, cluster, registry, rewrite, container, pod, ns);
  }

  /** mutateContainers: the containers are visited in index order and each
      eligible one is replaced in the caller's slice by its rewritten form;
      an error stops the loop at once. */
  method MutateContainers(isSecret: string -> bool, cluster: Cluster, registry: ImageRegistry,
                          rewrite: (Container, seq<string>) -> Container,
                          containers: array<Container>, pod: PodIdentity, ns: string)
    returns (mutated: bool, err: Option<Error>)
    modifies containers
    ensures Outcome(containers[..], mutated, err) ==
              Apply(old(containers[..]), Plan(isSecret, cluster, registry, rewrite, old(containers[..]), pod, ns))
  {
    ghost var steps := Decisions(isSecret, cluster, registry, rewrite, containers[..], pod, ns);
    mutated, err := TakeSteps(isSecret, cluster, registry, rewrite, containers, pod, ns, steps);
  }

  /** The loop of mutateContainers, with the decisions for the containers
      given as `steps`: the slice ends as `Apply` says. */
  method TakeSteps(isSecret: string -> bool, cluster: Cluster, registry: ImageRegistry,
                   rewrite: (Container, seq<string>) -> Container,
                   containers: array<Container>, pod: PodIdentity, ns: string, ghost steps: seq<Step>)
    returns (mutated: bool, err: Option<Error>)
    requires Decides(isSecret, cluster, registry, rewrite, containers[..], pod, ns, steps)
    modifies containers
    ensures Outcome(containers[..], mutated, err) == Apply(old(containers[..]), steps)
  {
    ghost var cs := containers[..];
    if containers.Length == 0 {
      return false, None;
    }
    mutated := false;
    var i := 0;
    while i < containers.Length
      invariant 0 <= i <= containers.Length
      invariant Apply(cs[..i], steps[..i]) == Outcome(containers[..i], mutated, None)
      invariant containers[i..] == cs[i..]
    {
      var container := containers[i];
      assert container == cs[i];
      ApplyStep(cs, steps, i);
      var step := DecideAt(isSecret, cluster, registry, rewrite, container, pod, ns, cs, steps, i);
      if step.Failed? {
        ApplyStopsAt(cs, steps, i);
        assert containers[..] == containers[..i] + cs[i..];
        return false, Some(step.error);
      }
      if step.Rewritten? {
        mutated := true;
        containers[i] := step.container;
      }
      assert containers[..i + 1] == containers[..i] + [containers[i]];
      i := i + 1;
    }
    assert cs[..i] == cs && steps[..i] == steps && containers[..i] == containers[..];
    err := None;
  }
}
