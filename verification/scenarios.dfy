/** What `Start` gives on concrete configurations. */
module BootScenarios {
  import opened Wrappers
  import opened ConfigTree
  import opened Descriptor
  import opened Boot

  /** An empty namespace starts successfully without launching anything. */
  lemma EmptyNamespaceSucceeds(launch: Launcher)
    ensures ListsNamespace(RootWith(map[]), [])
    ensures Start(RootWith(map[]), [], launch) == Run([], [], Succeeded)
  {
    assert Namespace(RootWith(map[])) == Success(map[]);
  }

  /** Without a `vertx-boot.verticles` namespace the start fails before any launch. */
  lemma MissingNamespaceFails(launch: Launcher)
    ensures ListsNamespace(map[], [])
    ensures Start(map[], [], launch) == Run([], [], Failed(BadConfig(ConfigError(VERTICLES_PATH, Missing))))
  {
    assert Namespace(map[]) == Failure(ConfigError(VERTICLES_PATH, Missing));
  }

  const ALPHA: Settings := map[NAME_KEY := VStr("alpha"), INSTANCES_KEY := VInt(2)]
  const BETA: Settings :=
    map[NAME_KEY := VStr("beta"), WORKER_KEY := VBool(true), WORKER_POOLSIZE_KEY := VInt(4)]

  /** Setting `instances` moves only that option away from its default. */
  lemma AlphaDeployment()
    ensures Build(ALPHA) == Success(Deployment("alpha", DEFAULT_OPTIONS.(instances := 2)))
  {
    NameOnlyGivesDefaults("alpha");
    assert ALPHA == map[NAME_KEY := VStr("alpha")][INSTANCES_KEY := VInt(2)];
    SettingOneKeyChangesOneField(map[NAME_KEY := VStr("alpha")], INSTANCES_KEY, VInt(2));
  }

  /** Setting `worker` and `worker-pool-size` moves only those two options. */
  lemma BetaDeployment()
    ensures Build(BETA) == Success(Deployment("beta", DEFAULT_OPTIONS.(worker := true, workerPoolSize := 4)))
  {
    var beta1 := map[NAME_KEY := VStr("beta"), WORKER_KEY := VBool(true)];
    NameOnlyGivesDefaults("beta");
    assert beta1 == map[NAME_KEY := VStr("beta")][WORKER_KEY := VBool(true)];
    SettingOneKeyChangesOneField(map[NAME_KEY := VStr("beta")], WORKER_KEY, VBool(true));
    assert BETA == beta1[WORKER_POOLSIZE_KEY := VInt(4)];
    SettingOneKeyChangesOneField(beta1, WORKER_POOLSIZE_KEY, VInt(4));
  }

  /** A namespace of two entries, enumerated in the given order. */
  lemma TwoEntryStart(k1: string, k2: string, e1: Settings, e2: Settings, launch: Launcher)
    requires k1 != k2
    ensures var root := RootWith(map[k1 := VObj(e1), k2 := VObj(e2)]);
      && ListsNamespace(root, [k1, k2])
      && Enumerate(root, [k1, k2]) == Success([e1, e2])
      && Start(root, [k1, k2], launch) ==
         Run(Calls([e1, e2]), [Deploy(e1, launch), Deploy(e2, launch)],
             Join([Deploy(e1, launch), Deploy(e2, launch)]))
  {
    var ns := map[k1 := VObj(e1), k2 := VObj(e2)];
    var root := RootWith(ns);
    var order := [k1, k2];
    assert Namespace(root) == Success(ns);
    assert Lists(order, ns);
    var r := Enumerate(root, order);
    assert r.value[0] == e1 && r.value[1] == e2;
    assert r.value == [e1, e2];
    var outs := Outcomes([e1, e2], launch);
    assert outs == [Deploy(e1, launch), Deploy(e2, launch)];
  }

  const ALPHA_LAUNCH := Launch("alpha", DEFAULT_OPTIONS.(instances := 2))
  const BETA_LAUNCH := Launch("beta", DEFAULT_OPTIONS.(worker := true, workerPoolSize := 4))

  lemma TwoComponentCalls()
    ensures Calls([ALPHA, BETA]) == [ALPHA_LAUNCH, BETA_LAUNCH]
  {
    AlphaDeployment();
    BetaDeployment();
    assert [ALPHA, BETA][1..] == [BETA] && [BETA][1..] == [];
    assert Calls([BETA]) == [BETA_LAUNCH];
  }

  /** alpha sets two instances, beta asks for a worker pool of four: two
      launches, every other option at its default, and a start that succeeds
      exactly when both launches do. */
  lemma TwoComponents(launch: Launcher)
    ensures var root := RootWith(map["alpha" := VObj(ALPHA), "beta" := VObj(BETA)]);
      && ListsNamespace(root, ["alpha", "beta"])
      && var run := Start(root, ["alpha", "beta"], launch);
      && run.calls == [ALPHA_LAUNCH, BETA_LAUNCH]
      && (run.result.Succeeded? <==>
          launch(ALPHA_LAUNCH.name, ALPHA_LAUNCH.options).Succeeded? &&
          launch(BETA_LAUNCH.name, BETA_LAUNCH.options).Succeeded?)
  {
    TwoEntryStart("alpha", "beta", ALPHA, BETA, launch);
    TwoComponentCalls();
    AlphaDeployment();
    BetaDeployment();
  }

  /** alpha spells its instance count as a string: alpha's outcome is a type
      error on `instances` and nothing is launched for it, beta is still
      launched with default options, and the start fails. */
  lemma WrongTypeIsConfined(launch: Launcher)
    ensures var alpha := map[NAME_KEY := VStr("alpha"), INSTANCES_KEY := VStr("two")];
      var beta := map[NAME_KEY := VStr("beta")];
      var root := RootWith(map["alpha" := VObj(alpha), "beta" := VObj(beta)]);
      var run := Start(root, ["alpha", "beta"], launch);
      && ListsNamespace(root, ["alpha", "beta"])
      && run.outcomes[0] == Failed(BadConfig(ConfigError(INSTANCES_KEY, WrongType)))
      && run.outcomes[1] == launch("beta", DEFAULT_OPTIONS)
      && run.calls == [Launch("beta", DEFAULT_OPTIONS)]
      && run.result.Failed?
  {
    var alpha := map[NAME_KEY := VStr("alpha"), INSTANCES_KEY := VStr("two")];
    var beta := map[NAME_KEY := VStr("beta")];
    NameOnlyGivesDefaults("beta");
    assert Build(alpha) == Failure(ConfigError(INSTANCES_KEY, WrongType));
    TwoEntryStart("alpha", "beta", alpha, beta, launch);
    var entries := [alpha, beta];
    assert entries[1..] == [beta] && [beta][1..] == [];
    assert Calls(entries) == Calls([beta]);
  }
}
