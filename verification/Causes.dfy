/** What a recorded condition tells about the world: none is turned on without its cause. */
module Causes {
  import opened Generators
  import opened Conditions
  import opened Applications
  import opened Hub
  import opened Lifecycle
  import opened Passes
  import opened Convergence
  import DayTwo

  // -------- under any environment --------

  lemma DeploymentReadyOnlyIf(cfg: Config, env: Env, w: Server)
    ensures DeploymentSecrets(cfg, env, w).1 == IsReady ==> DeploymentComplete(env.provider)
  {
    hide At, CreateClusterSecrets;
  }

  lemma HostedReadyOnlyIf(cfg: Config, env: Env, p: Provider, w: Server)
    requires p.HostedProvider?
    ensures HostedStatus(cfg, env, p, w).1 == IsReady ==> ProviderReady(env.provider, p)
  {
    hide At, CreateClusterSecrets, LastIsTrue, PoolsReady;
  }

  /** A provider never reports ready unless its objects say so. */
  lemma ReadyOnlyIf(cfg: Config, env: Env, p: Provider, w: Server)
    ensures GetClusterStatus(cfg, env, p, w).1 == IsReady ==> ProviderReady(env.provider, p)
  {
    hide At, DeploymentSecrets, HostedStatus, FirstIsTrue, DeploymentComplete;
    if p.HostedProvider? {
      HostedReadyOnlyIf(cfg, env, p, w);
    } else {
      DeploymentReadyOnlyIf(cfg, env, Handled(cfg, env, w, GetProviderObject));
      DeploymentReadyOnlyIf(cfg, env, Handled(cfg, env, Handled(cfg, env, w, GetProviderObject), GetClaimedDeployment));
    }
  }

  ghost predicate Installed(env: Env) {
    && env.day1 != [] && Fine(env.day1[0])
    && exists p :: FirstGives(env.day1[0].resources, Some(p)) && ProviderReady(env.provider, p)
  }

  // The server has a managed cluster of the instance, one of these names.
  predicate HasCluster(cfg: Config, w: Server, names: set<string>) {
    var mc := FirstCluster(cfg.Me(), w.clusters);
    mc.Some? && mc.value.name in names
  }

  // No error condition, a finished operation, and health all through.
  predicate Flawless(app: Application) { Fine(app) && ResourcesFine(app) }

  // Why step `k`, which began in `a`, may have turned its condition on.
  ghost predicate Cause(cfg: Config, env: Env, a: St, n: St, k: nat) {
    match k
    case 1 => Installed(env)
    case 2 => cfg.Registers() ==> HasCluster(cfg, n.hub, {n.status.managedCluster})
    case 3 =>
      cfg.Registers() ==>
        LastWantedIsTrue(env.importConditions)
          && HasCluster(cfg, Handled(cfg, env, a.hub, ListForImport), n.hub.importSecrets)
    case 4 =>
      cfg.enableKlusterlet && !cfg.skipRegistration ==>
        HasCluster(cfg, Handled(cfg, env, a.hub, ListForKlusterlet), n.hub.klusterlets)
    case 5 => cfg.Registers() ==>
      env.consoleClaims != [] && n.status.consoleURL == env.consoleClaims[|env.consoleClaims| - 1]
    case 6 =>
      && env.login && n.status.firstLogin.Some?
      && (cfg.secretRef.None? ==> env.day1 != [])
      && SecretNamed(n.hub.argoSecrets, if cfg.secretRef.Some? then cfg.secretRef.value else env.day1[0].name)
    case 7 => cfg.setups != [] ==> cfg.Me() in n.hub.kubeconfigs
    case 8 => cfg.setups != [] ==> env.day2 != [] && forall i | 0 <= i < |env.day2| :: Flawless(env.day2[i])
    case _ => true
  }

  ghost predicate CausedStep(cfg: Config, env: Env, a: St, b: St, k: nat) {
    On(b, Subject(cfg, k)) && !On(a, Subject(cfg, k)) ==> Cause(cfg, env, a, b, k)
  }

  lemma StatusCaused(cfg: Config, env: Env, st: St)
    ensures CausedStep(cfg, env, st, ReconcileClusterStatus(cfg, env, st).st, 1)
  {
    hide Handled, GetClusterStatus, Detect, ProviderReady, Classify, OnlyChanges, Fine, FirstGives;
    if env.day1 != [] {
      ClassifiedByFields(env.day1[0], false);
      DetectedByFields(env.day1[0].resources);
      var p := Detect(env.day1[0].resources, env.day1[0].resources);
      if p.Some? {
        ReadyOnlyIf(cfg, env, p.value, Handled(cfg, env, st.hub, ListDay1));
      }
    }
  }

  lemma InstallCaused(cfg: Config, env: Env, st: St)
    ensures CausedStep(cfg, env, st, Stage(cfg, env, st, 1).st, 1)
  {
    hide ReconcileClusterStatus, Cause, OnlyChanges;
    StatusCaused(cfg, env, st);
    PhaseHasNoCause(cfg, env, st, ReconcileClusterStatus(cfg, env, st).st, ClusterInstallFailedPhase);
  }

  lemma PhaseHasNoCause(cfg: Config, env: Env, a: St, b: St, p: Phase)
    ensures CausedStep(cfg, env, a, SetPhase(b, p), 1) == CausedStep(cfg, env, a, b, 1)
  {
    hide Installed;
  }

  lemma ClusterCaused(cfg: Config, env: Env, st: St)
    ensures CausedStep(cfg, env, st, Stage(cfg, env, st, 2).st, 2)
  {
    hide At, CreateManagedCluster, FirstCluster;
  }

  lemma ImportCaused(cfg: Config, env: Env, st: St)
    ensures CausedStep(cfg, env, st, Stage(cfg, env, st, 3).st, 3)
  {
    hide At, FirstCluster, LastIsTrue, LastWantedIsTrue;
    LastByFields(env.importConditions);
  }

  lemma KlusterletCaused(cfg: Config, env: Env, st: St)
    ensures CausedStep(cfg, env, st, Stage(cfg, env, st, 4).st, 4)
  {
    hide At, FirstCluster;
  }

  lemma ConsoleCaused(cfg: Config, env: Env, st: St)
    ensures CausedStep(cfg, env, st, Stage(cfg, env, st, 5).st, 5)
  {
    hide At, FirstCluster;
  }

  lemma ArgoSecretIsThere(cfg: Config, env: Env, w: Server, name: string)
    ensures EnsureArgoSecret(cfg, env, w, name).1 ==>
        SecretNamed(EnsureArgoSecret(cfg, env, w, name).0.argoSecrets, name)
  {
    var n := Handled(cfg, env, Handled(cfg, env, w, GetArgoSecret), CreateArgoSecret);
    var ss := n.argoSecrets + [ArgoSecret(name, Some(cfg.Me()))];
    assert ss[|n.argoSecrets|].name == name;
    hide At;
  }

  lemma FinishCaused(cfg: Config, env: Env, w: Server)
    ensures FinishArgo(cfg, env, w).1 ==>
      ArgoSecretName(cfg, env).Some?
        && SecretNamed(FinishArgo(cfg, env, w).0.argoSecrets, ArgoSecretName(cfg, env).value)
  {
    hide At, EnsureArgoSecret, FirstCluster, SecretNamed;
    var w1 := if cfg.secretRef.Some? then w else Handled(cfg, env, w, ListDay1ForArgo);
    var w2 := if cfg.Registers() then Handled(cfg, env, w1, ListForArgo) else w1;
    if ArgoSecretName(cfg, env).Some? {
      ArgoSecretIsThere(cfg, env, w2, ArgoSecretName(cfg, env).value);
    }
  }

  lemma ArgoCaused(cfg: Config, env: Env, st: St)
    ensures CausedStep(cfg, env, st, Stage(cfg, env, st, 6).st, 6)
  {
    hide At, FinishArgo, SecretNamed;
    FinishCaused(cfg, env, Handled(cfg, env, Handled(cfg, env, st.hub, GetKubeconfigForArgo), PrepareNewCluster));
  }

  lemma SetupCreateCaused(cfg: Config, env: Env, st: St)
    ensures CausedStep(cfg, env, st, Stage(cfg, env, st, 7).st, 7)
  {
    hide CreateDay2, OnlyChanges;
    SetupKeepsKubeconfig(cfg, env, st.hub);
  }

  lemma SetupCaused(cfg: Config, env: Env, st: St)
    ensures CausedStep(cfg, env, st, Stage(cfg, env, st, 8).st, 8)
  {
    hide SomeAre, Handled, SetupStatuses, OnlyChanges, Classify, Fine, ResourcesFine;
    forall i | 0 <= i < |env.day2| ensures Classify(env.day2[i], true) == AppHealthy ==> Flawless(env.day2[i]) {
      ClassifiedByFields(env.day2[i], true);
    }
  }

  lemma SetupKeepsKubeconfig(cfg: Config, env: Env, w: Server)
    ensures CreateDay2(cfg, env, w).1 ==> cfg.Me() in CreateDay2(cfg, env, w).0.kubeconfigs
  {
    hide FetchSetups, NewGenerator, HasOwn;
  }

  /** No step of any pass turns its condition on without cause: an installed cluster whose
      provider's objects say so, a registered cluster that exists, an import the cluster
      itself reports, a login and an argo secret, setup applications that are all healthy. */
  lemma NothingIsTurnedOnWithoutCause(cfg: Config, env: Env, st: St, k: nat)
    requires 1 <= k <= 8
    ensures CausedStep(cfg, env, st, Stage(cfg, env, st, k).st, k)
  {
    hide Stage, CausedStep;
    match k {
      case 1 => InstallCaused(cfg, env, st);
      case 2 => ClusterCaused(cfg, env, st);
      case 3 => ImportCaused(cfg, env, st);
      case 4 => KlusterletCaused(cfg, env, st);
      case 5 => ConsoleCaused(cfg, env, st);
      case 6 => ArgoCaused(cfg, env, st);
      case 7 => SetupCreateCaused(cfg, env, st);
      case _ => SetupCaused(cfg, env, st);
    }
  }

  // -------- where nothing fails --------

  /** The definition is recorded as created exactly when its ApplicationSet exists, and
      then that set lists the instance. */
  lemma DefinitionExactlyWhen(cfg: Config, env: Env, st: St)
    requires Calm(env) && Is(st, ClusterDefinitionCreated, False)
    ensures var r := ReconcileClusterCreate(cfg, env, st);
      && (On(r.st, ClusterDefinitionCreated) <==> cfg.definition in st.hub.appSets)
      && (On(r.st, ClusterDefinitionCreated) ==> Listed(cfg, r.st.hub, cfg.definition))
  {
    if cfg.definition in st.hub.appSets {
      CalmJoin(cfg, env, st.hub, cfg.definition, "https://kubernetes.default.svc", false, UpdateDefinition);
      JoinedDefinition(cfg, env, st.hub);
    }
    hide JoinAppSet, HasOwn;
  }

  lemma JoinedDefinition(cfg: Config, env: Env, w: Server)
    requires Calm(env) && cfg.definition in w.appSets
    ensures var n := JoinAppSet(cfg, env, w, cfg.definition, w.appSets[cfg.definition],
        "https://kubernetes.default.svc", false, UpdateDefinition).0;
      Listed(cfg, n, cfg.definition)
  {
    var gens := w.appSets[cfg.definition].generators;
    var g := NewGenerator(cfg.instance, cfg.definition, w.appSets[cfg.definition].template,
      "https://kubernetes.default.svc", false);
    assert Owns(cfg.Me(), (gens + [g])[|gens|]);
    hide NewGenerator;
  }

  /** Registration is recorded exactly when a cluster of the instance is there already, or
      one can be made under a free name that carries its labels. */
  lemma RegisteredExactlyWhen(cfg: Config, env: Env, st: St)
    requires Calm(env) && cfg.Registers() && Gate(st, ClusterInstallSucceeded, Some(ManagedClusterCreated))
    requires TwoValued(st)
    ensures On(ReconcileCreateManagedCluster(cfg, env, st).st, ManagedClusterCreated) <==>
      || FirstCluster(cfg.Me(), st.hub.clusters).Some?
      || (!NameTaken(st.hub.clusters, "cluster-" + env.newSuffix) && Matches(cfg.Me(), ClusterLabels(cfg)))
  {
    FirstClusterAppend(cfg.Me(), st.hub.clusters, ManagedCluster("cluster-" + env.newSuffix, ClusterLabels(cfg)));
    hide FirstCluster, ClusterLabels, Matches, NameTaken;
  }

  /** The cluster is recorded as added to Argo CD exactly when its kubeconfig is there, the
      login works, the secret can be named and, if registered, the cluster is found. */
  lemma AddedExactlyWhen(cfg: Config, env: Env, st: St)
    requires Calm(env) && Gate(st, ManagedClusterImported, Some(ArgoClusterAdded))
    ensures On(ReconcileAddClusterToArgo(cfg, env, st).st, ArgoClusterAdded) <==>
      && cfg.Me() in st.hub.kubeconfigs && env.login
      && (cfg.secretRef.Some? || env.day1 != [])
      && (cfg.Registers() ==> FirstCluster(cfg.Me(), st.hub.clusters).Some?)
  {
    FinishExactlyWhen(cfg, env, st.hub);
    hide FirstCluster, FinishArgo;
  }

  lemma FinishExactlyWhen(cfg: Config, env: Env, w: Server)
    requires Calm(env)
    ensures FinishArgo(cfg, env, w).1 <==>
      (cfg.secretRef.Some? || env.day1 != []) && (cfg.Registers() ==> FirstCluster(cfg.Me(), w.clusters).Some?)
  {
    hide FirstCluster;
  }

  lemma {:induction false} FetchedExactlyWhen(cfg: Config, env: Env, w: Server, i: nat, sofar: Fetched)
    requires Calm(env) && i <= |cfg.setups| && sofar.ok && sofar.hub == w
    ensures var f := FetchSetups(cfg, env, w, i, true, sofar);
      f.hub == w && (f.ok <==> forall j | i <= j < |cfg.setups| :: cfg.setups[j] in w.appSets)
    decreases |cfg.setups| - i
  {
    if i < |cfg.setups| {
      var name := cfg.setups[i];
      if name in w.appSets {
        FetchedExactlyWhen(cfg, env, w, i + 1, Fetched(w, true, sofar.count + 1, Some((name, w.appSets[name]))));
      }
    }
  }

  /** Setup is recorded as created exactly when every named set exists and the kubeconfig
      is there, or nothing is named. */
  lemma SetupCreatedExactlyWhen(cfg: Config, env: Env, st: St)
    requires Calm(env) && Gate(st, ArgoClusterAdded, Some(ClusterSetupCreated))
    ensures On(ReconcileClusterSetupCreate(cfg, env, st).st, ClusterSetupCreated) <==>
      cfg.setups == [] || (DayTwo.AllExist(cfg, st.hub) && cfg.Me() in st.hub.kubeconfigs)
  {
    FetchedExactlyWhen(cfg, env, st.hub, 0, NothingFetched(st.hub));
    if DayTwo.AllExist(cfg, st.hub) && cfg.Me() in st.hub.kubeconfigs {
      CalmDay2(cfg, env, st.hub);
    }
    hide FetchSetups, JoinAppSet;
  }

  /** Setup is recorded as succeeded exactly when nothing is named or all setup
      applications, of which there is one at least, are healthy; an error is a failure
      before a degradation is. */
  lemma SucceededExactlyWhen(cfg: Config, env: Env, st: St)
    requires Calm(env) && Gate(st, ClusterSetupCreated, Some(ClusterSetupSucceeded))
    ensures var r := ReconcileClusterSetup(cfg, env, st);
      && (On(r.st, ClusterSetupSucceeded) <==> cfg.setups == [] || (env.day2 != [] && AllHealthy(env.day2)))
      && (cfg.setups != [] && SomeAre(env.day2, AppError) ==> r.st.status.phase == ClusterSetupFailedPhase)
      && (cfg.setups != [] && SomeAre(env.day2, AppDegraded) && !SomeAre(env.day2, AppError) ==>
            r.st.status.phase == ClusterSetupDegradedPhase)
  {
    assert SomeAre(env.day2, AppError) || SomeAre(env.day2, AppDegraded) ==> env.day2 != [] && !AllHealthy(env.day2);
    hide AllHealthy, SomeAre, SetupStatuses;
  }
}
