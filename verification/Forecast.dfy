/** What a pass without failures records, told from what it starts with and reads.

    For every step there is what its condition will be and whether the pass goes on after it;
    the step is followed with the state as far as it matters to the later ones. */
module Forecast {
  import opened Conditions
  import opened Applications
  import opened Hub
  import opened Lifecycle
  import opened Passes
  import opened HubInvariants
  import opened Convergence
  import opened Causes
  import DayTwo

  // -------- the forecast --------

  predicate Healthy(env: Env) {
    env.day1 != [] && Classify(env.day1[0], false) == AppHealthy
  }

  function Found(env: Env): Option<Provider> {
    if env.day1 == [] then None else Detect(env.day1[0].resources, env.day1[0].resources)
  }

  predicate DeploymentBroken(v: ProviderView) {
    && v.deployment.passwordRef && v.deployment.kubeconfigRef
    && (v.kubeconfig.None? || !v.hasUsername || v.password.None?)
  }

  // The cluster says it is there, but its secrets do not hold what they should.
  predicate Broken(v: ProviderView, p: Provider) {
    match p
    case HostedProvider(_, _, _) =>
      && LastIsTrue(v.hosted.conditions) && v.hosted.kubeconfigRef
      && (v.kubeconfig.None? || (!v.hosted.idps && v.hosted.passwordRef && v.password.None?))
    case DeploymentProvider(_, _) => FirstIsTrue(v.deployment.conditions) && DeploymentBroken(v)
    case ClaimProvider(_, _) => v.claimBound && DeploymentBroken(v)
  }

  // What the provider of the first day-1 application comes to.
  predicate Installs(env: Env) {
    Found(env).Some? && ProviderReady(env.provider, Found(env).value)
  }

  predicate Fails(env: Env) {
    Found(env).Some? && Broken(env.provider, Found(env).value)
  }

  // The install condition after the first two steps.
  predicate WillInstall(cfg: Config, env: Env, a: St) {
    if cfg.secretRef.Some? then env.secretRefData.Some? || On(a, ClusterInstallSucceeded)
    else if env.day1 == [] then On(a, ClusterInstallSucceeded)
    else
      && Healthy(env)
      && (if cfg.experimental then On(a, ClusterInstallSucceeded) else Installs(env))
  }

  predicate WillHaveKubeconfig(cfg: Config, env: Env, a: St) {
    || cfg.Me() in a.hub.kubeconfigs || cfg.secretRef.Some?
    || (!cfg.experimental && WillInstall(cfg, env, a))
  }

  // A cluster is there, or one can be made that will be found.
  predicate CanHaveCluster(cfg: Config, env: Env, a: St) {
    || FirstCluster(cfg.Me(), a.hub.clusters).Some?
    || (!NameTaken(a.hub.clusters, "cluster-" + env.newSuffix) && Matches(cfg.Me(), ClusterLabels(cfg)))
  }

  predicate WillCreate(cfg: Config, env: Env, a: St) {
    || On(a, ManagedClusterCreated)
    || (WillInstall(cfg, env, a) && (cfg.Registers() ==> CanHaveCluster(cfg, env, a)))
  }

  predicate WillHaveCluster(cfg: Config, env: Env, a: St) {
    || FirstCluster(cfg.Me(), a.hub.clusters).Some?
    || (cfg.Registers() && !On(a, ManagedClusterCreated) && WillCreate(cfg, env, a))
  }

  predicate WillImport(cfg: Config, env: Env, a: St) {
    || On(a, ManagedClusterImported)
    || (WillCreate(cfg, env, a) &&
        (cfg.Registers() ==>
           WillHaveCluster(cfg, env, a) && WillHaveKubeconfig(cfg, env, a) && LastIsTrue(env.importConditions)))
  }

  predicate MakesKlusterlet(cfg: Config) { cfg.enableKlusterlet && !cfg.skipRegistration }

  predicate WillAdd(cfg: Config, env: Env, a: St) {
    || On(a, ArgoClusterAdded)
    || (&& WillImport(cfg, env, a) && WillHaveKubeconfig(cfg, env, a) && env.login
        && (cfg.secretRef.Some? || env.day1 != []) && (cfg.Registers() ==> WillHaveCluster(cfg, env, a)))
  }

  predicate WillSetUp(cfg: Config, env: Env, a: St) {
    || On(a, ClusterSetupCreated)
    || (WillAdd(cfg, env, a) && (cfg.setups == [] || (DayTwo.AllExist(cfg, a.hub) && WillHaveKubeconfig(cfg, env, a))))
  }

  predicate WillSucceed(cfg: Config, env: Env, a: St) {
    || On(a, ClusterSetupSucceeded)
    || (WillSetUp(cfg, env, a) && (cfg.setups == [] || (env.day2 != [] && AllHealthy(env.day2))))
  }

  // Whether step `k` of a pass that began in `a` leaves its condition on, if it is reached.
  predicate Will(cfg: Config, env: Env, a: St, k: nat) {
    match k
    case 0 =>
      if cfg.secretRef.Some? then WillInstall(cfg, env, a)
      else On(a, ClusterDefinitionCreated) || cfg.definition in a.hub.appSets
    case 1 => WillInstall(cfg, env, a)
    case 2 => WillCreate(cfg, env, a)
    case 3 => WillImport(cfg, env, a)
    case 4 =>
      if WillImport(cfg, env, a) then MakesKlusterlet(cfg) ==> WillHaveCluster(cfg, env, a)
        else On(a, KlusterletAddonCreated)
    case 5 =>
      || On(a, ConsoleURLRetrieved)
      || (WillImport(cfg, env, a) && (cfg.Registers() ==> WillHaveCluster(cfg, env, a) && env.consoleClaims != []))
    case 6 => WillAdd(cfg, env, a)
    case 7 => WillSetUp(cfg, env, a)
    case _ => WillSucceed(cfg, env, a)
  }

  // Whether the step returns nil, if it is reached; otherwise it ends the pass.
  predicate GoesOn(cfg: Config, env: Env, a: St, k: nat) {
    match k
    case 0 => if cfg.secretRef.Some? then env.secretRefData.Some? else Will(cfg, env, a, 0)
    case 1 =>
      || cfg.secretRef.Some?
      || (env.day1 != [] &&
          !(Healthy(env) && !cfg.experimental && Fails(env)))
    case 2 => WillInstall(cfg, env, a) ==> WillCreate(cfg, env, a)
    case 3 =>
      || On(a, ManagedClusterImported) || !WillCreate(cfg, env, a) || !cfg.Registers()
      || (WillHaveCluster(cfg, env, a) && WillHaveKubeconfig(cfg, env, a))
    case 4 => WillImport(cfg, env, a) && MakesKlusterlet(cfg) ==> WillHaveCluster(cfg, env, a)
    case 5 => WillImport(cfg, env, a) && cfg.Registers() ==> WillHaveCluster(cfg, env, a)
    case 6 => WillImport(cfg, env, a) ==> WillAdd(cfg, env, a)
    case 7 => WillAdd(cfg, env, a) ==> WillSetUp(cfg, env, a)
    case 8 => WillSetUp(cfg, env, a) ==> On(a, ClusterSetupSucceeded) || cfg.setups == [] || env.day2 != []
    case _ => WillSucceed(cfg, env, a) ==> a.status.apiServerURL != "" || WillHaveKubeconfig(cfg, env, a)
  }

  predicate Gets(cfg: Config, env: Env, a: St, k: nat) {
    forall j: nat | j < k :: GoesOn(cfg, env, a, j)
  }

  // -------- on the way --------

  // Whether the kubeconfig is there matters from the registration on.
  ghost predicate KubeconfigTracked(cfg: Config, env: Env, a: St, b: St, k: nat) {
    if k == 0 then b.hub.kubeconfigs == a.hub.kubeconfigs
    else if k == 1 then if cfg.secretRef.Some? then cfg.Me() in b.hub.kubeconfigs
      else b.hub.kubeconfigs == a.hub.kubeconfigs
    else
      On(a, ManagedClusterCreated) || WillInstall(cfg, env, a) ==>
        (cfg.Me() in b.hub.kubeconfigs <==> WillHaveKubeconfig(cfg, env, a))
  }

  // The pass that began in `a` is in `b` before step `k`.
  ghost predicate Tracked(cfg: Config, env: Env, a: St, b: St, k: nat) {
    && TwoValued(b)
    && AllShow(cfg, env, a, b, k)
    && b.hub.appSets.Keys == a.hub.appSets.Keys && b.status.apiServerURL == a.status.apiServerURL
    && (k <= 2 ==> b.hub.clusters == a.hub.clusters)
    && (2 < k ==> (FirstCluster(cfg.Me(), b.hub.clusters).Some? <==> WillHaveCluster(cfg, env, a)))
    && KubeconfigTracked(cfg, env, a, b, k)
  }

  ghost predicate Shows(cfg: Config, env: Env, a: St, b: St, k: nat, j: nat)
    requires j < 9
  {
    // with a secret reference the first two steps are one
    (cfg.secretRef.Some? && j == 1) ||
    (On(b, Subject(cfg, j)) <==> if j < k then Will(cfg, env, a, j) else On(a, Subject(cfg, j)))
  }

  ghost predicate AllShow(cfg: Config, env: Env, a: St, b: St, k: nat) {
    forall j: nat | j < 9 :: Shows(cfg, env, a, b, k, j)
  }

  // -------- the steps --------

  // What step `k` comes to: whether it goes on, and its own condition.
  ghost predicate Foretold(cfg: Config, env: Env, a: St, r: R, k: nat) {
    && (r.err == None <==> GoesOn(cfg, env, a, k))
    && (k < 9 ==> (On(r.st, Subject(cfg, k)) <==> Will(cfg, env, a, k)))
  }

  // What it leaves alone on the server, and of the status.
  ghost predicate Keeps(cfg: Config, b: St, n: St, k: nat) {
    && n.hub.appSets.Keys == b.hub.appSets.Keys
    && (k != 2 ==> n.hub.clusters == b.hub.clusters)
    && (1 < k ==> n.hub.kubeconfigs == b.hub.kubeconfigs)
  }

  lemma SecretRefForetold(cfg: Config, env: Env, a: St, b: St)
    requires Calm(env) && cfg.secretRef.Some? && Tracked(cfg, env, a, b, 0)
    ensures var r := Stage(cfg, env, b, 0);
      Foretold(cfg, env, a, r, 0) && (r.err == None ==> Keeps(cfg, b, r.st, 0) && cfg.Me() in r.st.hub.kubeconfigs)
  {
    assert Shows(cfg, env, a, b, 0, 0);
    if env.secretRefData.Some? {
      CalmSecrets(cfg, env, b.hub, env.secretRefData.value.0, env.secretRefData.value.1);
    }
    hide CreateClusterSecrets, OnlyChanges, TwoValued, FirstCluster;
  }

  lemma DefinitionForetold(cfg: Config, env: Env, a: St, b: St)
    requires Calm(env) && cfg.secretRef.None? && Tracked(cfg, env, a, b, 0)
    ensures var r := Stage(cfg, env, b, 0);
      Foretold(cfg, env, a, r, 0) && Keeps(cfg, b, r.st, 0) && r.st.hub.kubeconfigs == b.hub.kubeconfigs
  {
    assert Shows(cfg, env, a, b, 0, 0);
    assert Is(b, ClusterDefinitionCreated, False) <==> !On(b, ClusterDefinitionCreated);
    if cfg.definition in b.hub.appSets {
      CalmJoin(cfg, env, b.hub, cfg.definition, "https://kubernetes.default.svc", false, UpdateDefinition);
    }
    hide JoinAppSet, OnlyChanges, TwoValued, FirstCluster;
  }

  // In a calm pass a provider touches nothing but the credentials, and fails exactly when
  // it is broken.
  lemma CalmCredentials(cfg: Config, env: Env, w: Server)
    requires Calm(env)
    ensures var r := DeploymentSecrets(cfg, env, w);
      && r.0 == w.(kubeconfigs := r.0.kubeconfigs, passwords := r.0.passwords)
      && (cfg.Me() in w.kubeconfigs ==> cfg.Me() in r.0.kubeconfigs)
      && (r.1 == StatusError <==> DeploymentBroken(env.provider))
  {
    if env.provider.kubeconfig.Some? && env.provider.password.Some? {
      CalmSecrets(cfg, env, w, env.provider.kubeconfig.value, env.provider.password.value);
    }
    hide CreateClusterSecrets;
  }

  lemma CalmHostedFails(cfg: Config, env: Env, p: Provider, w: Server)
    requires Calm(env) && p.HostedProvider?
    ensures var r := HostedStatus(cfg, env, p, w);
      && r.0 == w.(kubeconfigs := r.0.kubeconfigs, passwords := r.0.passwords)
      && (cfg.Me() in w.kubeconfigs ==> cfg.Me() in r.0.kubeconfigs)
      && (r.1 == StatusError <==> Broken(env.provider, p))
  {
    var v := env.provider;
    if v.kubeconfig.Some? && (v.hosted.idps || v.password.Some?) {
      CalmSecrets(cfg, env, w, v.kubeconfig.value, if v.hosted.idps then "" else v.password.value);
    }
    hide CreateClusterSecrets, PoolsReady, LastIsTrue;
  }

  lemma CalmProviderFails(cfg: Config, env: Env, p: Provider, w: Server)
    requires Calm(env)
    ensures var r := GetClusterStatus(cfg, env, p, w);
      && r.0 == w.(kubeconfigs := r.0.kubeconfigs, passwords := r.0.passwords)
      && (cfg.Me() in w.kubeconfigs ==> cfg.Me() in r.0.kubeconfigs)
      && (r.1 == StatusError <==> Broken(env.provider, p))
      && (r.1 == IsReady <==> ProviderReady(env.provider, p))
      && (r.1 == IsReady ==> cfg.Me() in r.0.kubeconfigs)
  {
    if p.HostedProvider? {
      CalmHostedFails(cfg, env, p, w);
    } else {
      CalmCredentials(cfg, env, w);
    }
    CalmProvider(cfg, env, p, w);
    hide DeploymentSecrets, HostedStatus, FirstIsTrue, ProviderReady, DeploymentBroken;
  }

  lemma ProviderForetold(cfg: Config, env: Env, b: St)
    requires Calm(env) && env.day1 != []
    ensures var r := ReconcileProvider(cfg, env, b, env.day1[0]);
      && (r.err == None <==> !Fails(env)) && (On(r.st, ClusterInstallSucceeded) <==> Installs(env))
      && r.st.hub == b.hub.(kubeconfigs := r.st.hub.kubeconfigs, passwords := r.st.hub.passwords)
      && (cfg.Me() in b.hub.kubeconfigs || Installs(env) ==> cfg.Me() in r.st.hub.kubeconfigs)
  {
    if Found(env).Some? {
      CalmProviderFails(cfg, env, Found(env).value, b.hub);
    }
    hide GetClusterStatus, Detect, ProviderReady, Broken, OnlyChanges;
  }

  // The install step on a definition that is there.
  lemma CalmStatus(cfg: Config, env: Env, b: St)
    requires Calm(env) && !Is(b, ClusterDefinitionCreated, False)
    ensures var r := ReconcileClusterStatus(cfg, env, b);
      if env.day1 == [] then r == R(b, Some(AppNotFound))
      else if !Healthy(env) then r.err == None && !On(r.st, ClusterInstallSucceeded) && r.st.hub == b.hub
      else if cfg.experimental then r == R(SetPhase(b, ClusterInstallingPhase), None)
      else r == ReconcileProvider(cfg, env, SetPhase(b, ClusterInstallingPhase), env.day1[0])
  {
    hide ReconcileProvider, Classify, OnlyChanges;
  }

  lemma StatusForetold(cfg: Config, env: Env, b: St)
    requires Calm(env) && !Is(b, ClusterDefinitionCreated, False)
    ensures var r := ReconcileClusterStatus(cfg, env, b);
      && (r.err == None <==> env.day1 != [] && !(Healthy(env) && !cfg.experimental && Fails(env)))
      && (On(r.st, ClusterInstallSucceeded) <==>
            if env.day1 == [] then On(b, ClusterInstallSucceeded)
            else Healthy(env) && (if cfg.experimental then On(b, ClusterInstallSucceeded) else Installs(env)))
      && r.st.hub == b.hub.(kubeconfigs := r.st.hub.kubeconfigs, passwords := r.st.hub.passwords)
      && (cfg.Me() in b.hub.kubeconfigs ==> cfg.Me() in r.st.hub.kubeconfigs)
      && (cfg.experimental ==> r.st.hub.kubeconfigs == b.hub.kubeconfigs)
      && (!cfg.experimental && env.day1 != [] && On(r.st, ClusterInstallSucceeded) ==> cfg.Me() in r.st.hub.kubeconfigs)
  {
    hide ReconcileClusterStatus, ReconcileProvider, Calm, Installs, Fails;
    CalmStatus(cfg, env, b);
    if env.day1 != [] {
      ProviderForetold(cfg, env, SetPhase(b, ClusterInstallingPhase));
    }
  }

  lemma InstallForetold(cfg: Config, env: Env, a: St, b: St)
    requires Calm(env) && Tracked(cfg, env, a, b, 1) && (cfg.secretRef.None? ==> Will(cfg, env, a, 0))
    requires cfg.secretRef.Some? ==> env.secretRefData.Some?
    ensures var r := Stage(cfg, env, b, 1);
      Foretold(cfg, env, a, r, 1) && Keeps(cfg, b, r.st, 1)
  {
    assert Shows(cfg, env, a, b, 1, 0) && Shows(cfg, env, a, b, 1, 1);
    hide ReconcileClusterStatus, Healthy, Installs, Fails, FirstCluster, OnlyChanges;
    if cfg.secretRef.None? {
      StatusForetold(cfg, env, b);
    }
  }

  lemma KubeconfigAfterInstall(cfg: Config, env: Env, a: St, b: St)
    requires Calm(env) && Tracked(cfg, env, a, b, 1) && (cfg.secretRef.None? ==> Will(cfg, env, a, 0))
    requires Backed(cfg, a) && Stage(cfg, env, b, 1).err == None
    ensures KubeconfigTracked(cfg, env, a, Stage(cfg, env, b, 1).st, 2)
  {
    assert Shows(cfg, env, a, b, 1, 0) && Shows(cfg, env, a, b, 1, 1);
    hide ReconcileClusterStatus, Healthy, Installs, Fails, FirstCluster, OnlyChanges;
    if cfg.secretRef.None? {
      StatusForetold(cfg, env, b);
    }
  }

  lemma GateIs(b: St, prev: ConditionType, t: ConditionType)
    requires TwoValued(b)
    ensures Gate(b, prev, Some(t)) <==> On(b, prev) && !On(b, t)
    ensures Gate(b, prev, None) <==> On(b, prev)
  {
    assert Get(b.status.conditions, prev).status != Unknown && Get(b.status.conditions, t).status != Unknown;
  }

  // The registration, spelled out for a calm pass.
  lemma CalmRegistration(cfg: Config, env: Env, w: Server)
    requires Calm(env)
    ensures var mc := ManagedCluster("cluster-" + env.newSuffix, ClusterLabels(cfg));
      CreateManagedCluster(cfg, env, w) ==
        if FirstCluster(cfg.Me(), w.clusters).Some? then (w, true)
        else if NameTaken(w.clusters, mc.name) then (w, false)
        else (w.(clusters := w.clusters + [mc]), true)
  {
    hide FirstCluster, ClusterLabels, NameTaken;
  }

  lemma CalmClusterStep(cfg: Config, env: Env, b: St)
    requires Calm(env) && TwoValued(b)
    ensures var r := Stage(cfg, env, b, 2);
      var open := Gate(b, ClusterInstallSucceeded, Some(ManagedClusterCreated));
      && (r.err == None <==> !open || !cfg.Registers() || CanHaveCluster(cfg, env, b))
      && (On(r.st, ManagedClusterCreated) <==>
            if open then !cfg.Registers() || CanHaveCluster(cfg, env, b) else On(b, ManagedClusterCreated))
      && r.st.hub == b.hub.(clusters := r.st.hub.clusters)
      && (r.err == None ==>
            (FirstCluster(cfg.Me(), r.st.hub.clusters).Some? <==>
             FirstCluster(cfg.Me(), b.hub.clusters).Some? || (open && cfg.Registers())))
  {
    assert Get(b.status.conditions, ManagedClusterCreated).status != Unknown;
    CalmRegistration(cfg, env, b.hub);
    FirstClusterAppend(cfg.Me(), b.hub.clusters, ManagedCluster("cluster-" + env.newSuffix, ClusterLabels(cfg)));
    hide FirstCluster, ClusterLabels, Matches, NameTaken, CreateManagedCluster, OnlyChanges, TwoValued;
  }

  lemma ClusterForetold(cfg: Config, env: Env, a: St, b: St)
    requires Calm(env) && Tracked(cfg, env, a, b, 2)
    ensures var r := Stage(cfg, env, b, 2);
      && Foretold(cfg, env, a, r, 2) && Keeps(cfg, b, r.st, 2)
      && (r.err == None ==> (FirstCluster(cfg.Me(), r.st.hub.clusters).Some? <==> WillHaveCluster(cfg, env, a)))
  {
    assert Shows(cfg, env, a, b, 2, 0) && Shows(cfg, env, a, b, 2, 1) && Shows(cfg, env, a, b, 2, 2);
    hide Stage, Calm, WillInstall, FirstCluster, ClusterLabels, Matches, NameTaken, Gate, On, TwoValued,
      KubeconfigTracked;
    GateIs(b, ClusterInstallSucceeded, ManagedClusterCreated);
    CalmClusterStep(cfg, env, b);
  }

  // Each forecast implies the one before it, as the recorded conditions do.
  lemma WillsChain(cfg: Config, env: Env, a: St)
    requires Chain(a)
    ensures WillSucceed(cfg, env, a) ==> WillSetUp(cfg, env, a)
    ensures WillSetUp(cfg, env, a) ==> WillAdd(cfg, env, a)
    ensures WillAdd(cfg, env, a) ==> WillImport(cfg, env, a)
    ensures WillImport(cfg, env, a) ==> WillCreate(cfg, env, a)
  {
    hide WillInstall, WillHaveKubeconfig, WillHaveCluster, CanHaveCluster, FirstCluster, On;
  }

  // What is known before step `k` once the registration is behind.
  lemma KnownLater(cfg: Config, env: Env, a: St, b: St, k: nat, j: nat)
    requires 2 < k && j < 9 && 2 <= j && Tracked(cfg, env, a, b, k)
    ensures On(b, Subject(cfg, j)) <==> if j < k then Will(cfg, env, a, j) else On(a, Subject(cfg, j))
    ensures FirstCluster(cfg.Me(), b.hub.clusters).Some? <==> WillHaveCluster(cfg, env, a)
    ensures WillCreate(cfg, env, a) ==> (cfg.Me() in b.hub.kubeconfigs <==> WillHaveKubeconfig(cfg, env, a))
    ensures TwoValued(b) && b.hub.appSets.Keys == a.hub.appSets.Keys && b.status.apiServerURL == a.status.apiServerURL
  {
    assert Shows(cfg, env, a, b, k, j);
    hide WillInstall, WillHaveKubeconfig, WillHaveCluster, FirstCluster, TwoValued, Will;
  }

  lemma CalmImport(cfg: Config, env: Env, b: St)
    requires Calm(env)
    ensures var r := Stage(cfg, env, b, 3);
      var open := Gate(b, ManagedClusterCreated, Some(ManagedClusterImported));
      var there := FirstCluster(cfg.Me(), b.hub.clusters).Some? && cfg.Me() in b.hub.kubeconfigs;
      && (r.err == None <==> !open || !cfg.Registers() || there)
      && (On(r.st, ManagedClusterImported) <==>
            if open then !cfg.Registers() || (there && LastIsTrue(env.importConditions))
              else On(b, ManagedClusterImported))
      && r.st.hub == b.hub.(importSecrets := r.st.hub.importSecrets)
  {
    hide FirstCluster, LastIsTrue, OnlyChanges, CanExecute;
  }

  lemma ImportForetold(cfg: Config, env: Env, a: St, b: St)
    requires Calm(env) && Tracked(cfg, env, a, b, 3)
    ensures var r := Stage(cfg, env, b, 3); Foretold(cfg, env, a, r, 3) && Keeps(cfg, b, r.st, 3)
  {
    hide Stage, Calm, Tracked, WillCreate, WillHaveKubeconfig, WillHaveCluster, FirstCluster, LastIsTrue, On, Gate,
      TwoValued;
    KnownLater(cfg, env, a, b, 3, 2);
    KnownLater(cfg, env, a, b, 3, 3);
    GateIs(b, ManagedClusterCreated, ManagedClusterImported);
    CalmImport(cfg, env, b);
  }

  lemma CalmKlusterletStep(cfg: Config, env: Env, b: St)
    requires Calm(env)
    ensures var r := Stage(cfg, env, b, 4);
      var open := Gate(b, ManagedClusterImported, None);
      var fine := MakesKlusterlet(cfg) ==> FirstCluster(cfg.Me(), b.hub.clusters).Some?;
      && (r.err == None <==> !open || fine)
      && (On(r.st, KlusterletAddonCreated) <==> if open then fine else On(b, KlusterletAddonCreated))
      && r.st.hub == b.hub.(klusterlets := r.st.hub.klusterlets)
  {
    hide FirstCluster, OnlyChanges, CanExecute;
  }

  lemma KlusterletForetold(cfg: Config, env: Env, a: St, b: St)
    requires Calm(env) && Tracked(cfg, env, a, b, 4)
    ensures var r := Stage(cfg, env, b, 4); Foretold(cfg, env, a, r, 4) && Keeps(cfg, b, r.st, 4)
  {
    hide Stage, Calm, Tracked, WillCreate, WillImport, WillHaveKubeconfig, WillHaveCluster, FirstCluster, On, Gate,
      TwoValued;
    KnownLater(cfg, env, a, b, 4, 3);
    KnownLater(cfg, env, a, b, 4, 4);
    GateIs(b, ManagedClusterImported, ManagedClusterImported);
    CalmKlusterletStep(cfg, env, b);
  }

  lemma CalmConsoleStep(cfg: Config, env: Env, b: St)
    requires Calm(env)
    ensures var r := Stage(cfg, env, b, 5);
      var open := Gate(b, ManagedClusterImported, None);
      var there := FirstCluster(cfg.Me(), b.hub.clusters).Some?;
      && (r.err == None <==> !open || !cfg.Registers() || there)
      && (On(r.st, ConsoleURLRetrieved) <==>
            On(b, ConsoleURLRetrieved) || (open && (!cfg.Registers() || (there && env.consoleClaims != []))))
      && r.st.hub == b.hub
  {
    hide FirstCluster, OnlyChanges, CanExecute;
  }

  lemma ConsoleForetold(cfg: Config, env: Env, a: St, b: St)
    requires Calm(env) && Tracked(cfg, env, a, b, 5)
    ensures var r := Stage(cfg, env, b, 5); Foretold(cfg, env, a, r, 5) && Keeps(cfg, b, r.st, 5)
  {
    hide Stage, Calm, Tracked, WillCreate, WillImport, WillHaveKubeconfig, WillHaveCluster, FirstCluster, On, Gate,
      TwoValued;
    KnownLater(cfg, env, a, b, 5, 3);
    KnownLater(cfg, env, a, b, 5, 5);
    GateIs(b, ManagedClusterImported, ManagedClusterImported);
    CalmConsoleStep(cfg, env, b);
  }

  lemma CalmFinish(cfg: Config, env: Env, w: Server)
    requires Calm(env)
    ensures FinishArgo(cfg, env, w).0 == w.(argoSecrets := FinishArgo(cfg, env, w).0.argoSecrets)
  {
    hide FirstCluster, SecretNamed;
  }

  lemma CalmArgoStep(cfg: Config, env: Env, b: St)
    requires Calm(env)
    ensures var r := Stage(cfg, env, b, 6);
      var open := Gate(b, ManagedClusterImported, Some(ArgoClusterAdded));
      && (r.err == None <==> !open || On(r.st, ArgoClusterAdded))
      && (!open ==> r == R(b, None))
      && r.st.hub == b.hub.(argoSecrets := r.st.hub.argoSecrets)
  {
    CalmFinish(cfg, env, b.hub);
    hide FirstCluster, FinishArgo, OnlyChanges, CanExecute;
  }

  lemma StageSixShows(cfg: Config, env: Env, b: St)
    ensures On(Stage(cfg, env, b, 6).st, ArgoClusterAdded) <==>
        On(ReconcileAddClusterToArgo(cfg, env, b).st, ArgoClusterAdded)
  {
    hide ReconcileAddClusterToArgo;
  }

  lemma ArgoForetold(cfg: Config, env: Env, a: St, b: St)
    requires Calm(env) && Chain(a) && Tracked(cfg, env, a, b, 6)
    ensures var r := Stage(cfg, env, b, 6); Foretold(cfg, env, a, r, 6) && Keeps(cfg, b, r.st, 6)
  {
    hide Stage, Calm, Tracked, WillCreate, WillImport, WillHaveKubeconfig, WillHaveCluster, FirstCluster, On, Gate,
      TwoValued, Chain, ReconcileAddClusterToArgo;
    KnownLater(cfg, env, a, b, 6, 3);
    KnownLater(cfg, env, a, b, 6, 6);
    GateIs(b, ManagedClusterImported, ArgoClusterAdded);
    WillsChain(cfg, env, a);
    CalmArgoStep(cfg, env, b);
    StageSixShows(cfg, env, b);
    if Gate(b, ManagedClusterImported, Some(ArgoClusterAdded)) {
      AddedExactlyWhen(cfg, env, b);
    }
  }

  lemma CalmSetupCreateStep(cfg: Config, env: Env, b: St)
    requires Calm(env)
    ensures var r := Stage(cfg, env, b, 7);
      var open := Gate(b, ArgoClusterAdded, Some(ClusterSetupCreated));
      && (r.err == None <==> !open || On(r.st, ClusterSetupCreated))
      && (!open ==> r == R(b, None))
      && (On(r.st, ClusterSetupCreated) <==> On(ReconcileClusterSetupCreate(cfg, env, b).st, ClusterSetupCreated))
  {
    hide CreateDay2, OnlyChanges, CanExecute;
  }

  lemma CalmDay2Frame(cfg: Config, env: Env, w: Server)
    requires Calm(env)
    ensures var n := CreateDay2(cfg, env, w).0;
      n == w.(rv := n.rv, appSets := n.appSets) && n.appSets.Keys == w.appSets.Keys
  {
    FetchedExactlyWhen(cfg, env, w, 0, NothingFetched(w));
    if DayTwo.AllExist(cfg, w) && cfg.Me() in w.kubeconfigs {
      CalmDay2(cfg, env, w);
    }
    hide FetchSetups, JoinAppSet;
  }

  lemma SetupCreateFrame(cfg: Config, env: Env, b: St)
    requires Calm(env)
    ensures var n := Stage(cfg, env, b, 7).st.hub;
      n == b.hub.(rv := n.rv, appSets := n.appSets) && n.appSets.Keys == b.hub.appSets.Keys
  {
    CalmDay2Frame(cfg, env, b.hub);
    hide CreateDay2, OnlyChanges, CanExecute;
  }

  lemma SetupCreateForetold(cfg: Config, env: Env, a: St, b: St)
    requires Calm(env) && Chain(a) && Tracked(cfg, env, a, b, 7)
    ensures var r := Stage(cfg, env, b, 7); Foretold(cfg, env, a, r, 7) && Keeps(cfg, b, r.st, 7)
  {
    hide Stage, Calm, Tracked, WillCreate, WillImport, WillAdd, WillHaveKubeconfig, WillHaveCluster, FirstCluster, On,
      Gate, TwoValued, Chain, ReconcileClusterSetupCreate;
    KnownLater(cfg, env, a, b, 7, 6);
    KnownLater(cfg, env, a, b, 7, 7);
    GateIs(b, ArgoClusterAdded, ClusterSetupCreated);
    WillsChain(cfg, env, a);
    CalmSetupCreateStep(cfg, env, b);
    SetupCreateFrame(cfg, env, b);
    SameSetsExist(cfg, a.hub, b.hub);
    if Gate(b, ArgoClusterAdded, Some(ClusterSetupCreated)) {
      SetupCreatedExactlyWhen(cfg, env, b);
    }
  }

  lemma SameSetsExist(cfg: Config, a: Server, b: Server)
    requires a.appSets.Keys == b.appSets.Keys
    ensures DayTwo.AllExist(cfg, a) <==> DayTwo.AllExist(cfg, b)
  {
    assert forall m :: m in a.appSets <==> m in b.appSets;
  }

  lemma CalmSetupStep(cfg: Config, env: Env, b: St)
    requires Calm(env)
    ensures var r := Stage(cfg, env, b, 8);
      var open := Gate(b, ClusterSetupCreated, Some(ClusterSetupSucceeded));
      && (r.err == None <==> !open || cfg.setups == [] || env.day2 != [])
      && (!open ==> r == R(b, None))
      && (On(r.st, ClusterSetupSucceeded) <==> On(ReconcileClusterSetup(cfg, env, b).st, ClusterSetupSucceeded))
      && r.st.hub == b.hub
  {
    hide AllHealthy, SomeAre, SetupStatuses, OnlyChanges, CanExecute;
  }

  lemma SetupForetold(cfg: Config, env: Env, a: St, b: St)
    requires Calm(env) && Chain(a) && Tracked(cfg, env, a, b, 8)
    ensures var r := Stage(cfg, env, b, 8); Foretold(cfg, env, a, r, 8) && Keeps(cfg, b, r.st, 8)
  {
    hide Stage, Calm, Tracked, WillSetUp, WillHaveKubeconfig, WillHaveCluster, FirstCluster, On, Gate, TwoValued, Chain,
      ReconcileClusterSetup, AllHealthy, SomeAre;
    KnownLater(cfg, env, a, b, 8, 7);
    KnownLater(cfg, env, a, b, 8, 8);
    GateIs(b, ClusterSetupCreated, ClusterSetupSucceeded);
    CalmSetupStep(cfg, env, b);
    if Gate(b, ClusterSetupCreated, Some(ClusterSetupSucceeded)) {
      SucceededExactlyWhen(cfg, env, b);
    }
  }

  lemma CalmCredentialsStep(cfg: Config, env: Env, b: St)
    requires Calm(env) && TwoValued(b)
    ensures var r := Stage(cfg, env, b, 9);
      && (r.err == None <==> On(b, ClusterSetupSucceeded) ==>
          b.status.apiServerURL != "" || cfg.Me() in b.hub.kubeconfigs)
      && r.st.hub == b.hub
  {
    assert Get(b.status.conditions, ClusterSetupSucceeded).status != Unknown;
    hide AddSecrets, TwoValued;
  }

  lemma CredentialsForetold(cfg: Config, env: Env, a: St, b: St)
    requires Calm(env) && Chain(a) && Tracked(cfg, env, a, b, 9)
    ensures var r := Stage(cfg, env, b, 9); Foretold(cfg, env, a, r, 9) && Keeps(cfg, b, r.st, 9)
  {
    hide Stage, Calm, Tracked, WillSucceed, WillHaveKubeconfig, WillHaveCluster, FirstCluster, On, TwoValued, Chain;
    KnownLater(cfg, env, a, b, 9, 8);
    WillsChain(cfg, env, a);
    CalmCredentialsStep(cfg, env, b);
  }

  // -------- the pass --------

  lemma MarksLeft(cfg: Config, b: St, n: St, ok: bool, k: nat)
    requires k < STAGE_COUNT && TwoValued(b) && StepFacts(cfg, b, n, ok, k)
    ensures TwoValued(n)
    ensures forall u | u != Ready && (k == 9 || u != Subject(cfg, k)) :: On(n, u) == On(b, u)
  {
    if k != 9 {
      Unmoved(b, n, Subject(cfg, k));
    }
  }

  lemma MarksAfter(cfg: Config, env: Env, a: St, b: St, r: R, k: nat)
    requires k < STAGE_COUNT && Tracked(cfg, env, a, b, k) && Foretold(cfg, env, a, r, k)
    requires StepFacts(cfg, b, r.st, r.err == None, k)
    ensures TwoValued(r.st) && AllShow(cfg, env, a, r.st, k + 1)
  {
    hide On, TwoValued, Will, GoesOn, OnlyChanges, FirstCluster, WillHaveCluster, KubeconfigTracked, StepFacts;
    MarksLeft(cfg, b, r.st, r.err == None, k);
    var n := k + 1;
    forall j: nat | j < 9 ensures Shows(cfg, env, a, r.st, n, j) {
      assert Shows(cfg, env, a, b, k, j);
      if cfg.secretRef.Some? && k == 1 && j == 0 {
        SecretRefIsOne(cfg, env, a);
      }
    }
  }

  lemma SecretRefIsOne(cfg: Config, env: Env, a: St)
    requires cfg.secretRef.Some?
    ensures Will(cfg, env, a, 0) == Will(cfg, env, a, 1)
  {}

  lemma StageForetold(cfg: Config, env: Env, a: St, b: St, k: nat)
    requires k < STAGE_COUNT && Calm(env) && Chain(a) && Backed(cfg, a) && Tracked(cfg, env, a, b, k)
        && Gets(cfg, env, a, k)
    ensures var r := Stage(cfg, env, b, k);
      Foretold(cfg, env, a, r, k) && (r.err == None && 1 < k ==> Keeps(cfg, b, r.st, k))
  {
    hide Stage, Calm, Chain, Tracked, Foretold, Keeps, Will;
    match k {
      case 0 =>
        if cfg.secretRef.Some? {
          SecretRefForetold(cfg, env, a, b);
        } else {
          DefinitionForetold(cfg, env, a, b);
        }
      case 1 =>
        assert GoesOn(cfg, env, a, 0);
        InstallForetold(cfg, env, a, b);
      case 2 => ClusterForetold(cfg, env, a, b);
      case 3 => ImportForetold(cfg, env, a, b);
      case 4 => KlusterletForetold(cfg, env, a, b);
      case 5 => ConsoleForetold(cfg, env, a, b);
      case 6 => ArgoForetold(cfg, env, a, b);
      case 7 => SetupCreateForetold(cfg, env, a, b);
      case 8 => SetupForetold(cfg, env, a, b);
      case _ => CredentialsForetold(cfg, env, a, b);
    }
  }

  // The part of what is tracked that is about the server and the API server URL.
  ghost predicate HubTracked(cfg: Config, env: Env, a: St, b: St, k: nat) {
    && b.hub.appSets.Keys == a.hub.appSets.Keys && b.status.apiServerURL == a.status.apiServerURL
    && (k <= 2 ==> b.hub.clusters == a.hub.clusters)
    && (2 < k ==> (FirstCluster(cfg.Me(), b.hub.clusters).Some? <==> WillHaveCluster(cfg, env, a)))
    && KubeconfigTracked(cfg, env, a, b, k)
  }

  lemma FirstHubTracked(cfg: Config, env: Env, a: St, b: St, k: nat)
    requires k <= 1 && Calm(env) && Backed(cfg, a) && Tracked(cfg, env, a, b, k) && Gets(cfg, env, a, k)
    requires Stage(cfg, env, b, k).err == None
    ensures HubTracked(cfg, env, a, Stage(cfg, env, b, k).st, k + 1)
  {
    hide Stage, Calm, Will, WillHaveCluster, FirstCluster, Backed, Foretold, StepFacts, OnlyChanges, TwoValued, Shows;
    assert TwoValued(b) && (k == 1 ==> GoesOn(cfg, env, a, 0));
    UrlStays(cfg, env, b, k);
    if k == 1 {
      InstallForetold(cfg, env, a, b);
      KubeconfigAfterInstall(cfg, env, a, b);
    } else if cfg.secretRef.Some? {
      SecretRefForetold(cfg, env, a, b);
    } else {
      DefinitionForetold(cfg, env, a, b);
    }
  }

  lemma UrlStays(cfg: Config, env: Env, b: St, k: nat)
    requires k < 9 && TwoValued(b)
    ensures Stage(cfg, env, b, k).st.status.apiServerURL == b.status.apiServerURL
  {
    StageSteps(cfg, env, b, k);
    hide Stage, TwoValued;
  }

  lemma LaterHubTracked(cfg: Config, env: Env, a: St, b: St, k: nat)
    requires 2 <= k < 9 && Calm(env) && Chain(a) && Tracked(cfg, env, a, b, k)
    requires Keeps(cfg, b, Stage(cfg, env, b, k).st, k) && Stage(cfg, env, b, k).err == None
    ensures HubTracked(cfg, env, a, Stage(cfg, env, b, k).st, k + 1)
  {
    hide Stage, Calm, Will, WillInstall, WillHaveKubeconfig, WillHaveCluster, FirstCluster, Foretold, TwoValued, Shows,
      Chain, On;
    assert TwoValued(b);
    UrlStays(cfg, env, b, k);
    if k == 2 {
      ClusterForetold(cfg, env, a, b);
    }
  }

  // The conditions after the pass, as far as it got.
  ghost predicate Told(cfg: Config, env: Env, a: St, r: R, k: nat) {
    && (r.err == None <==> forall j: nat | k <= j < STAGE_COUNT :: GoesOn(cfg, env, a, j))
    && (forall j: nat | j < 9 :: Records(cfg, env, a, r.st, j))
  }

  // A step that is reached leaves what was foretold; the others leave what was there.
  ghost predicate Records(cfg: Config, env: Env, a: St, b: St, j: nat)
    requires j < 9
  {
    // with a secret reference the first two steps are one
    (cfg.secretRef.Some? && j == 1) ||
    (On(b, Subject(cfg, j)) <==> if Gets(cfg, env, a, j) then Will(cfg, env, a, j) else On(a, Subject(cfg, j)))
  }

  lemma ToldAtEnd(cfg: Config, env: Env, a: St, b: St, k: nat)
    requires k <= STAGE_COUNT && Gets(cfg, env, a, k) && (k < STAGE_COUNT ==> !GoesOn(cfg, env, a, k))
    requires AllShow(cfg, env, a, b, if k < STAGE_COUNT then k + 1 else k)
    ensures forall j: nat | j < 9 :: Records(cfg, env, a, b, j)
  {
    hide Will, GoesOn, On;
    forall j: nat | j < 9 ensures Records(cfg, env, a, b, j) {
      assert Shows(cfg, env, a, b, if k < STAGE_COUNT then k + 1 else k, j);
      assert j <= k ==> Gets(cfg, env, a, j);
      assert k < j ==> !Gets(cfg, env, a, j);
    }
  }

  lemma {:induction false} StagesTold(cfg: Config, env: Env, a: St, b: St, k: nat)
    requires k <= STAGE_COUNT && Calm(env) && Chain(a) && Backed(cfg, a)
    requires if k < STAGE_COUNT then Tracked(cfg, env, a, b, k) else AllShow(cfg, env, a, b, k)
    requires Gets(cfg, env, a, k)
    ensures Told(cfg, env, a, Stages(cfg, env, b, k), k)
    decreases STAGE_COUNT - k
  {
    hide Stage, Calm, Chain, Will, GoesOn, Backed, KubeconfigTracked, WillHaveCluster, FirstCluster, On, TwoValued,
      Shows, Records, StepFacts, Keeps;
    if k == STAGE_COUNT {
      ToldAtEnd(cfg, env, a, b, k);
    } else {
      var r := Stage(cfg, env, b, k);
      StageForetold(cfg, env, a, b, k);
      StageSteps(cfg, env, b, k);
      MarksAfter(cfg, env, a, b, r, k);
      if r.err.Some? {
        ToldAtEnd(cfg, env, a, r.st, k);
      } else {
        GoesOneFurther(cfg, env, a, k);
        if k <= 1 {
          FirstHubTracked(cfg, env, a, b, k);
        } else if k < 9 {
          LaterHubTracked(cfg, env, a, b, k);
        }
        StagesTold(cfg, env, a, r.st, k + 1);
      }
    }
  }

  lemma GoesOneFurther(cfg: Config, env: Env, a: St, k: nat)
    requires Gets(cfg, env, a, k) && GoesOn(cfg, env, a, k)
    ensures Gets(cfg, env, a, k + 1)
  {
    hide GoesOn;
  }

  lemma TrackedAtStart(cfg: Config, env: Env, a: St)
    requires TwoValued(a)
    ensures Tracked(cfg, env, a, a, 0)
  {}

  /** A pass without failures, from any reachable state: every step that is reached leaves
      its condition as foretold and every other condition is left as it was; the pass
      returns nil exactly when every step is foretold to go on, and it then ends in Ready
      exactly when the setup is foretold to have succeeded. */
  lemma CalmPassRecords(cfg: Config, env: Env, s: Stored, w: Server)
    requires StoredInv(s, w) && HubInv(cfg, w) && StoredBacked(cfg, s, w) && Calm(env) && env.templateFound
    ensures var a, r := PassStart(cfg, env, s, w), Pass(cfg, env, s, w);
      && (forall j: nat | j < 9 :: Records(cfg, env, a, r.st, j))
      && (r.err == None <==> Gets(cfg, env, a, STAGE_COUNT))
      && (r.err == None ==> (r.st.status.phase == ReadyPhase <==> WillSucceed(cfg, env, a)))
  {
    var a := PassStart(cfg, env, s, w);
    StartInv(cfg, env, s, w);
    StartBacked(cfg, env, s, w);
    TrackedAtStart(cfg, env, a);
    PassAdvances(cfg, env, s, w);
    hide Stages, PassStart, HubInv, Backed, StoredInv, Chain, GoesOn, WillSucceed, On, Tracked, Records;
    StagesTold(cfg, env, a, a, 0);
    if Pass(cfg, env, s, w).err == None {
      SucceedsIfAll(cfg, env, a, Pass(cfg, env, s, w).st);
    }
  }

  lemma SucceedsIfAll(cfg: Config, env: Env, a: St, b: St)
    requires Gets(cfg, env, a, STAGE_COUNT) && Records(cfg, env, a, b, 8)
    ensures On(b, ClusterSetupSucceeded) <==> WillSucceed(cfg, env, a)
  {
    assert Gets(cfg, env, a, 8);
    hide GoesOn, WillSucceed, On;
  }
}
