/** What a favourable pass achieves: from any reachable state it ends in Ready, and a
    second one leaves everything as it is.

    Each step has a piece of the final state that it settles; a favourable step settles
    its piece, later steps keep it, and on a settled state every step is at rest. */
module Convergence {
  import opened Generators
  import opened Conditions
  import opened Applications
  import opened Hub
  import opened Lifecycle
  import opened Passes
  import opened HubInvariants

  // Every call is carried out and answered, and nobody else moves in between.
  ghost predicate Calm(env: Env) {
    forall s :: env.reply(s) == Reply(Served, None)
  }

  predicate DeploymentComplete(v: ProviderView) {
    v.deployment.passwordRef && v.deployment.kubeconfigRef && v.kubeconfig.Some? && v.hasUsername && v.password.Some?
  }

  predicate ProviderReady(v: ProviderView, p: Provider) {
    match p
    case HostedProvider(name, _, pools) =>
      && LastIsTrue(v.hosted.conditions) && v.hosted.kubeconfigRef && v.kubeconfig.Some?
      && (v.hosted.idps || (v.hosted.passwordRef && v.password.Some?))
      && (pools == [] || PoolsReady(v.pools, name))
    case DeploymentProvider(_, _) => FirstIsTrue(v.deployment.conditions) && DeploymentComplete(v)
    case ClaimProvider(_, _) => v.claimBound && DeploymentComplete(v)
  }

  function ProviderPassword(v: ProviderView, p: Provider): string {
    if (p.HostedProvider? && v.hosted.idps) || v.password.None? then "" else v.password.value
  }

  // The credentials a pass finds, whichever way the instance gets its cluster.
  function Credentials(cfg: Config, env: Env): Option<(string, string)> {
    if cfg.secretRef.Some? then env.secretRefData
    else if cfg.experimental || env.day1 == [] then None
    else
      var p := Detect(env.day1[0].resources, env.day1[0].resources);
      if p.None? || env.provider.kubeconfig.None? then None
      else Some((env.provider.kubeconfig.value, ProviderPassword(env.provider, p.value)))
  }

  function WithCredentials(me: Key, w: Server, url: string, password: string): Server {
    w.(kubeconfigs := if me in w.kubeconfigs then w.kubeconfigs else w.kubeconfigs[me := url],
       passwords := if password == "" || me in w.passwords then w.passwords else w.passwords[me := password])
  }

  ghost predicate Day1Ready(cfg: Config, env: Env, st: St) {
    && (Is(st, ClusterDefinitionCreated, False) ==> cfg.definition in st.hub.appSets)
    && env.day1 != [] && Classify(env.day1[0], false) == AppHealthy
    && (cfg.experimental ==> On(st, ClusterInstallSucceeded) && cfg.Me() in st.hub.kubeconfigs)
    && (!cfg.experimental ==>
          var p := Detect(env.day1[0].resources, env.day1[0].resources);
          p.Some? && ProviderReady(env.provider, p.value))
  }

  ghost predicate RegistrationReady(cfg: Config, env: Env, st: St) {
    && (cfg.enableKlusterlet && !cfg.skipRegistration ==> cfg.enableManagedCluster)
    && (cfg.Registers() ==>
          && Matches(cfg.Me(), ClusterLabels(cfg))
          && (FirstCluster(cfg.Me(), st.hub.clusters) == None ==>
              !NameTaken(st.hub.clusters, "cluster-" + env.newSuffix))
          && (On(st, ManagedClusterImported) || LastIsTrue(env.importConditions)))
  }

  ghost predicate SetupReady(cfg: Config, env: Env, st: St) {
    && (On(st, ArgoClusterAdded) || env.login)
    && (On(st, ClusterSetupCreated) || forall i | 0 <= i < |cfg.setups| :: cfg.setups[i] in st.hub.appSets)
    && (On(st, ClusterSetupSucceeded) || cfg.setups == [] || (env.day2 != [] && AllHealthy(env.day2)))
  }

  // A registration that is recorded has left a cluster, and nobody has removed it since.
  ghost predicate Findable(cfg: Config, st: St) {
    On(st, ManagedClusterCreated) && cfg.Registers() ==> FirstCluster(cfg.Me(), st.hub.clusters).Some?
  }

  // Everything the pass reads of the outside world is as the operator waits for it to be.
  ghost predicate Favourable(cfg: Config, env: Env, st: St) {
    && Calm(env) && env.templateFound
    && (if cfg.secretRef.Some? then env.secretRefData.Some? else Day1Ready(cfg, env, st))
    && RegistrationReady(cfg, env, st) && Findable(cfg, st)
    && SetupReady(cfg, env, st)
  }

  // -------- the calls of a calm pass --------

  lemma CalmSecrets(cfg: Config, env: Env, w: Server, url: string, password: string)
    requires Calm(env)
    ensures CreateClusterSecrets(cfg, env, w, url, password) == (WithCredentials(cfg.Me(), w, url, password), true)
  {}

  lemma CalmDeployment(cfg: Config, env: Env, w: Server)
    requires Calm(env)
    ensures DeploymentComplete(env.provider) <==> DeploymentSecrets(cfg, env, w).1 == IsReady
    ensures DeploymentComplete(env.provider) ==>
              DeploymentSecrets(cfg, env, w).0
              == WithCredentials(cfg.Me(), w, env.provider.kubeconfig.value, env.provider.password.value)
  {
    if env.provider.kubeconfig.Some? && env.provider.password.Some? {
      CalmSecrets(cfg, env, w, env.provider.kubeconfig.value, env.provider.password.value);
    }
    hide WithCredentials, CreateClusterSecrets;
  }

  lemma CalmHosted(cfg: Config, env: Env, p: Provider, w: Server)
    requires Calm(env) && p.HostedProvider?
    ensures ProviderReady(env.provider, p) <==> HostedStatus(cfg, env, p, w).1 == IsReady
    ensures ProviderReady(env.provider, p) ==>
              HostedStatus(cfg, env, p, w).0
              == WithCredentials(cfg.Me(), w, env.provider.kubeconfig.value, ProviderPassword(env.provider, p))
  {
    var v := env.provider;
    if v.kubeconfig.Some? && (v.hosted.idps || v.password.Some?) {
      CalmSecrets(cfg, env, w, v.kubeconfig.value, if v.hosted.idps then "" else v.password.value);
    }
    hide WithCredentials, CreateClusterSecrets, PoolsReady, LastIsTrue;
  }

  /** Where every call succeeds, a provider reports ready exactly when its objects say so,
      and then the credentials it names are in place. */
  lemma CalmProvider(cfg: Config, env: Env, p: Provider, w: Server)
    requires Calm(env)
    ensures ProviderReady(env.provider, p) <==> GetClusterStatus(cfg, env, p, w).1 == IsReady
    ensures ProviderReady(env.provider, p) ==>
              env.provider.kubeconfig.Some? &&
              GetClusterStatus(cfg, env, p, w).0
              == WithCredentials(cfg.Me(), w, env.provider.kubeconfig.value, ProviderPassword(env.provider, p))
  {
    if p.HostedProvider? {
      CalmHosted(cfg, env, p, w);
    } else {
      CalmDeployment(cfg, env, w);
    }
    hide WithCredentials, DeploymentSecrets, HostedStatus, FirstIsTrue;
  }

  lemma {:induction false} FirstClusterAppend(me: Key, cs: seq<ManagedCluster>, mc: ManagedCluster)
    ensures FirstCluster(me, cs + [mc]) ==
            if FirstCluster(me, cs).Some? then FirstCluster(me, cs)
            else if Matches(me, mc.labels) && HasClusterPrefix(mc.name) then Some(mc) else None
  {
    if cs == [] {
      assert cs + [mc] == [mc];
    } else {
      assert (cs + [mc])[1..] == cs[1..] + [mc];
      FirstClusterAppend(me, cs[1..], mc);
    }
  }

  lemma CalmCreate(cfg: Config, env: Env, w: Server)
    requires Calm(env) && Matches(cfg.Me(), ClusterLabels(cfg))
    requires FirstCluster(cfg.Me(), w.clusters) == None ==> !NameTaken(w.clusters, "cluster-" + env.newSuffix)
    ensures var r := CreateManagedCluster(cfg, env, w);
      && r.1 && FirstCluster(cfg.Me(), r.0.clusters).Some? && r.0 == w.(clusters := r.0.clusters)
      && (FirstCluster(cfg.Me(), w.clusters).Some? ==> r.0 == w)
  {
    var mc := ManagedCluster("cluster-" + env.newSuffix, ClusterLabels(cfg));
    FirstClusterAppend(cfg.Me(), w.clusters, mc);
    hide FirstCluster, ClusterLabels, Matches, NameTaken;
  }

  lemma {:induction false} CalmFetch(cfg: Config, env: Env, w: Server, i: nat, failOnMissing: bool, sofar: Fetched)
    requires Calm(env) && i <= |cfg.setups| && sofar.ok && sofar.hub == w
    requires failOnMissing ==> forall j | 0 <= j < |cfg.setups| :: cfg.setups[j] in w.appSets
    requires sofar.last.Some? ==> sofar.last.value.0 in w.appSets && w.appSets[sofar.last.value.0] == sofar.last.value.1
    ensures var f := FetchSetups(cfg, env, w, i, failOnMissing, sofar);
      && f.ok && f.hub == w
      && (f.last.Some? ==> f.last.value.0 in w.appSets && w.appSets[f.last.value.0] == f.last.value.1)
    decreases |cfg.setups| - i
  {
    if i < |cfg.setups| {
      var name := cfg.setups[i];
      var next := if name in w.appSets then Fetched(w, true, sofar.count + 1, Some((name, w.appSets[name]))) else sofar;
      CalmFetch(cfg, env, w, i + 1, failOnMissing, next);
    }
  }

  lemma CalmJoin(cfg: Config, env: Env, w: Server, name: string, url: string, isDay2: bool, s: Site)
    requires Calm(env) && name in w.appSets
    ensures var r := JoinAppSet(cfg, env, w, name, w.appSets[name], url, isDay2, s);
      r.1 && r.0 == w.(rv := r.0.rv, appSets := r.0.appSets) && r.0.appSets.Keys == w.appSets.Keys
  {
    hide NewGenerator;
  }

  lemma CalmDay2(cfg: Config, env: Env, w: Server)
    requires Calm(env) && cfg.Me() in w.kubeconfigs
    requires forall j | 0 <= j < |cfg.setups| :: cfg.setups[j] in w.appSets
    ensures var r := CreateDay2(cfg, env, w);
      r.1 && r.0 == w.(rv := r.0.rv, appSets := r.0.appSets) && r.0.appSets.Keys == w.appSets.Keys
  {
    CalmFetch(cfg, env, w, 0, true, NothingFetched(w));
    var f := FetchSetups(cfg, env, w, 0, true, NothingFetched(w));
    if f.last.Some? {
      CalmJoin(cfg, env, w, f.last.value.0, w.kubeconfigs[cfg.Me()], true, UpdateSetup(0));
    }
    hide JoinAppSet, FetchSetups;
  }

  // -------- what each step leaves settled --------

  ghost predicate DefinitionSettled(cfg: Config, st: St) {
    cfg.secretRef.None? ==> !Is(st, ClusterDefinitionCreated, False)
  }

  // The install condition holds, and the credentials found are the ones in place.
  ghost predicate InstallSettled(cfg: Config, env: Env, st: St) {
    && On(st, ClusterInstallSucceeded)
    && (cfg.secretRef.Some? || !cfg.experimental ==>
        Get(st.status.conditions, ClusterInstallSucceeded).reason == ClusterInstalled)
    && cfg.Me() in st.hub.kubeconfigs
    && (Credentials(cfg, env).Some? && Credentials(cfg, env).value.1 != "" ==> cfg.Me() in st.hub.passwords)
  }

  ghost predicate ClusterSettled(cfg: Config, st: St) {
    On(st, ManagedClusterCreated) && (cfg.Registers() ==> FirstCluster(cfg.Me(), st.hub.clusters).Some?)
  }

  ghost predicate KlusterletSettled(cfg: Config, st: St) {
    var made := cfg.enableKlusterlet && !cfg.skipRegistration;
    && On(st, KlusterletAddonCreated)
    && Get(st.status.conditions, KlusterletAddonCreated).reason ==
        (if made then KlusterletCreated else KlusterletSkipped)
    && (made ==> var mc := FirstCluster(cfg.Me(), st.hub.clusters); mc.Some? && mc.value.name in st.hub.klusterlets)
  }

  ghost predicate ConsoleSettled(cfg: Config, env: Env, st: St) {
    var m := Get(st.status.conditions, ConsoleURLRetrieved);
    if !cfg.Registers() then m.status == True && m.reason == ConsoleURLSkipped
    else env.consoleClaims != [] ==>
      && m.status == True && m.reason == ConsoleURLSucceeded
      && st.status.consoleURL == env.consoleClaims[|env.consoleClaims| - 1]
  }

  ghost predicate PublishSettled(cfg: Config, env: Env, st: St) {
    && st.status.credentialRefs
    && (st.status.apiServerURL == "" ==> cfg.Me() in st.hub.kubeconfigs && st.hub.kubeconfigs[cfg.Me()] == "")
    && (forall x | x in env.setupSecrets :: x in st.status.setupSecrets)
  }

  ghost predicate Piece(cfg: Config, env: Env, st: St, k: nat)
    requires k < STAGE_COUNT
  {
    match k
    case 0 => DefinitionSettled(cfg, st)
    case 1 => InstallSettled(cfg, env, st)
    case 2 => ClusterSettled(cfg, st)
    case 3 => On(st, ManagedClusterImported)
    case 4 => KlusterletSettled(cfg, st)
    case 5 => ConsoleSettled(cfg, env, st)
    case 6 => On(st, ArgoClusterAdded)
    case 7 => On(st, ClusterSetupCreated)
    case 8 => On(st, ClusterSetupSucceeded)
    case _ => PublishSettled(cfg, env, st)
  }

  // Steps 0..k-1 have nothing left to do; with a secret reference the first does the work of two.
  ghost predicate Settled(cfg: Config, env: Env, st: St, k: nat)
    requires k <= STAGE_COUNT
  {
    && (forall j: nat | j < k :: Piece(cfg, env, st, j))
    && (0 < k && cfg.secretRef.Some? ==> InstallSettled(cfg, env, st))
  }

  // What step `k` may add to the server in a calm pass.
  ghost predicate Adds(cfg: Config, w: Server, n: Server) {
    && (cfg.Me() in w.kubeconfigs ==> cfg.Me() in n.kubeconfigs && n.kubeconfigs[cfg.Me()] == w.kubeconfigs[cfg.Me()])
    && (cfg.Me() in w.passwords ==> cfg.Me() in n.passwords)
    && n.appSets.Keys == w.appSets.Keys
    && w.klusterlets <= n.klusterlets
    && (FirstCluster(cfg.Me(), w.clusters).Some? ==> n.clusters == w.clusters)
  }

  // A call that succeeds, adds to the server and leaves the listed fields alone.
  ghost predicate Goes(cfg: Config, a: St, r: R, k: nat) {
    && r.err == None && Adds(cfg, a.hub, r.st.hub)
    && (k != 5 ==> r.st.status.consoleURL == a.status.consoleURL)
    && (k != 2 ==> r.st.hub.clusters == a.hub.clusters)
  }

  lemma DefinitionSettles(cfg: Config, env: Env, st: St)
    requires Calm(env) && Day1Ready(cfg, env, st)
    ensures var r := ReconcileClusterCreate(cfg, env, st); Goes(cfg, st, r, 0) && DefinitionSettled(cfg, r.st)
  {
    if cfg.definition in st.hub.appSets {
      CalmJoin(cfg, env, st.hub, cfg.definition, "https://kubernetes.default.svc", false, UpdateDefinition);
    }
    hide JoinAppSet, FirstCluster, Classify, ClusterLabels, Matches;
  }

  lemma SecretRefSettles(cfg: Config, env: Env, st: St)
    requires Calm(env) && env.secretRefData.Some? && cfg.secretRef.Some?
    ensures var r := ReconcileSecretRef(cfg, env, st); Goes(cfg, st, r, 0) && InstallSettled(cfg, env, r.st)
  {
    CalmSecrets(cfg, env, st.hub, env.secretRefData.value.0, env.secretRefData.value.1);
    hide CreateClusterSecrets, FirstCluster, Classify, ClusterLabels, Matches;
  }

  lemma CredentialsIn(me: Key, w: Server, url: string, password: string)
    ensures var n := WithCredentials(me, w, url, password);
      && me in n.kubeconfigs && (password != "" ==> me in n.passwords)
      && (me in w.kubeconfigs ==> n.kubeconfigs[me] == w.kubeconfigs[me]) && (me in w.passwords ==> me in n.passwords)
      && n.appSets == w.appSets && n.clusters == w.clusters && n.klusterlets == w.klusterlets
  {}

  lemma InstalledSettles(cfg: Config, env: Env, st: St, w: Server)
    requires cfg.Me() in w.kubeconfigs && Adds(cfg, st.hub, w) && w.clusters == st.hub.clusters
    requires Credentials(cfg, env).Some? && Credentials(cfg, env).value.1 != "" ==> cfg.Me() in w.passwords
    ensures var r := R(SetC(st.(hub := w), ClusterInstallSucceeded, True, ClusterInstalled, env.now), None);
      Goes(cfg, st, r, 1) && InstallSettled(cfg, env, r.st)
  {
    hide Adds, Credentials;
  }

  lemma ProviderSettles(cfg: Config, env: Env, st: St)
    requires Calm(env) && Day1Ready(cfg, env, st) && cfg.secretRef.None? && !cfg.experimental
    ensures var r := ReconcileProvider(cfg, env, st, env.day1[0]);
      Goes(cfg, st, r, 1) && InstallSettled(cfg, env, r.st)
  {
    var p := Detect(env.day1[0].resources, env.day1[0].resources);
    CalmProvider(cfg, env, p.value, st.hub);
    CredentialsIn(cfg.Me(), st.hub, env.provider.kubeconfig.value, ProviderPassword(env.provider, p.value));
    var w := GetClusterStatus(cfg, env, p.value, st.hub).0;
    assert Adds(cfg, st.hub, w);
    InstalledSettles(cfg, env, st, w);
    hide GetClusterStatus, Detect, ProviderReady, FirstCluster, Classify, WithCredentials, ProviderPassword, SetC,
      InstallSettled, Goes;
  }

  lemma InstallSettles(cfg: Config, env: Env, st: St)
    requires Calm(env) && Day1Ready(cfg, env, st) && cfg.secretRef.None? && DefinitionSettled(cfg, st)
    ensures var r := ReconcileClusterStatus(cfg, env, st); Goes(cfg, st, r, 1) && InstallSettled(cfg, env, r.st)
  {
    if !cfg.experimental {
      ProviderSettles(cfg, env, SetPhase(st, ClusterInstallingPhase));
    }
    hide ReconcileProvider, Detect, ProviderReady, FirstCluster, Classify, ClusterLabels, Matches;
  }

  lemma ClusterSettles(cfg: Config, env: Env, st: St)
    requires Calm(env) && RegistrationReady(cfg, env, st) && On(st, ClusterInstallSucceeded) && Findable(cfg, st)
    ensures var r := ReconcileCreateManagedCluster(cfg, env, st); Goes(cfg, st, r, 2) && ClusterSettled(cfg, r.st)
  {
    hide CreateManagedCluster, FirstCluster, ClusterLabels, Matches, LastIsTrue, NameTaken;
    if cfg.Registers() {
      CalmCreate(cfg, env, st.hub);
    }
  }

  lemma ImportSettles(cfg: Config, env: Env, st: St)
    requires Calm(env) && RegistrationReady(cfg, env, st) && cfg.Me() in st.hub.kubeconfigs && ClusterSettled(cfg, st)
    ensures var r := ReconcileImportManagedCluster(cfg, env, st);
      Goes(cfg, st, r, 3) && On(r.st, ManagedClusterImported)
  {
    hide FirstCluster, ClusterLabels, Matches, LastIsTrue, NameTaken;
  }

  lemma CalmKlusterlet(cfg: Config, env: Env, w: Server)
    requires Calm(env) && FirstCluster(cfg.Me(), w.clusters).Some?
    ensures var r := EnsureKlusterlet(cfg, env, w);
      && r.1 && r.0 == w.(klusterlets := r.0.klusterlets) && w.klusterlets <= r.0.klusterlets
      && FirstCluster(cfg.Me(), w.clusters).value.name in r.0.klusterlets
  {
    hide FirstCluster;
  }

  lemma KlusterletSettles(cfg: Config, env: Env, st: St)
    requires Calm(env) && RegistrationReady(cfg, env, st) && ClusterSettled(cfg, st) && On(st, ManagedClusterImported)
    ensures var r := ReconcileCreateKlusterlet(cfg, env, st); Goes(cfg, st, r, 4) && KlusterletSettled(cfg, r.st)
  {
    if cfg.Registers() {
      CalmKlusterlet(cfg, env, st.hub);
    }
    hide EnsureKlusterlet, FirstCluster, ClusterLabels, Matches, LastIsTrue, NameTaken;
  }

  lemma ConsoleSettles(cfg: Config, env: Env, st: St)
    requires Calm(env) && ClusterSettled(cfg, st) && On(st, ManagedClusterImported)
    ensures var r := ReconcileConsoleURL(cfg, env, st); Goes(cfg, st, r, 5) && ConsoleSettled(cfg, env, r.st)
  {
    hide FirstCluster;
  }

  lemma CalmArgo(cfg: Config, env: Env, w: Server)
    requires Calm(env) && (cfg.secretRef.Some? || env.day1 != [])
    requires cfg.Registers() ==> FirstCluster(cfg.Me(), w.clusters).Some?
    ensures var r := FinishArgo(cfg, env, w); r.1 && r.0 == w.(argoSecrets := r.0.argoSecrets)
  {
    hide FirstCluster;
  }

  lemma ArgoSettles(cfg: Config, env: Env, st: St)
    requires Calm(env) && (cfg.secretRef.Some? || env.day1 != []) && (On(st, ArgoClusterAdded) || env.login)
    requires cfg.Me() in st.hub.kubeconfigs && ClusterSettled(cfg, st) && On(st, ManagedClusterImported)
    ensures var r := ReconcileAddClusterToArgo(cfg, env, st); Goes(cfg, st, r, 6) && On(r.st, ArgoClusterAdded)
  {
    CalmArgo(cfg, env, st.hub);
    hide FirstCluster, FinishArgo;
  }

  lemma SetupCreateSettles(cfg: Config, env: Env, st: St)
    requires Calm(env) && SetupReady(cfg, env, st) && cfg.Me() in st.hub.kubeconfigs && On(st, ArgoClusterAdded)
    ensures var r := ReconcileClusterSetupCreate(cfg, env, st); Goes(cfg, st, r, 7) && On(r.st, ClusterSetupCreated)
  {
    if !On(st, ClusterSetupCreated) {
      CalmDay2(cfg, env, st.hub);
    }
    hide FirstCluster, CreateDay2, AllHealthy;
  }

  lemma SetupSettles(cfg: Config, env: Env, st: St)
    requires Calm(env) && SetupReady(cfg, env, st) && On(st, ClusterSetupCreated)
    ensures var r := ReconcileClusterSetup(cfg, env, st); Goes(cfg, st, r, 8) && On(r.st, ClusterSetupSucceeded)
  {
    hide FirstCluster, AllHealthy, SomeAre;
  }

  lemma {:induction false} AddSecretsAdds(known: seq<string>, found: seq<string>)
    ensures forall x | x in known || x in found :: x in AddSecrets(known, found)
    ensures (forall x | x in found :: x in known) ==> AddSecrets(known, found) == known
    decreases |found|
  {
    if found != [] {
      AddSecretsAdds(if found[0] in known then known else known + [found[0]], found[1..]);
    }
  }

  lemma CredentialsSettle(cfg: Config, env: Env, st: St)
    requires Calm(env) && cfg.Me() in st.hub.kubeconfigs && On(st, ClusterSetupSucceeded)
    ensures var r := ReconcileClusterCredentials(cfg, env, st);
      Goes(cfg, st, r, 9) && PublishSettled(cfg, env, r.st) && r.st.status.phase == ReadyPhase
  {
    AddSecretsAdds(st.status.setupSecrets, env.setupSecrets);
    hide FirstCluster, AddSecrets;
  }

  // -------- the favourable pass --------

  lemma MarksStay(a: St, b: St, t: ConditionType)
    requires t != Ready && OnlyChanges(a, b, t)
    ensures forall u | u != t && u != Ready :: Get(b.status.conditions, u) == Get(a.status.conditions, u)
  {
    forall u | u != t && u != Ready ensures Get(b.status.conditions, u) == Get(a.status.conditions, u) {
      GetPut(a.status.conditions, t, Get(b.status.conditions, t), u);
    }
  }

  // An earlier piece survives a later step.
  lemma PieceStays(cfg: Config, env: Env, a: St, r: R, k: nat, j: nat)
    requires j < k < STAGE_COUNT && (k == 1 ==> cfg.secretRef.None?)
    requires StepFacts(cfg, a, r.st, r.err == None, k) && Goes(cfg, a, r, k) && Piece(cfg, env, a, j)
    ensures Piece(cfg, env, r.st, j)
  {
    hide FirstCluster, Get, Put, Credentials;
    if k != 9 {
      MarksStay(a, r.st, Subject(cfg, k));
    }
  }

  // What of the start state the favourable pass needs, at every step.
  ghost predicate GoodSt(cfg: Config, env: Env, st: St) {
    TwoValued(st) && Favourable(cfg, env, st)
  }

  ghost predicate StageResult(cfg: Config, env: Env, st: St, r: R, k: nat)
    requires k < STAGE_COUNT
  {
    && Goes(cfg, st, r, k) && Piece(cfg, env, r.st, k)
    && (k <= 1 && cfg.secretRef.Some? ==> InstallSettled(cfg, env, r.st))
    && (k == 9 ==> r.st.status.phase == ReadyPhase)
  }

  lemma FirstStageGoes(cfg: Config, env: Env, st: St)
    requires GoodSt(cfg, env, st)
    ensures StageResult(cfg, env, st, Stage(cfg, env, st, 0), 0)
  {
    if cfg.secretRef.Some? {
      SecretRefSettles(cfg, env, st);
    } else {
      DefinitionSettles(cfg, env, st);
    }
    hide ReconcileSecretRef, ReconcileClusterCreate, DefinitionSettled, InstallSettled, Adds;
  }

  lemma SecondStageGoes(cfg: Config, env: Env, st: St)
    requires GoodSt(cfg, env, st) && DefinitionSettled(cfg, st)
    requires cfg.secretRef.Some? ==> InstallSettled(cfg, env, st)
    ensures StageResult(cfg, env, st, Stage(cfg, env, st, 1), 1)
  {
    if cfg.secretRef.None? {
      InstallSettles(cfg, env, st);
    }
    hide ReconcileClusterStatus, DefinitionSettled, InstallSettled;
  }

  lemma RegistrationStageGoes(cfg: Config, env: Env, st: St, k: nat)
    requires 2 <= k <= 5 && GoodSt(cfg, env, st) && InstallSettled(cfg, env, st)
    requires 2 < k ==> ClusterSettled(cfg, st)
    requires 3 < k ==> On(st, ManagedClusterImported)
    ensures StageResult(cfg, env, st, Stage(cfg, env, st, k), k)
  {
    hide ReconcileCreateManagedCluster, ReconcileImportManagedCluster, ReconcileCreateKlusterlet, ReconcileConsoleURL,
      Adds, TwoValued, KlusterletSettled, ConsoleSettled, ClusterSettled, Day1Ready, RegistrationReady, SetupReady;
    if k == 2 {
      ClusterSettles(cfg, env, st);
    } else if k == 3 {
      ImportSettles(cfg, env, st);
    } else if k == 4 {
      KlusterletSettles(cfg, env, st);
    } else {
      ConsoleSettles(cfg, env, st);
    }
  }

  lemma GoodForArgo(cfg: Config, env: Env, st: St)
    requires GoodSt(cfg, env, st) && InstallSettled(cfg, env, st)
    ensures Calm(env) && (cfg.secretRef.Some? || env.day1 != []) && (On(st, ArgoClusterAdded) || env.login)
    ensures cfg.Me() in st.hub.kubeconfigs
  {}

  lemma ArgoStageGoes(cfg: Config, env: Env, st: St)
    requires GoodSt(cfg, env, st) && InstallSettled(cfg, env, st)
    requires ClusterSettled(cfg, st) && On(st, ManagedClusterImported)
    ensures StageResult(cfg, env, st, Stage(cfg, env, st, 6), 6)
  {
    hide ReconcileAddClusterToArgo, Adds, GoodSt, ClusterSettled, InstallSettled, Favourable, Credentials;
    GoodForArgo(cfg, env, st);
    ArgoSettles(cfg, env, st);
  }

  lemma SetupCreateStageGoes(cfg: Config, env: Env, st: St)
    requires GoodSt(cfg, env, st) && InstallSettled(cfg, env, st) && On(st, ArgoClusterAdded)
    ensures StageResult(cfg, env, st, Stage(cfg, env, st, 7), 7)
  {
    assert Calm(env) && SetupReady(cfg, env, st);
    hide ReconcileClusterSetupCreate, Goes, GoodSt, SetupReady;
    SetupCreateSettles(cfg, env, st);
  }

  lemma SetupRunStageGoes(cfg: Config, env: Env, st: St)
    requires GoodSt(cfg, env, st) && On(st, ClusterSetupCreated)
    ensures StageResult(cfg, env, st, Stage(cfg, env, st, 8), 8)
  {
    assert Calm(env) && SetupReady(cfg, env, st);
    hide ReconcileClusterSetup, Goes, GoodSt, SetupReady;
    SetupSettles(cfg, env, st);
  }

  lemma SetupStageGoes(cfg: Config, env: Env, st: St, k: nat)
    requires 6 <= k <= 8 && GoodSt(cfg, env, st) && InstallSettled(cfg, env, st)
    requires ClusterSettled(cfg, st) && On(st, ManagedClusterImported)
    requires 6 < k ==> Piece(cfg, env, st, k - 1)
    ensures StageResult(cfg, env, st, Stage(cfg, env, st, k), k)
  {
    hide Stage, StageResult, GoodSt, InstallSettled, ClusterSettled;
    if k == 6 {
      ArgoStageGoes(cfg, env, st);
    } else if k == 7 {
      SetupCreateStageGoes(cfg, env, st);
    } else {
      SetupRunStageGoes(cfg, env, st);
    }
  }

  lemma LastStageGoes(cfg: Config, env: Env, st: St)
    requires GoodSt(cfg, env, st) && InstallSettled(cfg, env, st) && On(st, ClusterSetupSucceeded)
    ensures StageResult(cfg, env, st, Stage(cfg, env, st, 9), 9)
  {
    hide ReconcileClusterCredentials, Adds, TwoValued, PublishSettled, RegistrationReady, Day1Ready, SetupReady;
    CredentialsSettle(cfg, env, st);
  }

  lemma StageGoes(cfg: Config, env: Env, st: St, k: nat)
    requires k < STAGE_COUNT && GoodSt(cfg, env, st) && Settled(cfg, env, st, k)
    ensures StageResult(cfg, env, st, Stage(cfg, env, st, k), k)
  {
    if k == 0 {
      FirstStageGoes(cfg, env, st);
    } else if k == 1 {
      assert Piece(cfg, env, st, 0);
      SecondStageGoes(cfg, env, st);
    } else {
      assert Piece(cfg, env, st, 1);
      assert 2 < k ==> Piece(cfg, env, st, 2);
      assert 3 < k ==> Piece(cfg, env, st, 3);
      if k <= 5 {
        RegistrationStageGoes(cfg, env, st, k);
      } else {
        assert Piece(cfg, env, st, k - 1);
        if k == 9 {
          LastStageGoes(cfg, env, st);
        } else {
          SetupStageGoes(cfg, env, st, k);
        }
      }
    }
    hide Stage, StageResult, GoodSt;
  }

  lemma SettledOn(cfg: Config, env: Env, a: St, r: R, k: nat)
    requires k < STAGE_COUNT && Settled(cfg, env, a, k) && StageResult(cfg, env, a, r, k)
    requires StepFacts(cfg, a, r.st, r.err == None, k) && (k == 1 && cfg.secretRef.Some? ==> r.st == a)
    ensures Settled(cfg, env, r.st, k + 1)
  {
    forall j: nat | j < k + 1 ensures Piece(cfg, env, r.st, j) {
      if j < k && r.st != a {
        PieceStays(cfg, env, a, r, k, j);
      } else if j < k {
        assert Piece(cfg, env, a, j);
      }
    }
    if k > 1 {
      assert Piece(cfg, env, r.st, 1);
    }
    hide Goes, StepFacts, KlusterletSettled, ConsoleSettled, PublishSettled, ClusterSettled, DefinitionSettled;
  }

  lemma DayOneStays(cfg: Config, env: Env, a: St, b: St)
    requires Day1Ready(cfg, env, a) && Advances(a, b) && TwoValued(a) && Adds(cfg, a.hub, b.hub)
    requires cfg.experimental ==> On(b, ClusterInstallSucceeded)
    ensures Day1Ready(cfg, env, b)
  {
    assert On(a, ClusterDefinitionCreated) ==> On(b, ClusterDefinitionCreated) by {
      assert Latched(ClusterDefinitionCreated);
    }
    hide ProviderReady, Detect, Classify, FirstCluster;
  }

  lemma OthersStay(cfg: Config, env: Env, a: St, b: St)
    requires Advances(a, b) && Adds(cfg, a.hub, b.hub)
    requires b.hub.clusters == a.hub.clusters || (cfg.Registers() ==> FirstCluster(cfg.Me(), b.hub.clusters).Some?)
    ensures RegistrationReady(cfg, env, a) ==> RegistrationReady(cfg, env, b)
    ensures SetupReady(cfg, env, a) ==> SetupReady(cfg, env, b)
  {
    assert forall t | Latched(t) && On(a, t) :: On(b, t);
    assert Latched(ManagedClusterImported) && Latched(ArgoClusterAdded) && Latched(ClusterSetupCreated)
      && Latched(ClusterSetupSucceeded);
    hide On, FirstCluster, Matches, ClusterLabels, NameTaken, LastIsTrue, AllHealthy, Latched;
  }

  lemma FindableStays(cfg: Config, env: Env, a: St, r: R, k: nat)
    requires k < STAGE_COUNT && Findable(cfg, a) && StageResult(cfg, env, a, r, k)
        && StepFacts(cfg, a, r.st, r.err == None, k)
    ensures Findable(cfg, r.st)
    ensures r.st.hub.clusters == a.hub.clusters || (cfg.Registers() ==> FirstCluster(cfg.Me(), r.st.hub.clusters).Some?)
  {
    if k != 2 && k != 9 {
      MarksStay(a, r.st, Subject(cfg, k));
    }
    hide FirstCluster, Get, Put, KlusterletSettled, ConsoleSettled, PublishSettled, DefinitionSettled, InstallSettled;
  }

  // An experimental provider's report is left alone.
  lemma ReportStays(cfg: Config, env: Env, st: St, k: nat)
    requires k < STAGE_COUNT && StageResult(cfg, env, st, Stage(cfg, env, st, k), k) && TwoValued(st)
    requires cfg.secretRef.None? && On(st, ClusterInstallSucceeded)
    ensures On(Stage(cfg, env, st, k).st, ClusterInstallSucceeded)
  {
    StageSteps(cfg, env, st, k);
    if k != 1 && k != 9 {
      MarksStay(st, Stage(cfg, env, st, k).st, Subject(cfg, k));
    }
    hide Stage, Goes, Get, Put;
  }

  lemma GoodStays(cfg: Config, env: Env, st: St, k: nat)
    requires k < STAGE_COUNT && GoodSt(cfg, env, st) && StatusInv(st)
    requires StageResult(cfg, env, st, Stage(cfg, env, st, k), k)
    ensures GoodSt(cfg, env, Stage(cfg, env, st, k).st) && StatusInv(Stage(cfg, env, st, k).st)
  {
    var r := Stage(cfg, env, st, k);
    StageSteps(cfg, env, st, k);
    StepAdvances(cfg, st, r.st, r.err == None, k);
    FindableStays(cfg, env, st, r, k);
    OthersStay(cfg, env, st, r.st);
    if cfg.secretRef.None? {
      if cfg.experimental {
        ReportStays(cfg, env, st, k);
      }
      DayOneStays(cfg, env, st, r.st);
    }
    hide Stage, StepFacts, Advances, Findable, RegistrationReady, SetupReady, Day1Ready, On, Calm, Chain, Piece, Adds;
  }

  ghost predicate Arrived(cfg: Config, env: Env, r: R) {
    && r.err == None && r.st.status.phase == ReadyPhase
    && Settled(cfg, env, r.st, STAGE_COUNT) && GoodSt(cfg, env, r.st)
  }

  lemma SecretRefSkips(cfg: Config, env: Env, st: St)
    ensures cfg.secretRef.Some? ==> Stage(cfg, env, st, 1).st == st
  {}

  lemma {:induction false} StagesSettle(cfg: Config, env: Env, st: St, k: nat)
    requires k <= STAGE_COUNT && GoodSt(cfg, env, st) && StatusInv(st) && Settled(cfg, env, st, k)
    requires k == STAGE_COUNT ==> st.status.phase == ReadyPhase
    ensures Arrived(cfg, env, Stages(cfg, env, st, k))
    decreases STAGE_COUNT - k
  {
    assert TwoValued(st);
    hide Stage, GoodSt, StatusInv, TwoValued, Settled, StepFacts, Piece, Adds;
    if k < STAGE_COUNT {
      var r := Stage(cfg, env, st, k);
      StageGoes(cfg, env, st, k);
      StageSteps(cfg, env, st, k);
      SecretRefSkips(cfg, env, st);
      GoodStays(cfg, env, st, k);
      SettledOn(cfg, env, st, r, k);
      StagesSettle(cfg, env, r.st, k + 1);
    }
  }

  /** From every reachable state, a pass whose reads are all favourable ends in Ready with
      every condition of the chain on and nothing left to do. */
  lemma FavourablePassIsReady(cfg: Config, env: Env, s: Stored, w: Server)
    requires StoredInv(s, w) && HubInv(cfg, w) && StoredBacked(cfg, s, w)
    requires Favourable(cfg, env, PassStart(cfg, env, s, w))
    ensures Arrived(cfg, env, Pass(cfg, env, s, w))
  {
    var st := PassStart(cfg, env, s, w);
    StartInv(cfg, env, s, w);
    StartBacked(cfg, env, s, w);
    StagesSettle(cfg, env, st, 0);
    hide Stages, PassStart, HubInv, Backed, StoredInv, Findable, Chain, Day1Ready, RegistrationReady, SetupReady,
      Arrived;
  }

  // -------- the pass after it --------

  // Nothing but the phase may differ.
  ghost predicate Rests(st: St, r: R) {
    r.err == None && r.st == SetPhase(st, r.st.status.phase)
  }

  lemma WriteSame(b: Board, t: ConditionType, now: int)
    requires t != Ready
    ensures Write(b, t, Get(b, t).status, Get(b, t).reason, now) == b
  {}

  lemma CredentialsAreIn(me: Key, w: Server, url: string, password: string)
    requires me in w.kubeconfigs && (password != "" ==> me in w.passwords)
    ensures WithCredentials(me, w, url, password) == w
  {}

  lemma SecretRefRests(cfg: Config, env: Env, st: St)
    requires Calm(env) && env.secretRefData.Some? && cfg.secretRef.Some? && InstallSettled(cfg, env, st)
    ensures Rests(st, ReconcileSecretRef(cfg, env, st))
  {
    var d := env.secretRefData.value;
    CalmSecrets(cfg, env, st.hub, d.0, d.1);
    CredentialsAreIn(cfg.Me(), st.hub, d.0, d.1);
    WriteSame(st.status.conditions, ClusterInstallSucceeded, env.now);
    hide CreateClusterSecrets, WithCredentials, Write;
  }

  lemma InstallRests(cfg: Config, env: Env, st: St)
    requires Calm(env) && Day1Ready(cfg, env, st) && cfg.secretRef.None?
    requires DefinitionSettled(cfg, st) && InstallSettled(cfg, env, st)
    ensures Rests(st, ReconcileClusterStatus(cfg, env, st))
  {
    var p := Detect(env.day1[0].resources, env.day1[0].resources);
    if !cfg.experimental {
      CalmProvider(cfg, env, p.value, st.hub);
      CredentialsAreIn(cfg.Me(), st.hub, env.provider.kubeconfig.value, ProviderPassword(env.provider, p.value));
    }
    WriteSame(st.status.conditions, ClusterInstallSucceeded, env.now);
    hide GetClusterStatus, WithCredentials, Write, Detect, ProviderReady, Classify, ProviderPassword;
  }

  lemma KlusterletRests(cfg: Config, env: Env, st: St)
    requires Calm(env) && KlusterletSettled(cfg, st)
    ensures Rests(st, ReconcileCreateKlusterlet(cfg, env, st))
  {
    WriteSame(st.status.conditions, KlusterletAddonCreated, env.now);
    hide Write, FirstCluster;
  }

  lemma ConsoleRests(cfg: Config, env: Env, st: St)
    requires Calm(env) && ConsoleSettled(cfg, env, st) && ClusterSettled(cfg, st)
    ensures Rests(st, ReconcileConsoleURL(cfg, env, st))
  {
    WriteSame(st.status.conditions, ConsoleURLRetrieved, env.now);
    hide Write, FirstCluster;
  }

  lemma CredentialsRest(cfg: Config, env: Env, st: St)
    requires Calm(env) && PublishSettled(cfg, env, st) && On(st, ClusterSetupSucceeded)
    ensures var r := ReconcileClusterCredentials(cfg, env, st); Rests(st, r) && r.st.status.phase == ReadyPhase
  {
    AddSecretsAdds(st.status.setupSecrets, env.setupSecrets);
    hide AddSecrets;
  }

  lemma GatesClosed(cfg: Config, env: Env, st: St, k: nat)
    requires (k == 2 || k == 3 || 6 <= k <= 8) && Piece(cfg, env, st, k)
    ensures Rests(st, Stage(cfg, env, st, k))
  {
    hide FirstCluster;
  }

  lemma FirstStagesRest(cfg: Config, env: Env, st: St, k: nat)
    requires k <= 1 && GoodSt(cfg, env, st) && Piece(cfg, env, st, 0) && Piece(cfg, env, st, 1)
    ensures Rests(st, Stage(cfg, env, st, k))
  {
    hide ReconcileSecretRef, ReconcileClusterStatus, RegistrationReady, SetupReady, Day1Ready, TwoValued,
      InstallSettled;
    if cfg.secretRef.Some? {
      SecretRefRests(cfg, env, st);
    } else {
      InstallRests(cfg, env, st);
    }
  }

  lemma StageRests(cfg: Config, env: Env, st: St, k: nat)
    requires k < STAGE_COUNT && GoodSt(cfg, env, st) && Settled(cfg, env, st, STAGE_COUNT)
    ensures Rests(st, Stage(cfg, env, st, k)) && (k == 9 ==> Stage(cfg, env, st, k).st.status.phase == ReadyPhase)
  {
    assert Piece(cfg, env, st, k);
    if k <= 1 {
      assert Piece(cfg, env, st, 0) && Piece(cfg, env, st, 1);
      FirstStagesRest(cfg, env, st, k);
    } else if k == 4 {
      KlusterletRests(cfg, env, st);
    } else if k == 5 {
      assert Piece(cfg, env, st, 2);
      ConsoleRests(cfg, env, st);
    } else if k == 9 {
      assert Piece(cfg, env, st, 8);
      CredentialsRest(cfg, env, st);
    } else {
      GatesClosed(cfg, env, st, k);
    }
    hide ReconcileSecretRef, ReconcileClusterStatus, ReconcileClusterCreate, ReconcileCreateManagedCluster,
      ReconcileImportManagedCluster, ReconcileCreateKlusterlet, ReconcileConsoleURL, ReconcileAddClusterToArgo,
      ReconcileClusterSetupCreate, ReconcileClusterSetup, ReconcileClusterCredentials, Settled, Favourable, TwoValued,
      KlusterletSettled, ConsoleSettled, PublishSettled, ClusterSettled, InstallSettled, DefinitionSettled;
  }

  lemma PhaseIsIgnored(cfg: Config, env: Env, st: St, p: Phase)
    requires GoodSt(cfg, env, st) && Settled(cfg, env, st, STAGE_COUNT)
    ensures GoodSt(cfg, env, SetPhase(st, p)) && Settled(cfg, env, SetPhase(st, p), STAGE_COUNT)
  {
    var n := SetPhase(st, p);
    forall j: nat | j < STAGE_COUNT ensures Piece(cfg, env, n, j) {
      assert Piece(cfg, env, st, j);
    }
    hide FirstCluster, Matches, ClusterLabels, NameTaken, LastIsTrue, AllHealthy, ProviderReady, Detect, Classify,
      Credentials;
  }

  lemma {:induction false} StagesRest(cfg: Config, env: Env, st: St, k: nat)
    requires k <= STAGE_COUNT && GoodSt(cfg, env, st) && Settled(cfg, env, st, STAGE_COUNT)
    requires k == STAGE_COUNT ==> st.status.phase == ReadyPhase
    ensures Stages(cfg, env, st, k) == R(SetPhase(st, ReadyPhase), None)
    decreases STAGE_COUNT - k
  {
    hide Stage, GoodSt, Settled;
    if k < STAGE_COUNT {
      var r := Stage(cfg, env, st, k);
      StageRests(cfg, env, st, k);
      PhaseIsIgnored(cfg, env, st, r.st.status.phase);
      StagesRest(cfg, env, r.st, k + 1);
    }
  }

  // The same reads at other times, with another name on offer for a new cluster.
  lemma SameReads(cfg: Config, env: Env, st: St, now: int, loginNow: int, suffix: string)
    requires GoodSt(cfg, env, st) && Settled(cfg, env, st, STAGE_COUNT)
    ensures var later := env.(now := now, loginNow := loginNow, newSuffix := suffix);
      GoodSt(cfg, later, st) && Settled(cfg, later, st, STAGE_COUNT)
  {
    var later := env.(now := now, loginNow := loginNow, newSuffix := suffix);
    assert Piece(cfg, env, st, 2);
    forall j: nat | j < STAGE_COUNT ensures Piece(cfg, later, st, j) {
      assert Piece(cfg, env, st, j);
    }
    hide FirstCluster, Matches, ClusterLabels, NameTaken, LastIsTrue, AllHealthy, ProviderReady, Detect, Classify;
  }

  /** The pass after a favourable one, on the same reads at whatever later time, changes
      nothing at all: not a condition nor its time, not an ApplicationSet, a managed
      cluster, a secret or an add-on. */
  lemma NextPassChangesNothing(cfg: Config, env: Env, s: Stored, w: Server, now: int, loginNow: int, suffix: string)
    requires StoredInv(s, w) && HubInv(cfg, w) && StoredBacked(cfg, s, w)
    requires Favourable(cfg, env, PassStart(cfg, env, s, w))
    ensures var first := Pass(cfg, env, s, w);
      var later := env.(now := now, loginNow := loginNow, newSuffix := suffix);
      Pass(cfg, later, Saved(first.st.status), first.st.hub) == R(first.st, None)
  {
    var st := Pass(cfg, env, s, w).st;
    var later := env.(now := now, loginNow := loginNow, newSuffix := suffix);
    FavourablePassIsReady(cfg, env, s, w);
    SameReads(cfg, env, st, now, loginNow, suffix);
    StagesRest(cfg, later, st, 0);
    assert SetPhase(st, ReadyPhase) == st;
    assert later.templateFound && Calm(later);
    hide Stages, Settled, Day1Ready, RegistrationReady, SetupReady, Findable, TwoValued;
    assert PassStart(cfg, later, Saved(st.status), st.hub) == st;
  }
}
