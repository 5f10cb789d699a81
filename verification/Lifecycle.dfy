/** The steps of a reconcile pass, as functions of the instance's configuration, its recorded
    status, the server, and whatever the environment answers. */
module Lifecycle {
  import opened Generators
  import opened Conditions
  import opened Applications
  import opened Hub

  datatype Phase =
    | PendingPhase | ClusterDefinitionFailedPhase | ClusterInstallingPhase | ClusterInstallFailedPhase
    | ManagedClusterFailedPhase | ManagedClusterImportingPhase | ManagedClusterImportFailedPhase
    | KlusterletCreateFailedPhase | ArgoClusterFailedPhase | ClusterLoginPendingPhase
    | ClusterSetupCreateFailedPhase | ClusterSetupDegradedPhase | ClusterSetupFailedPhase
    | ClusterSetupRunningPhase | ReadyPhase | CredentialsFailedPhase | FailedPhase

  datatype SetupStatus = SetupStatus(name: string, status: AppStatus)

  datatype Status = Status(
    conditions: Board,
    phase: Phase,
    apiServerURL: string,
    credentialRefs: bool,              // AdminPassword and Kubeconfig are filled in
    managedCluster: string,
    consoleURL: string,
    setupSecrets: seq<string>,
    clusterSetup: seq<SetupStatus>,
    firstLogin: Option<int>)

  // What does not change over one instance's life.
  datatype Config = Config(
    instance: Instance,
    secretRef: Option<string>,         // Spec.KubeconfigSecretRef
    experimental: bool,
    enableManagedCluster: bool,
    enableKlusterlet: bool,
    skipRegistration: bool,
    definition: string,
    setups: seq<string>,
    templateLabels: map<LabelKey, string>,
    labelNamespace: bool,
    loginTimeout: int)
  {
    function Me(): Key { instance.key }
    predicate Registers() { enableManagedCluster && !skipRegistration }
  }

  // The only ApplicationSets that may ever list the instance.
  predicate Target(cfg: Config, m: string) {
    || (cfg.secretRef.None? && m == cfg.definition)
    || (cfg.setups != [] && m == cfg.setups[|cfg.setups| - 1])
  }

  predicate Listed(cfg: Config, w: Server, m: string) {
    m in w.appSets && HasOwn(cfg.Me(), w.appSets[m].generators)
  }

  datatype HostedState = HostedState(conditions: seq<TypedStatus>, kubeconfigRef: bool, passwordRef: bool, idps: bool)
  datatype DeploymentState = DeploymentState(conditions: seq<TypedStatus>, kubeconfigRef: bool, passwordRef: bool)

  // The cluster objects of the provider; a key missing from a source secret is None.
  datatype ProviderView = ProviderView(
    hosted: HostedState, pools: seq<NodePoolState>, deployment: DeploymentState, claimBound: bool,
    kubeconfig: Option<string>, hasUsername: bool, password: Option<string>)

  // Everything a pass reads that this operator does not write, plus the fate of its calls.
  datatype Env = Env(
    reply: Site -> Reply,
    now: int,
    loginNow: int,
    templateFound: bool,
    day1: seq<Application>,
    provider: ProviderView,
    secretRefData: Option<(string, string)>,      // URL in the kubeconfig, password ("" if absent)
    newSuffix: string,                            // the server's choice for generateName
    importConditions: seq<TypedStatus>,
    consoleClaims: seq<string>,
    login: bool,
    day2: seq<Application>,
    setupSecrets: seq<string>,
    finalizers: seq<string>)

  datatype Fault = Generic | AppNotFound | LoginPending | Crash

  datatype St = St(status: Status, hub: Server)
  datatype R = R(st: St, err: Option<Fault>)

  predicate Ok(env: Env, s: Site) { env.reply(s).outcome.Served? }
  predicate Done(env: Env, s: Site) { !env.reply(s).outcome.Refused? }

  function Handled(cfg: Config, env: Env, w: Server, s: Site): Server { At(cfg.Me(), w, env.reply(s)) }

  // -------- status updates --------

  function SetC(st: St, t: ConditionType, s: ConditionStatus, reason: Reason, now: int): St {
    st.(status := st.status.(conditions := Write(st.status.conditions, t, s, reason, now)))
  }

  // Every condition but the one of type `t` is as it was, its time and reason included;
  // that one is not made Unknown, and nothing a client may rely on is taken back.
  ghost predicate OnlyChanges(st: St, st': St, t: ConditionType) {
    && st'.status.conditions == Put(st.status.conditions, t, Get(st'.status.conditions, t))
    && (Is(st, t, Unknown) || !Is(st', t, Unknown))
    && (st'.status.phase == ReadyPhase ==> st.status.phase == ReadyPhase)
    && st'.status.apiServerURL == st.status.apiServerURL
    && st'.status.setupSecrets == st.status.setupSecrets
    && (st.status.firstLogin.Some? ==> st'.status.firstLogin == st.status.firstLogin)
  }

  predicate Is(st: St, t: ConditionType, s: ConditionStatus) { Get(st.status.conditions, t).status == s }

  function SetPhase(st: St, p: Phase): St { st.(status := st.status.(phase := p)) }

  predicate Gate(st: St, prev: ConditionType, current: Option<ConditionType>) {
    CanExecute(st.status.conditions, prev, current)
  }

  // -------- cluster definition --------

  // UpdateApplicationSet on a copy that was read earlier.
  function JoinAppSet(cfg: Config, env: Env, w: Server, name: string, copy: AppSet, url: string, isDay2: bool,
      s: Site): (Server, bool) {
    if HasOwn(cfg.Me(), copy.generators) then (w, true)
    else
      var g := NewGenerator(cfg.instance, name, copy.template, url, isDay2);
      WriteAppSet(cfg.Me(), w, name, copy, copy.generators + [g], env.reply(s))
  }

  function CreateDay1(cfg: Config, env: Env, w: Server): (Server, bool) {
    var w1 := Handled(cfg, env, w, GetDefinition);
    if !Ok(env, GetDefinition) || cfg.definition !in w1.appSets then (w1, false)
    else
      var copy := w1.appSets[cfg.definition];
      var w2 := if cfg.labelNamespace then Handled(cfg, env, w1, LabelNamespace) else w1;
      if cfg.labelNamespace && !Ok(env, LabelNamespace) then (w2, false)
      else JoinAppSet(cfg, env, w2, cfg.definition, copy, "https://kubernetes.default.svc", false, UpdateDefinition)
  }

  function ReconcileClusterCreate(cfg: Config, env: Env, st: St): (r: R)
    ensures OnlyChanges(st, r.st, ClusterDefinitionCreated)
  {
    if !Is(st, ClusterDefinitionCreated, False) then R(st, None)
    else
      var (w, ok) := CreateDay1(cfg, env, st.hub);
      if ok then R(SetC(st.(hub := w), ClusterDefinitionCreated, True, ApplicationCreated, env.now), None)
      else R(SetC(st.(hub := w), ClusterDefinitionCreated, False, ClusterDefinitionFailed, env.now), Some(Generic))
  }

  // -------- cluster status --------

  function CreateKubeconfig(cfg: Config, env: Env, w: Server, url: string): (Server, bool) {
    var w1 := Handled(cfg, env, w, GetOwnKubeconfig);
    if !Ok(env, GetOwnKubeconfig) then (w1, false)
    else if cfg.Me() in w1.kubeconfigs then (w1, true)
    else
      var w2 := Handled(cfg, env, w1, CreateOwnKubeconfig);
      if !Done(env, CreateOwnKubeconfig) || cfg.Me() in w2.kubeconfigs then (w2, false)
      else (w2.(kubeconfigs := w2.kubeconfigs[cfg.Me() := url]), Ok(env, CreateOwnKubeconfig))
  }

  function CreatePassword(cfg: Config, env: Env, w: Server, password: string): (Server, bool) {
    var w1 := Handled(cfg, env, w, GetOwnPassword);
    if !Ok(env, GetOwnPassword) then (w1, false)
    else if cfg.Me() in w1.passwords then (w1, true)
    else
      var w2 := Handled(cfg, env, w1, CreateOwnPassword);
      if !Done(env, CreateOwnPassword) || cfg.Me() in w2.passwords then (w2, false)
      else (w2.(passwords := w2.passwords[cfg.Me() := password]), Ok(env, CreateOwnPassword))
  }

  function CreateClusterSecrets(cfg: Config, env: Env, w: Server, url: string, password: string): (Server, bool) {
    var (w1, ok) := CreateKubeconfig(cfg, env, w, url);
    if !ok || password == "" then (w1, ok) else CreatePassword(cfg, env, w1, password)
  }

  datatype Readiness = StatusError | NotReady | IsReady

  function WithSecrets(cfg: Config, env: Env, w: Server, url: string, password: string): (Server, Readiness) {
    var (w1, ok) := CreateClusterSecrets(cfg, env, w, url, password);
    (w1, if ok then IsReady else StatusError)
  }

  function HostedPools(cfg: Config, env: Env, p: Provider, w: Server): (Server, Readiness)
    requires p.HostedProvider?
  {
    if p.nodePools == [] then (w, IsReady)
    else
      var w1 := Handled(cfg, env, w, ListNodePools);
      if !Ok(env, ListNodePools) then (w1, StatusError)
      else (w1, if PoolsReady(env.provider.pools, p.name) then IsReady else NotReady)
  }

  function HostedStatus(cfg: Config, env: Env, p: Provider, w: Server): (Server, Readiness)
    requires p.HostedProvider?
  {
    var hc := env.provider.hosted;
    var w1 := Handled(cfg, env, w, GetProviderObject);
    if !Ok(env, GetProviderObject) then (w1, StatusError)
    else if !LastIsTrue(hc.conditions) || !hc.kubeconfigRef then (w1, NotReady)
    else
      var w2 := Handled(cfg, env, w1, GetProviderKubeconfig);
      if !Ok(env, GetProviderKubeconfig) || env.provider.kubeconfig == None then (w2, StatusError)
      else if !hc.idps && !hc.passwordRef then (w2, NotReady)
      else
        var w3 := if hc.idps then w2 else Handled(cfg, env, w2, GetProviderPassword);
        if !hc.idps && (!Ok(env, GetProviderPassword) || env.provider.password == None) then (w3, StatusError)
        else
          var (w4, r) := WithSecrets(cfg, env, w3, env.provider.kubeconfig.value,
            if hc.idps then "" else env.provider.password.value);
          if r != IsReady then (w4, r) else HostedPools(cfg, env, p, w4)
  }

  // createCDSecrets.
  function DeploymentSecrets(cfg: Config, env: Env, w: Server): (Server, Readiness) {
    var v := env.provider;
    if !v.deployment.passwordRef || !v.deployment.kubeconfigRef then (w, NotReady)
    else
      var w1 := Handled(cfg, env, w, GetProviderKubeconfig);
      if !Ok(env, GetProviderKubeconfig) || v.kubeconfig == None then (w1, StatusError)
      else
        var w2 := Handled(cfg, env, w1, GetProviderPassword);
        if !Ok(env, GetProviderPassword) || !v.hasUsername || v.password == None then (w2, StatusError)
        else WithSecrets(cfg, env, w2, v.kubeconfig.value, v.password.value)
  }

  // The first condition of the wanted type decides.
  function FirstIsTrue(cs: seq<TypedStatus>): bool {
    if cs == [] then false else if cs[0].wanted then cs[0].status == True else FirstIsTrue(cs[1..])
  }

  /** There is a condition of the wanted type, and the first one of them is True. */
  lemma {:induction false} FirstByFields(cs: seq<TypedStatus>)
    ensures FirstIsTrue(cs) <==>
      exists k :: 0 <= k < |cs| && cs[k].wanted && cs[k].status == True && forall i | 0 <= i < k :: !cs[i].wanted
  {
    if cs != [] && !cs[0].wanted {
      var rest := cs[1..];
      FirstByFields(rest);
      assert forall i | 0 <= i < |rest| :: rest[i] == cs[i + 1];
      if FirstIsTrue(cs) {
        var k :| 0 <= k < |rest| && rest[k].wanted && rest[k].status == True
          && forall i | 0 <= i < k :: !rest[i].wanted;
        assert cs[k + 1].wanted && cs[k + 1].status == True && forall i | 0 <= i < k + 1 :: !cs[i].wanted;
      }
      if k :| 0 <= k < |cs| && cs[k].wanted && cs[k].status == True && forall i | 0 <= i < k :: !cs[i].wanted {
        assert rest[k - 1].wanted && rest[k - 1].status == True && forall i | 0 <= i < k - 1 :: !rest[i].wanted;
      }
    }
  }

  function DeploymentStatus(cfg: Config, env: Env, w: Server): (Server, Readiness) {
    var w1 := Handled(cfg, env, w, GetProviderObject);
    if !Ok(env, GetProviderObject) then (w1, StatusError)
    else if !FirstIsTrue(env.provider.deployment.conditions) then (w1, NotReady)
    else DeploymentSecrets(cfg, env, w1)
  }

  function ClaimStatus(cfg: Config, env: Env, w: Server): (Server, Readiness) {
    var w1 := Handled(cfg, env, w, GetProviderObject);
    if !Ok(env, GetProviderObject) then (w1, StatusError)
    else if !env.provider.claimBound then (w1, NotReady)
    else
      var w2 := Handled(cfg, env, w1, GetClaimedDeployment);
      if !Ok(env, GetClaimedDeployment) then (w2, StatusError) else DeploymentSecrets(cfg, env, w2)
  }

  function GetClusterStatus(cfg: Config, env: Env, p: Provider, w: Server): (Server, Readiness) {
    match p
    case HostedProvider(_, _, _) => HostedStatus(cfg, env, p, w)
    case DeploymentProvider(_, _) => DeploymentStatus(cfg, env, w)
    case ClaimProvider(_, _) => ClaimStatus(cfg, env, w)
  }

  function NotInstalled(st: St, reason: Reason, p: Phase, now: int): St
  {
    SetPhase(SetC(st, ClusterInstallSucceeded, False, reason, now), p)
  }

  function ReconcileProvider(cfg: Config, env: Env, st: St, app: Application): (r: R)
    ensures OnlyChanges(st, r.st, ClusterInstallSucceeded)
  {
    var p := Detect(app.resources, app.resources);
    if p == None then
      R(NotInstalled(st, ClusterProviderDetectionFailed, ClusterInstallFailedPhase, env.now), None)
    else
      var (w, ready) := GetClusterStatus(cfg, env, p.value, st.hub);
      var st1 := st.(hub := w);
      match ready
      case StatusError => R(NotInstalled(st1, ClusterStatusFailed, ClusterInstallFailedPhase, env.now), Some(Generic))
      case NotReady => R(NotInstalled(st1, ClusterInstalling, ClusterInstallingPhase, env.now), None)
      case IsReady => R(SetC(st1, ClusterInstallSucceeded, True, ClusterInstalled, env.now), None)
  }

  function ReconcileClusterStatus(cfg: Config, env: Env, st: St): (r: R)
    ensures OnlyChanges(st, r.st, ClusterInstallSucceeded)
  {
    if Is(st, ClusterDefinitionCreated, False) then R(st, None)
    else
      var st1 := st.(hub := Handled(cfg, env, st.hub, ListDay1));
      if !Ok(env, ListDay1) then
        R(SetC(st1, ClusterInstallSucceeded, False, ApplicationFetchFailed, env.now), Some(Generic))
      else if env.day1 == [] then R(st1, Some(AppNotFound))
      else
        match Classify(env.day1[0], false)
        case AppSyncRunning => R(NotInstalled(st1, ClusterInstalling, ClusterInstallingPhase, env.now), None)
        case AppDegraded => R(NotInstalled(st1, ApplicationDegraded, ClusterInstallFailedPhase, env.now), None)
        case AppError => R(NotInstalled(st1, ApplicationError, ClusterInstallFailedPhase, env.now), None)
        case AppHealthy =>
          var st2 := SetPhase(st1, ClusterInstallingPhase);
          if cfg.experimental then R(st2, None) else ReconcileProvider(cfg, env, st2, env.day1[0])
  }

  // The secret-ref branch of reconcile: the cluster already exists.
  function ReconcileSecretRef(cfg: Config, env: Env, st: St): (r: R)
    ensures OnlyChanges(st, r.st, ClusterInstallSucceeded)
  {
    var w1 := Handled(cfg, env, st.hub, GetSecretRef);
    if !Ok(env, GetSecretRef) || env.secretRefData == None then R(st.(hub := w1), Some(Generic))
    else
      var (w2, ok) := CreateClusterSecrets(cfg, env, w1, env.secretRefData.value.0, env.secretRefData.value.1);
      if !ok then R(st.(hub := w2), Some(Generic))
      else R(SetC(st.(hub := w2), ClusterInstallSucceeded, True, ClusterInstalled, env.now), None)
  }

  // -------- managed cluster --------

  function ClusterLabels(cfg: Config): map<LabelKey, string> {
    map[CTIName := cfg.Me().name, CTINamespace := cfg.Me().namespace, Cloud := "auto-detect", Vendor := "auto-detect"]
      + cfg.templateLabels
  }

  // ocm.CreateManagedCluster.
  function CreateManagedCluster(cfg: Config, env: Env, w: Server): (Server, bool) {
    var w1 := Handled(cfg, env, w, ListBeforeCreate);
    if !Ok(env, ListBeforeCreate) then (w1, false)
    else if FirstCluster(cfg.Me(), w1.clusters).Some? then (w1, true)
    else
      var w2 := Handled(cfg, env, w1, CreateCluster);
      var name := "cluster-" + env.newSuffix;
      if !Done(env, CreateCluster) || NameTaken(w2.clusters, name) then (w2, false)
      else (w2.(clusters := w2.clusters + [ManagedCluster(name, ClusterLabels(cfg))]), Ok(env, CreateCluster))
  }

  function ReconcileCreateManagedCluster(cfg: Config, env: Env, st: St): (r: R)
    ensures OnlyChanges(st, r.st, ManagedClusterCreated)
  {
    if !Gate(st, ClusterInstallSucceeded, Some(ManagedClusterCreated)) then R(st, None)
    else if cfg.skipRegistration || !cfg.enableManagedCluster then
      R(SetC(st, ManagedClusterCreated, True, MCSkipped, env.now), None)
    else
      var (w, ok) := CreateManagedCluster(cfg, env, st.hub);
      if !ok then R(SetC(st.(hub := w), ManagedClusterCreated, False, MCFailed, env.now), Some(Generic))
      else
        var w1 := Handled(cfg, env, w, ListAfterCreate);
        var mc := FirstCluster(cfg.Me(), w1.clusters);
        if !Ok(env, ListAfterCreate) then R(st.(hub := w1), Some(Generic))
        else if mc == None then R(st.(hub := w1), Some(Crash))       // mc.Name with mc == nil
        else
          var st1 := st.(hub := w1, status := st.status.(managedCluster := mc.value.name));
          R(SetC(st1, ManagedClusterCreated, True, MCCreated, env.now), None)
  }

  // ocm.ImportManagedCluster up to the reading of the import condition.
  function EnsureImportSecret(cfg: Config, env: Env, w: Server): (Server, bool) {
    var w1 := Handled(cfg, env, w, ListForImport);
    var mc := FirstCluster(cfg.Me(), w1.clusters);
    if !Ok(env, ListForImport) || mc == None then (w1, false)
    else
      var w2 := Handled(cfg, env, w1, GetKubeconfigForImport);
      if !Ok(env, GetKubeconfigForImport) || cfg.Me() !in w2.kubeconfigs then (w2, false)
      else
        var w3 := Handled(cfg, env, w2, GetImportSecret);
        if !Ok(env, GetImportSecret) then (w3, false)
        else if mc.value.name in w3.importSecrets then (w3, true)
        else
          var w4 := Handled(cfg, env, w3, CreateImportSecret);
          if !Done(env, CreateImportSecret) || mc.value.name in w4.importSecrets then (w4, false)
          else (w4.(importSecrets := w4.importSecrets + {mc.value.name}), Ok(env, CreateImportSecret))
  }

  function ReconcileImportManagedCluster(cfg: Config, env: Env, st: St): (r: R)
    ensures OnlyChanges(st, r.st, ManagedClusterImported)
  {
    if !Gate(st, ManagedClusterCreated, Some(ManagedClusterImported)) then R(st, None)
    else if cfg.skipRegistration || !cfg.enableManagedCluster then
      R(SetC(st, ManagedClusterImported, True, MCImportSkipped, env.now), None)
    else
      var (w, ok) := EnsureImportSecret(cfg, env, st.hub);
      var st1 := st.(hub := w);
      if !ok then R(SetC(st1, ManagedClusterImported, False, MCImportFailed, env.now), Some(Generic))
      else if LastIsTrue(env.importConditions) then
        R(SetC(st1, ManagedClusterImported, True, MCImported, env.now), None)
      else
        R(SetC(SetPhase(st1, ManagedClusterImportingPhase), ManagedClusterImported, False, MCImporting, env.now), None)
  }

  // ocm.CreateKlusterletAddonConfig.
  function EnsureKlusterlet(cfg: Config, env: Env, w: Server): (Server, bool) {
    var w1 := Handled(cfg, env, w, ListForKlusterlet);
    var mc := FirstCluster(cfg.Me(), w1.clusters);
    if !Ok(env, ListForKlusterlet) || mc == None then (w1, false)
    else
      var w2 := Handled(cfg, env, w1, GetKlusterlet);
      if !Ok(env, GetKlusterlet) then (w2, false)
      else if mc.value.name in w2.klusterlets then (w2, true)
      else
        var w3 := Handled(cfg, env, w2, CreateKlusterlet);
        if !Done(env, CreateKlusterlet) || mc.value.name in w3.klusterlets then (w3, false)
        else (w3.(klusterlets := w3.klusterlets + {mc.value.name}), Ok(env, CreateKlusterlet))
  }

  function ReconcileCreateKlusterlet(cfg: Config, env: Env, st: St): (r: R)
    ensures OnlyChanges(st, r.st, KlusterletAddonCreated)
  {
    if !Gate(st, ManagedClusterImported, None) then R(st, None)
    else if !(cfg.enableKlusterlet && !cfg.skipRegistration) then
      R(SetC(st, KlusterletAddonCreated, True, KlusterletSkipped, env.now), None)
    else
      var (w, ok) := EnsureKlusterlet(cfg, env, st.hub);
      if !ok then R(SetC(st.(hub := w), KlusterletAddonCreated, False, KlusterletFailed, env.now), Some(Generic))
      else R(SetC(st.(hub := w), KlusterletAddonCreated, True, KlusterletCreated, env.now), None)
  }

  function ReconcileConsoleURL(cfg: Config, env: Env, st: St): (r: R)
    ensures OnlyChanges(st, r.st, ConsoleURLRetrieved)
  {
    if !Gate(st, ManagedClusterImported, None) then R(st, None)
    else if cfg.skipRegistration || !cfg.enableManagedCluster then
      R(SetC(st, ConsoleURLRetrieved, True, ConsoleURLSkipped, env.now), None)
    else
      var st1 := st.(hub := Handled(cfg, env, st.hub, ListForConsole));
      if !Ok(env, ListForConsole) then
        R(SetC(st1, ConsoleURLRetrieved, False, ConsoleURLFailed, env.now), Some(Generic))
      else if FirstCluster(cfg.Me(), st1.hub.clusters) == None then R(st1, Some(Generic))
      else if env.consoleClaims == [] then R(st1, None)
      else
        var url := env.consoleClaims[|env.consoleClaims| - 1];
        R(SetC(st1.(status := st1.status.(consoleURL := url)), ConsoleURLRetrieved, True, ConsoleURLSucceeded,
          env.now), None)
  }

  // -------- argo cluster --------

  // EnsureResourceExists for the argo cluster secret: whoever's secret it is.
  function EnsureArgoSecret(cfg: Config, env: Env, w: Server, name: string): (Server, bool) {
    var w1 := Handled(cfg, env, w, GetArgoSecret);
    if !Ok(env, GetArgoSecret) then (w1, false)
    else if SecretNamed(w1.argoSecrets, name) then (w1, true)
    else
      var w2 := Handled(cfg, env, w1, CreateArgoSecret);
      if !Done(env, CreateArgoSecret) || SecretNamed(w2.argoSecrets, name) then (w2, false)
      else (w2.(argoSecrets := w2.argoSecrets + [ArgoSecret(name, Some(cfg.Me()))]), Ok(env, CreateArgoSecret))
  }

  // The name the argo secret gets: the secret reference, else the day-1 application.
  function ArgoSecretName(cfg: Config, env: Env): Option<string> {
    if cfg.secretRef.Some? then cfg.secretRef
    else if !Ok(env, ListDay1ForArgo) || env.day1 == [] then None
    else Some(env.day1[0].name)
  }

  function FinishArgo(cfg: Config, env: Env, w: Server): (Server, bool) {
    var w1 := if cfg.secretRef.Some? then w else Handled(cfg, env, w, ListDay1ForArgo);
    var name := ArgoSecretName(cfg, env);
    if name == None then (w1, false)
    else
      var w2 := if cfg.Registers() then Handled(cfg, env, w1, ListForArgo) else w1;
      if cfg.Registers() && (!Ok(env, ListForArgo) || FirstCluster(cfg.Me(), w2.clusters) == None) then (w2, false)
      else EnsureArgoSecret(cfg, env, w2, name.value)
  }

  function AddClusterToArgo(cfg: Config, env: Env, st: St): (r: R)
    ensures r.st.status.(firstLogin := st.status.firstLogin) == st.status
    ensures st.status.firstLogin.Some? ==> r.st.status.firstLogin == st.status.firstLogin
    ensures r.err == Some(LoginPending) ==>
              r.st.status.firstLogin.Some? && env.loginNow < r.st.status.firstLogin.value + cfg.loginTimeout
  {
    var st1 := st.(hub := Handled(cfg, env, st.hub, GetKubeconfigForArgo));
    if !Ok(env, GetKubeconfigForArgo) || cfg.Me() !in st1.hub.kubeconfigs then R(st1, Some(Generic))
    else
      var first := if st1.status.firstLogin.Some? then st1.status.firstLogin.value else env.now;
      var st2 := st1.(status := st1.status.(firstLogin := Some(first)));
      if !env.login then R(st2, Some(if env.loginNow < first + cfg.loginTimeout then LoginPending else Generic))
      else
        var st3 := st2.(hub := Handled(cfg, env, st2.hub, PrepareNewCluster));
        if !Ok(env, PrepareNewCluster) then R(st3, Some(Generic))
        else
          var (w, ok) := FinishArgo(cfg, env, st3.hub);
          R(st3.(hub := w), if ok then None else Some(Generic))
  }

  function ReconcileAddClusterToArgo(cfg: Config, env: Env, st: St): (r: R)
    ensures OnlyChanges(st, r.st, ArgoClusterAdded)
  {
    if !Gate(st, ManagedClusterImported, Some(ArgoClusterAdded)) then R(st, None)
    else
      var r := AddClusterToArgo(cfg, env, st);
      match r.err
      case None => R(SetC(r.st, ArgoClusterAdded, True, ArgoClusterCreated, env.now), None)
      case Some(e) =>
        R(SetC(r.st, ArgoClusterAdded, False,
          if e == LoginPending then ArgoClusterLoginPending else ArgoClusterFailed, env.now), r.err)
  }

  // -------- cluster setup --------

  datatype Fetched = Fetched(hub: Server, ok: bool, count: nat, last: Option<(string, AppSet)>)

  /** getDay2Appsets: every entry of the returned list is the same object, so the list is
      a count and the set that was fetched last. */
  function FetchSetups(cfg: Config, env: Env, w: Server, i: nat, failOnMissing: bool, sofar: Fetched): Fetched
    requires i <= |cfg.setups|
    decreases |cfg.setups| - i
  {
    if i == |cfg.setups| then sofar.(hub := w)
    else
      var w1 := Handled(cfg, env, w, GetSetup(i));
      var name := cfg.setups[i];
      if !Ok(env, GetSetup(i)) || (name !in w1.appSets && failOnMissing) then Fetched(w1, false, 0, None)
      else if name !in w1.appSets then FetchSetups(cfg, env, w1, i + 1, failOnMissing, sofar)
      else FetchSetups(cfg, env, w1, i + 1, failOnMissing,
        Fetched(w1, true, sofar.count + 1, Some((name, w1.appSets[name]))))
  }

  function NothingFetched(w: Server): Fetched { Fetched(w, true, 0, None) }

  // CreateDay2Applications; the second and later entries find the generator in place.
  function CreateDay2(cfg: Config, env: Env, w: Server): (Server, bool) {
    var f := FetchSetups(cfg, env, w, 0, true, NothingFetched(w));
    if !f.ok then (f.hub, false)
    else
      var w1 := Handled(cfg, env, f.hub, GetKubeconfigForSetup);
      if !Ok(env, GetKubeconfigForSetup) || cfg.Me() !in w1.kubeconfigs then (w1, false)
      else if f.last == None then (w1, true)
      else JoinAppSet(cfg, env, w1, f.last.value.0, f.last.value.1, w1.kubeconfigs[cfg.Me()], true, UpdateSetup(0))
  }

  function ReconcileClusterSetupCreate(cfg: Config, env: Env, st: St): (r: R)
    ensures OnlyChanges(st, r.st, ClusterSetupCreated)
  {
    if !Gate(st, ArgoClusterAdded, Some(ClusterSetupCreated)) then R(st, None)
    else if cfg.setups == [] then R(SetC(st, ClusterSetupCreated, True, ClusterSetupNotSpecified, env.now), None)
    else
      var (w, ok) := CreateDay2(cfg, env, st.hub);
      if !ok then R(SetC(st.(hub := w), ClusterSetupCreated, False, ClusterSetupCreationFailed, env.now), Some(Generic))
      else R(SetC(st.(hub := w), ClusterSetupCreated, True, SetupCreated, env.now), None)
  }

  function SetupStatuses(apps: seq<Application>): seq<SetupStatus> {
    if apps == [] then [] else [SetupStatus(apps[0].setup, Classify(apps[0], true))] + SetupStatuses(apps[1..])
  }

  predicate AllHealthy(apps: seq<Application>) {
    forall i | 0 <= i < |apps| :: Classify(apps[i], true) == AppHealthy
  }

  predicate SomeAre(apps: seq<Application>, s: AppStatus) {
    exists i | 0 <= i < |apps| :: Classify(apps[i], true) == s
  }

  function ReconcileClusterSetup(cfg: Config, env: Env, st: St): (r: R)
    ensures OnlyChanges(st, r.st, ClusterSetupSucceeded)
  {
    if !Gate(st, ClusterSetupCreated, Some(ClusterSetupSucceeded)) then R(st, None)
    else if cfg.setups == [] then R(SetC(st, ClusterSetupSucceeded, True, ClusterSetupNotDefined, env.now), None)
    else
      var st1 := st.(hub := Handled(cfg, env, st.hub, ListSetupApps));
      if !Ok(env, ListSetupApps) then
        R(SetC(st1, ClusterSetupSucceeded, False, ClusterSetupFetchFailed, env.now), Some(Generic))
      else if env.day2 == [] then
        R(SetC(st1, ClusterSetupSucceeded, False, ClusterSetupAppsNotFound, env.now), Some(Generic))
      else
        var st2 := SetPhase(st1.(status := st1.status.(clusterSetup := SetupStatuses(env.day2))),
          ClusterSetupRunningPhase);
        if AllHealthy(env.day2) then R(SetC(st2, ClusterSetupSucceeded, True, SetupSucceeded, env.now), None)
        else if SomeAre(env.day2, AppError) then
          R(SetPhase(SetC(st2, ClusterSetupSucceeded, False, ClusterSetupError, env.now), ClusterSetupFailedPhase),
            None)
        else if SomeAre(env.day2, AppDegraded) then
          R(SetPhase(SetC(st2, ClusterSetupSucceeded, False, ClusterSetupDegraded, env.now),
            ClusterSetupDegradedPhase), None)
        else R(SetC(st2, ClusterSetupSucceeded, False, ClusterSetupRunning, env.now), None)
  }

  // -------- credentials --------

  function AddSecrets(known: seq<string>, found: seq<string>): seq<string>
    decreases |found|
  {
    if found == [] then known
    else AddSecrets(if found[0] in known then known else known + [found[0]], found[1..])
  }

  function PublishCredentials(cfg: Config, env: Env, st: St): (r: R)
    ensures r.st.status.conditions == st.status.conditions && r.st.status.firstLogin == st.status.firstLogin
    ensures st.status.apiServerURL != "" ==> r.st.status.apiServerURL == st.status.apiServerURL
    ensures r.st.status.setupSecrets == st.status.setupSecrets
         || r.st.status.setupSecrets == AddSecrets(st.status.setupSecrets, env.setupSecrets)
    ensures r.err == None ==> r.st.status.phase == ReadyPhase
    ensures r.err != None ==> r.st.status.phase == st.status.phase
  {
    var st1 := if st.status.apiServerURL == "" then st.(hub := Handled(cfg, env, st.hub, GetKubeconfigForCredentials))
      else st;
    if st.status.apiServerURL == "" && (!Ok(env, GetKubeconfigForCredentials) || cfg.Me() !in st1.hub.kubeconfigs) then
      R(st1, Some(Generic))
    else
      var url := if st.status.apiServerURL == "" then st1.hub.kubeconfigs[cfg.Me()] else st.status.apiServerURL;
      var st2 := st1.(status := st1.status.(apiServerURL := url, credentialRefs := true),
                      hub := Handled(cfg, env, st1.hub, ListSetupSecrets));
      if !Ok(env, ListSetupSecrets) then R(st2, Some(Generic))
      else
        var st3 := st2.(status := st2.status.(setupSecrets := AddSecrets(st2.status.setupSecrets, env.setupSecrets)),
                        hub := Handled(cfg, env, st2.hub, ReconcileRoles));
        if !Ok(env, ReconcileRoles) then R(st3, Some(Generic)) else R(SetPhase(st3, ReadyPhase), None)
  }

  function ReconcileClusterCredentials(cfg: Config, env: Env, st: St): (r: R)
    ensures r.st.status.conditions == st.status.conditions
  {
    if Is(st, ClusterSetupSucceeded, False) then R(st, None)
    else PublishCredentials(cfg, env, st)
  }
}
