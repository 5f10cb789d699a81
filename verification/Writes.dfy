/** What the writes of a pass put on the server, and what they rest on. */
module Writes {
  import opened Generators
  import opened Conditions
  import opened Applications
  import opened Hub
  import opened Lifecycle
  import opened Passes
  import opened Calls

  predicate Answered(env: Env, s: Site) { env.reply(s).outcome == Served }

  predicate AllAnswered(env: Env, sites: seq<Site>) { forall s | s in sites :: Answered(env, s) }

  predicate SetupsAnswered(cfg: Config, env: Env) { forall i: nat | i < |cfg.setups| :: Answered(env, GetSetup(i)) }

  // Where the credentials of the new cluster come from: the secret that the instance refers
  // to, or those of its provider once the application that makes the cluster is fine.
  predicate FromSecretRef(cfg: Config, env: Env) {
    cfg.secretRef.Some? && Answered(env, GetSecretRef) && env.secretRefData.Some?
  }

  predicate FromProvider(cfg: Config, env: Env) {
    && cfg.secretRef.None? && !cfg.experimental && env.day1 != [] && Fine(env.day1[0])
    && AllAnswered(env, [ListDay1, GetProviderObject, GetProviderKubeconfig])
  }

  predicate IsURL(cfg: Config, env: Env, url: string) {
    || (FromSecretRef(cfg, env) && url == env.secretRefData.value.0)
    || (FromProvider(cfg, env) && env.provider.kubeconfig == Some(url))
  }

  predicate IsPassword(cfg: Config, env: Env, p: string) {
    || (FromSecretRef(cfg, env) && p == env.secretRefData.value.1)
    || (FromProvider(cfg, env) && Answered(env, GetProviderPassword) && env.provider.password == Some(p))
  }

  predicate IsArgoName(cfg: Config, env: Env, name: string) {
    if cfg.secretRef.Some? then name == cfg.secretRef.value
    else Answered(env, ListDay1ForArgo) && env.day1 != [] && name == env.day1[0].name
  }

  // The call writes what it ought to, after all the calls it rests on have worked.
  ghost predicate Warranted(cfg: Config, env: Env, c: Call) {
    c.change.Nothing? || (
      && !env.reply(c.site).outcome.Refused?
      && match c.change
         case Join(_, g) =>
           && g.List?
           && if g.template.setupLabel then SetupsAnswered(cfg, env) && Answered(env, GetKubeconfigForSetup)
              else Answered(env, GetDefinition) && (cfg.labelNamespace ==> Answered(env, LabelNamespace))
         case NewKubeconfig(url) => Answered(env, GetOwnKubeconfig) && IsURL(cfg, env, url)
         case NewPassword(p) => Answered(env, GetOwnPassword) && p != "" && IsPassword(cfg, env, p)
         case NewCluster(name) =>
           && cfg.enableManagedCluster && !cfg.skipRegistration
           && Answered(env, ListBeforeCreate) && name == "cluster-" + env.newSuffix
         case NewImportSecret(name) =>
           && cfg.enableManagedCluster && !cfg.skipRegistration && "cluster-" <= name
           && AllAnswered(env, [ListForImport, GetKubeconfigForImport, GetImportSecret])
         case NewKlusterlet(name) =>
           && cfg.enableKlusterlet && !cfg.skipRegistration && "cluster-" <= name
           && AllAnswered(env, [ListForKlusterlet, GetKlusterlet])
         case NewArgoSecret(name) =>
           && env.login && AllAnswered(env, [GetKubeconfigForArgo, PrepareNewCluster, GetArgoSecret])
           && (cfg.enableManagedCluster && !cfg.skipRegistration ==> Answered(env, ListForArgo))
           && IsArgoName(cfg, env, name)
         case _ => false
    )
  }

  ghost predicate AllWarranted(cfg: Config, env: Env, calls: seq<Call>) {
    forall c | c in calls :: Warranted(cfg, env, c)
  }

  lemma ReadIsWarranted(cfg: Config, env: Env, w: Server, s: Site)
    ensures AllWarranted(cfg, env, Read(cfg, env, w, s))
  {
    hide Handled;
  }

  lemma EnsureIsWarranted(cfg: Config, env: Env, w: Server, get: Site, create: Site, there: bool, x: Change)
    requires Answered(env, get) && !there ==>
      Warranted(cfg, env, Call(create, Handled(cfg, env, Handled(cfg, env, w, get), create), x))
    ensures AllWarranted(cfg, env, EnsureCalls(cfg, env, w, get, create, there, x))
  {
    hide Handled, Warranted, Read;
    ReadIsWarranted(cfg, env, w, get);
  }

  // -------- the operations --------

  lemma JoinIsWarranted(cfg: Config, env: Env, w: Server, name: string, copy: AppSet, url: string, isDay2: bool,
      s: Site)
    requires if isDay2 then SetupsAnswered(cfg, env) && Answered(env, GetKubeconfigForSetup)
      else Answered(env, GetDefinition) && (cfg.labelNamespace ==> Answered(env, LabelNamespace))
    ensures AllWarranted(cfg, env, JoinCalls(cfg, env, w, name, copy, url, isDay2, s))
  {
    hide Handled, MergeParams, HasOwn, SetupsAnswered;
  }

  lemma DefinitionIsWarranted(cfg: Config, env: Env, w: Server)
    ensures AllWarranted(cfg, env, CreateDay1Calls(cfg, env, w))
  {
    hide Handled, JoinCalls, Warranted, Read;
    var w1 := Handled(cfg, env, w, GetDefinition);
    ReadIsWarranted(cfg, env, w, GetDefinition);
    ReadIsWarranted(cfg, env, w1, LabelNamespace);
    if Ok(env, GetDefinition) && cfg.definition in w1.appSets && (cfg.labelNamespace ==> Ok(env, LabelNamespace)) {
      var url := "https://kubernetes.default.svc";
      var w2 := if cfg.labelNamespace then Handled(cfg, env, w1, LabelNamespace) else w1;
      JoinIsWarranted(cfg, env, w2, cfg.definition, w1.appSets[cfg.definition], url, false, UpdateDefinition);
    }
  }

  lemma SecretsAreWarranted(cfg: Config, env: Env, w: Server, url: string, password: string)
    requires IsURL(cfg, env, url) && (password == "" || IsPassword(cfg, env, password))
    ensures AllWarranted(cfg, env, SecretsCalls(cfg, env, w, url, password))
  {
    hide Handled, EnsureCalls, CreateKubeconfig, IsURL, IsPassword;
    var w1 := CreateKubeconfig(cfg, env, w, url).0;
    EnsureIsWarranted(cfg, env, w, GetOwnKubeconfig, CreateOwnKubeconfig,
      cfg.Me() in Handled(cfg, env, w, GetOwnKubeconfig).kubeconfigs, KubeconfigChange(cfg, env, w, url));
    if password != "" {
      EnsureIsWarranted(cfg, env, w1, GetOwnPassword, CreateOwnPassword,
        cfg.Me() in Handled(cfg, env, w1, GetOwnPassword).passwords, PasswordChange(cfg, env, w1, password));
    }
  }

  // The provider of a fine application was read.
  predicate Reading(cfg: Config, env: Env) {
    && cfg.secretRef.None? && !cfg.experimental && env.day1 != [] && Fine(env.day1[0])
    && Answered(env, ListDay1) && Answered(env, GetProviderObject)
  }

  lemma DeploymentIsWarranted(cfg: Config, env: Env, w: Server)
    requires Reading(cfg, env)
    ensures AllWarranted(cfg, env, DeploymentSecretsCalls(cfg, env, w))
  {
    hide Handled, SecretsCalls, Warranted, Read, Fine;
    var v, w1 := env.provider, Handled(cfg, env, w, GetProviderKubeconfig);
    ReadIsWarranted(cfg, env, w, GetProviderKubeconfig);
    ReadIsWarranted(cfg, env, w1, GetProviderPassword);
    if Ok(env, GetProviderKubeconfig) && v.kubeconfig.Some? && Ok(env, GetProviderPassword) && v.password.Some? {
      var w2 := Handled(cfg, env, w1, GetProviderPassword);
      SecretsAreWarranted(cfg, env, w2, v.kubeconfig.value, v.password.value);
    }
  }

  lemma HostedFinishIsWarranted(cfg: Config, env: Env, p: Provider, w: Server, url: string, password: string)
    requires p.HostedProvider? && IsURL(cfg, env, url) && (password == "" || IsPassword(cfg, env, password))
    ensures AllWarranted(cfg, env, HostedFinishCalls(cfg, env, p, w, url, password))
  {
    hide Handled, SecretsCalls, CreateClusterSecrets, Warranted, Read, IsURL, IsPassword;
    SecretsAreWarranted(cfg, env, w, url, password);
    ReadIsWarranted(cfg, env, CreateClusterSecrets(cfg, env, w, url, password).0, ListNodePools);
  }

  lemma HostedIsWarranted(cfg: Config, env: Env, p: Provider, w: Server)
    requires p.HostedProvider? && cfg.secretRef.None? && !cfg.experimental && env.day1 != [] && Fine(env.day1[0])
    requires Answered(env, ListDay1)
    ensures AllWarranted(cfg, env, HostedCalls(cfg, env, p, w))
  {
    hide Handled, HostedFinishCalls, Warranted, Read, Fine, LastIsTrue;
    var v, w1 := env.provider, Handled(cfg, env, w, GetProviderObject);
    var w2 := Handled(cfg, env, w1, GetProviderKubeconfig);
    ReadIsWarranted(cfg, env, w, GetProviderObject);
    ReadIsWarranted(cfg, env, w1, GetProviderKubeconfig);
    ReadIsWarranted(cfg, env, w2, GetProviderPassword);
    if Ok(env, GetProviderObject) && Ok(env, GetProviderKubeconfig) && v.kubeconfig.Some? {
      HostedFinishIsWarranted(cfg, env, p, w2, v.kubeconfig.value, "");
      if v.password.Some? && Ok(env, GetProviderPassword) {
        HostedFinishIsWarranted(cfg, env, p, Handled(cfg, env, w2, GetProviderPassword), v.kubeconfig.value,
          v.password.value);
      }
    }
  }

  lemma ProviderIsWarranted(cfg: Config, env: Env, p: Provider, w: Server)
    requires cfg.secretRef.None? && !cfg.experimental && env.day1 != [] && Fine(env.day1[0]) && Answered(env, ListDay1)
    ensures AllWarranted(cfg, env, ProviderCalls(cfg, env, p, w))
  {
    hide Handled, HostedCalls, DeploymentSecretsCalls, Warranted, Read, Fine, FirstIsTrue;
    var w1 := Handled(cfg, env, w, GetProviderObject);
    ReadIsWarranted(cfg, env, w, GetProviderObject);
    ReadIsWarranted(cfg, env, w1, GetClaimedDeployment);
    if p.HostedProvider? {
      HostedIsWarranted(cfg, env, p, w);
    } else if Answered(env, GetProviderObject) {
      DeploymentIsWarranted(cfg, env, w1);
      DeploymentIsWarranted(cfg, env, Handled(cfg, env, w1, GetClaimedDeployment));
    }
  }

  lemma InstallIsWarranted(cfg: Config, env: Env, st: St)
    requires cfg.secretRef.None?
    ensures AllWarranted(cfg, env, InstallCalls(cfg, env, st))
  {
    hide Handled, ProviderCalls, Warranted, Read, Classify, Detect;
    var w1 := Handled(cfg, env, st.hub, ListDay1);
    ReadIsWarranted(cfg, env, st.hub, ListDay1);
    if Ok(env, ListDay1) && env.day1 != [] && Classify(env.day1[0], false) == AppHealthy && !cfg.experimental {
      var p := Detect(env.day1[0].resources, env.day1[0].resources);
      ClassifiedByFields(env.day1[0], false);
      if p.Some? {
        ProviderIsWarranted(cfg, env, p.value, w1);
      }
    }
  }

  lemma SecretRefIsWarranted(cfg: Config, env: Env, w: Server)
    requires cfg.secretRef.Some?
    ensures AllWarranted(cfg, env, SecretRefCalls(cfg, env, w))
  {
    hide Handled, SecretsCalls, Warranted, Read;
    ReadIsWarranted(cfg, env, w, GetSecretRef);
    if Ok(env, GetSecretRef) && env.secretRefData.Some? {
      var d := env.secretRefData.value;
      SecretsAreWarranted(cfg, env, Handled(cfg, env, w, GetSecretRef), d.0, d.1);
    }
  }

  lemma RegistrationIsWarranted(cfg: Config, env: Env, st: St)
    ensures AllWarranted(cfg, env, RegisterCalls(cfg, env, st))
  {
    hide Handled, EnsureCalls, CreateManagedCluster, FirstCluster, NameTaken, Gate;
    if cfg.Registers() {
      ReadIsWarranted(cfg, env, CreateManagedCluster(cfg, env, st.hub).0, ListAfterCreate);
      EnsureIsWarranted(cfg, env, st.hub, ListBeforeCreate, CreateCluster,
        FirstCluster(cfg.Me(), Handled(cfg, env, st.hub, ListBeforeCreate).clusters).Some?,
        ClusterChange(cfg, env, st.hub));
    }
  }

  lemma ImportIsWarranted(cfg: Config, env: Env, w: Server)
    requires cfg.Registers()
    ensures AllWarranted(cfg, env, ImportCalls(cfg, env, w))
  {
    hide Handled, EnsureCalls, FirstCluster, Read;
    var w1 := Handled(cfg, env, w, ListForImport);
    var w2 := Handled(cfg, env, w1, GetKubeconfigForImport);
    var mc := FirstCluster(cfg.Me(), w1.clusters);
    ReadIsWarranted(cfg, env, w, ListForImport);
    ReadIsWarranted(cfg, env, w1, GetKubeconfigForImport);
    if Ok(env, ListForImport) && mc.Some? && Ok(env, GetKubeconfigForImport) {
      EnsureIsWarranted(cfg, env, w2, GetImportSecret, CreateImportSecret,
        mc.value.name in Handled(cfg, env, w2, GetImportSecret).importSecrets,
        ImportChange(cfg, env, w2, mc.value.name));
    }
  }

  lemma KlusterletIsWarranted(cfg: Config, env: Env, w: Server)
    requires cfg.enableKlusterlet && !cfg.skipRegistration
    ensures AllWarranted(cfg, env, KlusterletCalls(cfg, env, w))
  {
    hide Handled, EnsureCalls, FirstCluster, Read;
    var w1 := Handled(cfg, env, w, ListForKlusterlet);
    var mc := FirstCluster(cfg.Me(), w1.clusters);
    ReadIsWarranted(cfg, env, w, ListForKlusterlet);
    if Ok(env, ListForKlusterlet) && mc.Some? {
      EnsureIsWarranted(cfg, env, w1, GetKlusterlet, CreateKlusterlet,
        mc.value.name in Handled(cfg, env, w1, GetKlusterlet).klusterlets,
        KlusterletChange(cfg, env, w1, mc.value.name));
    }
  }

  lemma ArgoSecretIsWarranted(cfg: Config, env: Env, w: Server, name: string)
    requires env.login && AllAnswered(env, [GetKubeconfigForArgo, PrepareNewCluster]) && IsArgoName(cfg, env, name)
    requires cfg.Registers() ==> Answered(env, ListForArgo)
    ensures AllWarranted(cfg, env, ArgoSecretCalls(cfg, env, w, name))
  {
    hide Handled, EnsureCalls, SecretNamed, IsArgoName;
    assert Answered(env, GetKubeconfigForArgo) && Answered(env, PrepareNewCluster);
    EnsureIsWarranted(cfg, env, w, GetArgoSecret, CreateArgoSecret,
      SecretNamed(Handled(cfg, env, w, GetArgoSecret).argoSecrets, name), ArgoSecretChange(cfg, env, w, name));
  }

  lemma NamedIsWarranted(cfg: Config, env: Env, w: Server, name: string)
    requires env.login && AllAnswered(env, [GetKubeconfigForArgo, PrepareNewCluster]) && IsArgoName(cfg, env, name)
    ensures AllWarranted(cfg, env, NamedCalls(cfg, env, w, name))
  {
    hide Handled, ArgoSecretCalls, FirstCluster, IsArgoName, Warranted, Read;
    ReadIsWarranted(cfg, env, w, ListForArgo);
    if !cfg.Registers() {
      ArgoSecretIsWarranted(cfg, env, w, name);
    } else if Ok(env, ListForArgo) {
      ArgoSecretIsWarranted(cfg, env, Handled(cfg, env, w, ListForArgo), name);
    }
  }

  lemma AddIsWarranted(cfg: Config, env: Env, w: Server)
    ensures AllWarranted(cfg, env, AddCalls(cfg, env, w))
  {
    hide Handled, NamedCalls, Warranted, Read;
    var w1 := Handled(cfg, env, w, GetKubeconfigForArgo);
    var w2 := Handled(cfg, env, w1, PrepareNewCluster);
    ReadIsWarranted(cfg, env, w, GetKubeconfigForArgo);
    ReadIsWarranted(cfg, env, w1, PrepareNewCluster);
    ReadIsWarranted(cfg, env, w2, ListDay1ForArgo);
    var name := ArgoSecretName(cfg, env);
    if env.login && Ok(env, GetKubeconfigForArgo) && Ok(env, PrepareNewCluster) && name.Some? {
      NamedIsWarranted(cfg, env, if cfg.secretRef.Some? then w2 else Handled(cfg, env, w2, ListDay1ForArgo),
        name.value);
    }
  }

  // Setups are looked up one by one, and any look-up that fails ends it.
  lemma {:induction false} FetchIsWarranted(cfg: Config, env: Env, w: Server, i: nat, sofar: Fetched)
    requires i <= |cfg.setups|
    ensures AllWarranted(cfg, env, FetchCalls(cfg, env, w, i, true))
    ensures FetchSetups(cfg, env, w, i, true, sofar).ok ==>
        forall j: nat | i <= j < |cfg.setups| :: Answered(env, GetSetup(j))
    decreases |cfg.setups| - i
  {
    hide Handled, Warranted, Read;
    if i < |cfg.setups| {
      var w1, name := Handled(cfg, env, w, GetSetup(i)), cfg.setups[i];
      ReadIsWarranted(cfg, env, w, GetSetup(i));
      var next := if name in w1.appSets then Fetched(w1, true, sofar.count + 1, Some((name, w1.appSets[name])))
        else sofar;
      FetchIsWarranted(cfg, env, w1, i + 1, next);
    }
  }

  lemma SetupIsWarranted(cfg: Config, env: Env, w: Server)
    ensures AllWarranted(cfg, env, CreateDay2Calls(cfg, env, w))
  {
    hide Handled, FetchCalls, FetchSetups, JoinCalls, Warranted, Read;
    var f := FetchSetups(cfg, env, w, 0, true, NothingFetched(w));
    var w1 := Handled(cfg, env, f.hub, GetKubeconfigForSetup);
    FetchIsWarranted(cfg, env, w, 0, NothingFetched(w));
    ReadIsWarranted(cfg, env, f.hub, GetKubeconfigForSetup);
    if f.ok && Ok(env, GetKubeconfigForSetup) && cfg.Me() in w1.kubeconfigs && f.last.Some? {
      var url := w1.kubeconfigs[cfg.Me()];
      JoinIsWarranted(cfg, env, w1, f.last.value.0, f.last.value.1, url, true, UpdateSetup(0));
    }
  }

  lemma PublishIsWarranted(cfg: Config, env: Env, st: St)
    ensures AllWarranted(cfg, env, PublishCalls(cfg, env, st))
  {
    hide Handled, Warranted, Read;
    var w1 := if st.status.apiServerURL == "" then Handled(cfg, env, st.hub, GetKubeconfigForCredentials) else st.hub;
    ReadIsWarranted(cfg, env, st.hub, GetKubeconfigForCredentials);
    ReadIsWarranted(cfg, env, w1, ListSetupSecrets);
    ReadIsWarranted(cfg, env, Handled(cfg, env, w1, ListSetupSecrets), ReconcileRoles);
  }

  lemma StageIsWarranted(cfg: Config, env: Env, st: St, k: nat)
    requires k < STAGE_COUNT
    ensures AllWarranted(cfg, env, StageCalls(cfg, env, st, k))
  {
    hide Warranted, Read, CreateDay1Calls, SecretRefCalls, InstallCalls, RegisterCalls, ImportCalls, KlusterletCalls,
      AddCalls, CreateDay2Calls, PublishCalls, Gate;
    match k {
      case 0 =>
        DefinitionIsWarranted(cfg, env, st.hub);
        if cfg.secretRef.Some? {
          SecretRefIsWarranted(cfg, env, st.hub);
        }
      case 1 =>
        if cfg.secretRef.None? {
          InstallIsWarranted(cfg, env, st);
        }
      case 2 => RegistrationIsWarranted(cfg, env, st);
      case 3 =>
        if cfg.Registers() {
          ImportIsWarranted(cfg, env, st.hub);
        }
      case 4 =>
        if cfg.enableKlusterlet && !cfg.skipRegistration {
          KlusterletIsWarranted(cfg, env, st.hub);
        }
      case 5 => ReadIsWarranted(cfg, env, st.hub, ListForConsole);
      case 6 => AddIsWarranted(cfg, env, st.hub);
      case 7 => SetupIsWarranted(cfg, env, st.hub);
      case 8 => ReadIsWarranted(cfg, env, st.hub, ListSetupApps);
      case _ => PublishIsWarranted(cfg, env, st);
    }
  }

  lemma {:induction false} StagesAreWarranted(cfg: Config, env: Env, st: St, k: nat)
    requires k <= STAGE_COUNT
    ensures AllWarranted(cfg, env, StagesCalls(cfg, env, st, k))
    decreases STAGE_COUNT - k
  {
    hide Stage, StageCalls, Warranted;
    if k < STAGE_COUNT {
      StageIsWarranted(cfg, env, st, k);
      if Stage(cfg, env, st, k).err == None {
        StagesAreWarranted(cfg, env, Stage(cfg, env, st, k).st, k + 1);
      }
    }
  }

  /** Every write of every pass is warranted: none comes before a call it rests on has worked,
      none is of anything but what it ought to be (the API server and the password that the
      provider or the referred secret hold, a cluster under a generated name, an argo secret
      named after the application or the reference), and none removes anything. */
  lemma EveryWriteIsWarranted(cfg: Config, env: Env, s: Stored, w: Server, c: Call)
    requires c in PassCalls(cfg, env, s, w)
    ensures Warranted(cfg, env, c)
  {
    hide Warranted, StagesCalls, Read, PassStart;
    ReadIsWarranted(cfg, env, w, GetTemplate);
    StagesAreWarranted(cfg, env, PassStart(cfg, env, s, w), 0);
  }

  // -------- on the server --------

  // The template's labels win; of the standard ones two name the instance, and the others
  // are left to be detected.
  predicate Labelled(cfg: Config, labels: map<LabelKey, string>) {
    && labels.Keys == cfg.templateLabels.Keys + {CTIName, CTINamespace, Cloud, Vendor}
    && (forall k | k in cfg.templateLabels :: labels[k] == cfg.templateLabels[k])
    && (CTIName !in cfg.templateLabels ==> labels[CTIName] == cfg.instance.key.name)
    && (CTINamespace !in cfg.templateLabels ==> labels[CTINamespace] == cfg.instance.key.namespace)
    && (Cloud !in cfg.templateLabels ==> labels[Cloud] == "auto-detect")
    && (Vendor !in cfg.templateLabels ==> labels[Vendor] == "auto-detect")
  }

  // The credentials that were there stay as they are, and what comes is the instance's.
  predicate KubeconfigsRight(cfg: Config, env: Env, w: Server, n: Server) {
    && (forall k | k in w.kubeconfigs :: k in n.kubeconfigs && n.kubeconfigs[k] == w.kubeconfigs[k])
    && (forall k | k in n.kubeconfigs && k !in w.kubeconfigs :: k == cfg.Me() && IsURL(cfg, env, n.kubeconfigs[k]))
  }

  predicate PasswordsRight(cfg: Config, env: Env, w: Server, n: Server) {
    && (forall k | k in w.passwords :: k in n.passwords && n.passwords[k] == w.passwords[k])
    && (forall k | k in n.passwords && k !in w.passwords :: k == cfg.Me() && IsPassword(cfg, env, n.passwords[k]))
  }

  // The objects that hang on the new cluster, and the cluster itself.
  predicate ObjectsRight(cfg: Config, env: Env, w: Server, n: Server) {
    && (forall x | x in w.clusters :: x in n.clusters)
    && (forall x | x in n.clusters && x !in w.clusters ::
          x.name == "cluster-" + env.newSuffix && Labelled(cfg, x.labels))
    && (forall x | x in w.argoSecrets :: x in n.argoSecrets)
    && (forall x | x in n.argoSecrets && x !in w.argoSecrets ::
        IsArgoName(cfg, env, x.name) && x.owner == Some(cfg.Me()))
    && w.importSecrets <= n.importSecrets && (forall x | x in n.importSecrets - w.importSecrets :: "cluster-" <= x)
    && w.klusterlets <= n.klusterlets && (forall x | x in n.klusterlets - w.klusterlets :: "cluster-" <= x)
  }

  // A set gains one generator at most, that of the instance, and keeps its template.
  predicate SetsRight(cfg: Config, w: Server, n: Server) {
    && n.appSets.Keys == w.appSets.Keys
    && forall m | m in w.appSets :: n.appSets[m] == w.appSets[m] || (
         && w.appSets[m].generators <= n.appSets[m].generators
         && |n.appSets[m].generators| == |w.appSets[m].generators| + 1
         && Owns(cfg.Me(), n.appSets[m].generators[|w.appSets[m].generators|])
         && n.appSets[m].template == w.appSets[m].template && w.appSets[m].version < n.appSets[m].version)
  }

  lemma LabelledByTemplate(cfg: Config)
    ensures Labelled(cfg, ClusterLabels(cfg))
  {}

  lemma CredentialsAreRight(cfg: Config, env: Env, may: Powers, c: Call)
    requires Warranted(cfg, env, c) && Legal(cfg, may, c.before, c.change)
    ensures KubeconfigsRight(cfg, env, c.before, Apply(cfg, c.before, c.change))
    ensures PasswordsRight(cfg, env, c.before, Apply(cfg, c.before, c.change))
  {
    hide IsURL, IsPassword, IsArgoName, SetupsAnswered, AllAnswered, Without, WithoutSecret, WithoutCluster, Fits,
      HasOwn, Target, FirstCluster, MySecrets, NameTaken, SecretNamed;
    var n := Apply(cfg, c.before, c.change);
    if !c.change.NewKubeconfig? {
      assert n.kubeconfigs == c.before.kubeconfigs;
    }
    if !c.change.NewPassword? {
      assert n.passwords == c.before.passwords;
    }
  }

  lemma ObjectsAreRight(cfg: Config, env: Env, c: Call)
    requires Warranted(cfg, env, c)
    ensures ObjectsRight(cfg, env, c.before, Apply(cfg, c.before, c.change))
  {
    LabelledByTemplate(cfg);
    hide IsURL, IsPassword, IsArgoName, SetupsAnswered, AllAnswered, Without, WithoutSecret, WithoutCluster,
      ClusterLabels, Labelled;
  }

  lemma JoinIsRight(cfg: Config, w: Server, name: string, g: Generator)
    requires name in w.appSets && Owns(cfg.Me(), g) && VersionsBounded(w)
    ensures SetsRight(cfg, w, WithGenerators(w, name, w.appSets[name].generators + [g]))
  {
    hide Owns;
  }

  lemma SetsAreRight(cfg: Config, env: Env, may: Powers, c: Call)
    requires Warranted(cfg, env, c) && Legal(cfg, may, c.before, c.change) && VersionsBounded(c.before)
    ensures SetsRight(cfg, c.before, Apply(cfg, c.before, c.change))
  {
    hide IsURL, IsPassword, IsArgoName, SetupsAnswered, AllAnswered, Without, WithoutSecret, WithoutCluster, Fits,
      HasOwn, Owns, Target, FirstCluster, MySecrets, NameTaken, SecretNamed, WithGenerators;
    if c.change.Join? {
      JoinIsRight(cfg, c.before, c.change.name, c.change.generator);
    } else {
      assert Apply(cfg, c.before, c.change).appSets == c.before.appSets;
    }
  }

  ghost predicate Right(cfg: Config, env: Env, w: Server, n: Server) {
    && KubeconfigsRight(cfg, env, w, n) && PasswordsRight(cfg, env, w, n)
    && ObjectsRight(cfg, env, w, n) && SetsRight(cfg, w, n)
  }

  lemma CallIsRight(cfg: Config, env: Env, may: Powers, c: Call)
    requires Warranted(cfg, env, c) && Legal(cfg, may, c.before, c.change) && VersionsBounded(c.before)
    ensures Right(cfg, env, c.before, Apply(cfg, c.before, c.change))
  {
    hide Legal, Apply, Warranted, KubeconfigsRight, PasswordsRight, ObjectsRight, SetsRight, VersionsBounded;
    CredentialsAreRight(cfg, env, may, c);
    ObjectsAreRight(cfg, env, c);
    SetsAreRight(cfg, env, may, c);
  }

  lemma {:induction false} TraceIsRight(cfg: Config, env: Env, may: Powers, w: Server, calls: seq<Call>, n: Server,
      c: Call)
    requires Trace(cfg, may, w, calls, n) && AllWarranted(cfg, env, calls) && c in calls
    ensures Right(cfg, env, c.before, Apply(cfg, c.before, c.change))
    decreases |calls|
  {
    if c == calls[0] {
      assert VersionsBounded(c.before);
      hide Rely, Legal, Apply, Warranted, Right, VersionsBounded;
      CallIsRight(cfg, env, may, c);
    } else {
      hide Rely, Legal, Apply, Warranted, Right;
      TraceIsRight(cfg, env, may, Apply(cfg, calls[0].before, calls[0].change), calls[1..], n, c);
    }
  }

  /** What a call of a pass leaves on the server that was not there before is the instance's
      and holds what it should, and nothing that was there is gone or changed. */
  lemma EveryWriteIsRight(cfg: Config, env: Env, s: Stored, w: Server, c: Call)
    requires ServerOk(w) && c in PassCalls(cfg, env, s, w)
    ensures Right(cfg, env, c.before, Apply(cfg, c.before, c.change))
  {
    hide Warranted, StagesCalls, PassStart, Trace, ServerOk, Pass, PassCalls, Apply, Right;
    PassLeads(cfg, env, s, w);
    forall x | x in PassCalls(cfg, env, s, w) ensures Warranted(cfg, env, x) {
      EveryWriteIsWarranted(cfg, env, s, w, x);
    }
    TraceIsRight(cfg, env, PASS, w, PassCalls(cfg, env, s, w), Pass(cfg, env, s, w).st.hub, c);
  }
}
