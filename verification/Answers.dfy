/** No failure is passed over: a pass that returns nil, and a delete pass that lets the
    finalizer go, has had every one of its calls answered. */
module Answers {
  import opened Generators
  import opened Conditions
  import opened Applications
  import opened Hub
  import opened Lifecycle
  import opened Passes
  import opened Calls
  import opened Deletion
  import opened DeletionCalls
  import opened Writes

  // The call was answered; and what was to be deleted, of the objects that have to be there,
  // was there.
  ghost predicate Settled(env: Env, c: Call) {
    && Answered(env, c.site)
    && (c.site.DeleteCluster? ==> c.change.DropCluster? && NameTaken(c.before.clusters, c.change.cluster.name))
    && (c.site.DeleteArgoSecret? ==>
          c.change.DropArgoSecret? && SecretNamed(c.before.argoSecrets, c.change.secret.name))
  }

  ghost predicate AllServed(env: Env, calls: seq<Call>) {
    forall c | c in calls :: Settled(env, c)
  }

  lemma ReadServed(cfg: Config, env: Env, w: Server, s: Site)
    requires !s.DeleteCluster? && !s.DeleteArgoSecret?
    ensures AllServed(env, Read(cfg, env, w, s)) <==> Answered(env, s)
    ensures forall c | c in Read(cfg, env, w, s) :: c.site == s
  {
    hide Handled;
    var calls := Read(cfg, env, w, s);
    assert calls[0] in calls && (Settled(env, calls[0]) <==> Answered(env, s));
  }

  lemma WroteServed(cfg: Config, env: Env, w: Server, s: Site, x: Change)
    requires s.DeleteCluster? ==> x.DropCluster? && NameTaken(Handled(cfg, env, w, s).clusters, x.cluster.name)
    requires s.DeleteArgoSecret? ==>
        x.DropArgoSecret? && SecretNamed(Handled(cfg, env, w, s).argoSecrets, x.secret.name)
    ensures AllServed(env, Wrote(cfg, env, w, s, x)) <==> Answered(env, s)
  {
    hide Handled;
    var calls := Wrote(cfg, env, w, s, x);
    assert calls[0] in calls && (Settled(env, calls[0]) <==> Answered(env, s));
  }

  lemma EnsureServed(cfg: Config, env: Env, w: Server, get: Site, create: Site, there: bool, x: Change)
    requires Answered(env, get) && (there || Answered(env, create))
    requires forall s | s in [get, create] :: !s.DeleteCluster? && !s.DeleteArgoSecret?
    ensures AllServed(env, EnsureCalls(cfg, env, w, get, create, there, x))
  {
    hide Handled, Read, Wrote;
    assert get in [get, create] && create in [get, create];
    ReadServed(cfg, env, w, get);
    WroteServed(cfg, env, Handled(cfg, env, w, get), create, x);
  }

  // -------- the steps of a pass --------

  lemma JoinServed(cfg: Config, env: Env, w: Server, name: string, copy: AppSet, url: string, isDay2: bool, s: Site)
    requires JoinAppSet(cfg, env, w, name, copy, url, isDay2, s).1 && !s.DeleteCluster? && !s.DeleteArgoSecret?
    ensures AllServed(env, JoinCalls(cfg, env, w, name, copy, url, isDay2, s))
  {
    hide At, NewGenerator, HasOwn, Wrote, Takes;
    WroteServed(cfg, env, w, s, Nothing);
    WroteServed(cfg, env, w, s, Join(name, NewGenerator(cfg.instance, name, copy.template, url, isDay2)));
  }

  lemma DefinitionServed(cfg: Config, env: Env, w: Server)
    requires CreateDay1(cfg, env, w).1
    ensures AllServed(env, CreateDay1Calls(cfg, env, w))
  {
    hide Handled, JoinAppSet, JoinCalls, Read;
    var url, w1 := "https://kubernetes.default.svc", Handled(cfg, env, w, GetDefinition);
    var w2 := if cfg.labelNamespace then Handled(cfg, env, w1, LabelNamespace) else w1;
    ReadServed(cfg, env, w, GetDefinition);
    ReadServed(cfg, env, w1, LabelNamespace);
    JoinServed(cfg, env, w2, cfg.definition, w1.appSets[cfg.definition], url, false, UpdateDefinition);
  }

  lemma SecretsServed(cfg: Config, env: Env, w: Server, url: string, password: string)
    requires CreateClusterSecrets(cfg, env, w, url, password).1
    ensures AllServed(env, SecretsCalls(cfg, env, w, url, password))
  {
    hide Handled, EnsureCalls;
    var w1 := CreateKubeconfig(cfg, env, w, url).0;
    EnsureServed(cfg, env, w, GetOwnKubeconfig, CreateOwnKubeconfig,
      cfg.Me() in Handled(cfg, env, w, GetOwnKubeconfig).kubeconfigs, KubeconfigChange(cfg, env, w, url));
    if password != "" {
      EnsureServed(cfg, env, w1, GetOwnPassword, CreateOwnPassword,
        cfg.Me() in Handled(cfg, env, w1, GetOwnPassword).passwords, PasswordChange(cfg, env, w1, password));
    }
  }

  lemma DeploymentSecretsServed(cfg: Config, env: Env, w: Server)
    requires DeploymentSecrets(cfg, env, w).1 != StatusError
    ensures AllServed(env, DeploymentSecretsCalls(cfg, env, w))
  {
    hide Handled, CreateClusterSecrets, SecretsCalls, Read;
    var v, w1 := env.provider, Handled(cfg, env, w, GetProviderKubeconfig);
    ReadServed(cfg, env, w, GetProviderKubeconfig);
    ReadServed(cfg, env, w1, GetProviderPassword);
    if v.deployment.passwordRef && v.deployment.kubeconfigRef {
      SecretsServed(cfg, env, Handled(cfg, env, w1, GetProviderPassword), v.kubeconfig.value, v.password.value);
    }
  }

  lemma PoolsServed(cfg: Config, env: Env, p: Provider, w: Server)
    requires p.HostedProvider? && HostedPools(cfg, env, p, w).1 != StatusError
    ensures AllServed(env, PoolsCalls(cfg, env, p, w))
  {
    hide Handled, PoolsReady, Read;
    ReadServed(cfg, env, w, ListNodePools);
  }

  lemma HostedFinishServed(cfg: Config, env: Env, p: Provider, w: Server, url: string, password: string)
    requires p.HostedProvider? && CreateClusterSecrets(cfg, env, w, url, password).1
    requires HostedPools(cfg, env, p, CreateClusterSecrets(cfg, env, w, url, password).0).1 != StatusError
    ensures AllServed(env, HostedFinishCalls(cfg, env, p, w, url, password))
  {
    hide CreateClusterSecrets, SecretsCalls, HostedPools, PoolsCalls;
    SecretsServed(cfg, env, w, url, password);
    PoolsServed(cfg, env, p, CreateClusterSecrets(cfg, env, w, url, password).0);
  }

  lemma HostedServed(cfg: Config, env: Env, p: Provider, w: Server)
    requires p.HostedProvider? && HostedStatus(cfg, env, p, w).1 != StatusError
    ensures AllServed(env, HostedCalls(cfg, env, p, w))
  {
    hide Handled, CreateClusterSecrets, HostedPools, HostedFinishCalls, Read, LastIsTrue;
    var v, w1 := env.provider, Handled(cfg, env, w, GetProviderObject);
    var w2 := Handled(cfg, env, w1, GetProviderKubeconfig);
    ReadServed(cfg, env, w, GetProviderObject);
    ReadServed(cfg, env, w1, GetProviderKubeconfig);
    ReadServed(cfg, env, w2, GetProviderPassword);
    if LastIsTrue(v.hosted.conditions) && v.hosted.kubeconfigRef && (v.hosted.idps || v.hosted.passwordRef) {
      var w3 := if v.hosted.idps then w2 else Handled(cfg, env, w2, GetProviderPassword);
      HostedFinishServed(cfg, env, p, w3, v.kubeconfig.value, if v.hosted.idps then "" else v.password.value);
    }
  }

  lemma ProviderServed(cfg: Config, env: Env, p: Provider, w: Server)
    requires GetClusterStatus(cfg, env, p, w).1 != StatusError
    ensures AllServed(env, ProviderCalls(cfg, env, p, w))
  {
    hide Handled, HostedStatus, HostedCalls, DeploymentSecrets, DeploymentSecretsCalls, Read, FirstIsTrue;
    var w1 := Handled(cfg, env, w, GetProviderObject);
    ReadServed(cfg, env, w, GetProviderObject);
    ReadServed(cfg, env, w1, GetClaimedDeployment);
    match p {
      case HostedProvider(_, _, _) => HostedServed(cfg, env, p, w);
      case DeploymentProvider(_, _) =>
        if FirstIsTrue(env.provider.deployment.conditions) {
          DeploymentSecretsServed(cfg, env, w1);
        }
      case ClaimProvider(_, _) =>
        if env.provider.claimBound {
          DeploymentSecretsServed(cfg, env, Handled(cfg, env, w1, GetClaimedDeployment));
        }
    }
  }

  lemma InstallServed(cfg: Config, env: Env, st: St)
    requires ReconcileClusterStatus(cfg, env, st).err == None
    ensures AllServed(env, InstallCalls(cfg, env, st))
  {
    hide Handled, GetClusterStatus, ProviderCalls, Read, Classify, Detect, OnlyChanges, Conditions.Write;
    ReadServed(cfg, env, st.hub, ListDay1);
    if !Is(st, ClusterDefinitionCreated, False) && Classify(env.day1[0], false) == AppHealthy && !cfg.experimental {
      var p := Detect(env.day1[0].resources, env.day1[0].resources);
      if p.Some? {
        ProviderServed(cfg, env, p.value, Handled(cfg, env, st.hub, ListDay1));
      }
    }
  }

  lemma SecretRefServed(cfg: Config, env: Env, st: St)
    requires ReconcileSecretRef(cfg, env, st).err == None
    ensures AllServed(env, SecretRefCalls(cfg, env, st.hub))
  {
    hide Handled, CreateClusterSecrets, SecretsCalls, Read, OnlyChanges, Conditions.Write;
    ReadServed(cfg, env, st.hub, GetSecretRef);
    var d := env.secretRefData.value;
    SecretsServed(cfg, env, Handled(cfg, env, st.hub, GetSecretRef), d.0, d.1);
  }

  lemma RegistrationServed(cfg: Config, env: Env, st: St)
    requires ReconcileCreateManagedCluster(cfg, env, st).err == None
    ensures AllServed(env, RegisterCalls(cfg, env, st))
  {
    hide Handled, EnsureCalls, FirstCluster, NameTaken, Gate, OnlyChanges, Conditions.Write, ClusterLabels, Read;
    if Gate(st, ClusterInstallSucceeded, Some(ManagedClusterCreated)) && cfg.Registers() {
      ReadServed(cfg, env, CreateManagedCluster(cfg, env, st.hub).0, ListAfterCreate);
      EnsureServed(cfg, env, st.hub, ListBeforeCreate, CreateCluster,
        FirstCluster(cfg.Me(), Handled(cfg, env, st.hub, ListBeforeCreate).clusters).Some?,
        ClusterChange(cfg, env, st.hub));
    }
  }

  lemma ImportServed(cfg: Config, env: Env, w: Server)
    requires EnsureImportSecret(cfg, env, w).1
    ensures AllServed(env, ImportCalls(cfg, env, w))
  {
    hide Handled, EnsureCalls, FirstCluster, Read;
    var w1 := Handled(cfg, env, w, ListForImport);
    var w2 := Handled(cfg, env, w1, GetKubeconfigForImport);
    var mc := FirstCluster(cfg.Me(), w1.clusters).value;
    ReadServed(cfg, env, w, ListForImport);
    ReadServed(cfg, env, w1, GetKubeconfigForImport);
    EnsureServed(cfg, env, w2, GetImportSecret, CreateImportSecret,
      mc.name in Handled(cfg, env, w2, GetImportSecret).importSecrets, ImportChange(cfg, env, w2, mc.name));
  }

  lemma KlusterletServed(cfg: Config, env: Env, w: Server)
    requires EnsureKlusterlet(cfg, env, w).1
    ensures AllServed(env, KlusterletCalls(cfg, env, w))
  {
    hide Handled, EnsureCalls, FirstCluster, Read;
    var w1 := Handled(cfg, env, w, ListForKlusterlet);
    var mc := FirstCluster(cfg.Me(), w1.clusters).value;
    ReadServed(cfg, env, w, ListForKlusterlet);
    EnsureServed(cfg, env, w1, GetKlusterlet, CreateKlusterlet,
      mc.name in Handled(cfg, env, w1, GetKlusterlet).klusterlets, KlusterletChange(cfg, env, w1, mc.name));
  }

  lemma NamedServed(cfg: Config, env: Env, w: Server, name: string)
    requires cfg.Registers() ==> Answered(env, ListForArgo)
    requires EnsureArgoSecret(cfg, env, if cfg.Registers() then Handled(cfg, env, w, ListForArgo) else w, name).1
    ensures AllServed(env, NamedCalls(cfg, env, w, name))
  {
    hide Handled, EnsureCalls, FirstCluster, Read, SecretNamed;
    ReadServed(cfg, env, w, ListForArgo);
    var w1 := if cfg.Registers() then Handled(cfg, env, w, ListForArgo) else w;
    EnsureServed(cfg, env, w1, GetArgoSecret, CreateArgoSecret,
      SecretNamed(Handled(cfg, env, w1, GetArgoSecret).argoSecrets, name), ArgoSecretChange(cfg, env, w1, name));
  }

  lemma AddServed(cfg: Config, env: Env, st: St)
    requires AddClusterToArgo(cfg, env, st).err == None
    ensures AllServed(env, AddCalls(cfg, env, st.hub))
  {
    hide Handled, EnsureArgoSecret, NamedCalls, FirstCluster, Read;
    var w1 := Handled(cfg, env, st.hub, GetKubeconfigForArgo);
    var w2 := Handled(cfg, env, w1, PrepareNewCluster);
    ReadServed(cfg, env, st.hub, GetKubeconfigForArgo);
    ReadServed(cfg, env, w1, PrepareNewCluster);
    ReadServed(cfg, env, w2, ListDay1ForArgo);
    NamedServed(cfg, env, if cfg.secretRef.Some? then w2 else Handled(cfg, env, w2, ListDay1ForArgo),
      ArgoSecretName(cfg, env).value);
  }

  lemma {:induction false} FetchServed(cfg: Config, env: Env, w: Server, i: nat, failOnMissing: bool, sofar: Fetched)
    requires i <= |cfg.setups| && FetchSetups(cfg, env, w, i, failOnMissing, sofar).ok
    ensures AllServed(env, FetchCalls(cfg, env, w, i, failOnMissing))
    decreases |cfg.setups| - i
  {
    hide Handled, Read;
    if i < |cfg.setups| {
      var w1, name := Handled(cfg, env, w, GetSetup(i)), cfg.setups[i];
      ReadServed(cfg, env, w, GetSetup(i));
      FetchServed(cfg, env, w1, i + 1, failOnMissing,
        if name in w1.appSets then Fetched(w1, true, sofar.count + 1, Some((name, w1.appSets[name]))) else sofar);
    }
  }

  lemma SetupServed(cfg: Config, env: Env, w: Server)
    requires CreateDay2(cfg, env, w).1
    ensures AllServed(env, CreateDay2Calls(cfg, env, w))
  {
    hide Handled, FetchSetups, FetchCalls, JoinAppSet, JoinCalls, Read;
    var f := FetchSetups(cfg, env, w, 0, true, NothingFetched(w));
    var w1 := Handled(cfg, env, f.hub, GetKubeconfigForSetup);
    FetchServed(cfg, env, w, 0, true, NothingFetched(w));
    ReadServed(cfg, env, f.hub, GetKubeconfigForSetup);
    if f.last.Some? {
      var url := w1.kubeconfigs[cfg.Me()];
      JoinServed(cfg, env, w1, f.last.value.0, f.last.value.1, url, true, UpdateSetup(0));
    }
  }

  lemma PublishServed(cfg: Config, env: Env, st: St)
    requires PublishCredentials(cfg, env, st).err == None
    ensures AllServed(env, PublishCalls(cfg, env, st))
  {
    hide Handled, Read, AddSecrets;
    var w1 := if st.status.apiServerURL == "" then Handled(cfg, env, st.hub, GetKubeconfigForCredentials) else st.hub;
    ReadServed(cfg, env, st.hub, GetKubeconfigForCredentials);
    ReadServed(cfg, env, w1, ListSetupSecrets);
    ReadServed(cfg, env, Handled(cfg, env, w1, ListSetupSecrets), ReconcileRoles);
  }

  lemma EarlyStageServed(cfg: Config, env: Env, st: St, k: nat)
    requires k < 5 && Stage(cfg, env, st, k).err == None
    ensures AllServed(env, StageCalls(cfg, env, st, k))
  {
    hide CreateDay1, CreateDay1Calls, Lifecycle.ReconcileSecretRef, SecretRefCalls, Lifecycle.ReconcileClusterStatus,
      InstallCalls, Lifecycle.ReconcileCreateManagedCluster, RegisterCalls, EnsureImportSecret, ImportCalls,
      EnsureKlusterlet, KlusterletCalls, OnlyChanges, Conditions.Write, LastIsTrue, CanExecute;
    match k {
      case 0 =>
        if cfg.secretRef.Some? {
          SecretRefServed(cfg, env, st);
        } else if Is(st, ClusterDefinitionCreated, False) {
          DefinitionServed(cfg, env, st.hub);
        }
      case 1 =>
        if cfg.secretRef.None? {
          InstallServed(cfg, env, st);
        }
      case 2 => RegistrationServed(cfg, env, st);
      case 3 =>
        if Gate(st, ManagedClusterCreated, Some(ManagedClusterImported)) && cfg.Registers() {
          ImportServed(cfg, env, st.hub);
        }
      case _ =>
        if Gate(st, ManagedClusterImported, None) && cfg.enableKlusterlet && !cfg.skipRegistration {
          KlusterletServed(cfg, env, st.hub);
        }
    }
  }

  // The two steps that only look.
  lemma LookServed(cfg: Config, env: Env, st: St, k: nat)
    requires (k == 5 || k == 8) && Stage(cfg, env, st, k).err == None
    ensures AllServed(env, StageCalls(cfg, env, st, k))
  {
    hide OnlyChanges, Conditions.Write, CanExecute, Handled, FirstCluster, AllHealthy, SomeAre, SetupStatuses, Read;
    if k == 5 {
      ReadServed(cfg, env, st.hub, ListForConsole);
    } else {
      ReadServed(cfg, env, st.hub, ListSetupApps);
    }
  }

  lemma LateStageServed(cfg: Config, env: Env, st: St, k: nat)
    requires (k == 6 || k == 7 || k == 9) && Stage(cfg, env, st, k).err == None
    ensures AllServed(env, StageCalls(cfg, env, st, k))
  {
    hide Lifecycle.AddClusterToArgo, AddCalls, CreateDay2, CreateDay2Calls, PublishCredentials, PublishCalls,
      OnlyChanges, Conditions.Write, CanExecute;
    if k == 6 && Gate(st, ManagedClusterImported, Some(ArgoClusterAdded)) {
      AddServed(cfg, env, st);
    } else if k == 7 && Gate(st, ArgoClusterAdded, Some(ClusterSetupCreated)) && cfg.setups != [] {
      SetupServed(cfg, env, st.hub);
    } else if k == 9 && !Is(st, ClusterSetupSucceeded, False) {
      PublishServed(cfg, env, st);
    }
  }

  lemma {:induction false} StagesServed(cfg: Config, env: Env, st: St, k: nat)
    requires k <= STAGE_COUNT && Stages(cfg, env, st, k).err == None
    ensures AllServed(env, StagesCalls(cfg, env, st, k))
    decreases STAGE_COUNT - k
  {
    hide Stage, StageCalls;
    if k < STAGE_COUNT {
      if k < 5 {
        EarlyStageServed(cfg, env, st, k);
      } else if k == 5 || k == 8 {
        LookServed(cfg, env, st, k);
      } else {
        LateStageServed(cfg, env, st, k);
      }
      StagesServed(cfg, env, Stage(cfg, env, st, k).st, k + 1);
    }
  }

  /** A pass that returns nil has had every call it made answered. */
  lemma NilMeansAnswered(cfg: Config, env: Env, s: Stored, w: Server, c: Call)
    requires Pass(cfg, env, s, w).err == None && c in PassCalls(cfg, env, s, w)
    ensures env.reply(c.site).outcome == Served
  {
    hide Stages, StagesCalls, PassStart, Read;
    ReadServed(cfg, env, w, GetTemplate);
    StagesServed(cfg, env, PassStart(cfg, env, s, w), 0);
  }

  // -------- the delete pass --------

  lemma {:induction false} RepeatedServed(cfg: Config, env: Env, w: Server, name: string, copy: AppSet, i: nat,
      count: nat)
    requires i <= count && LeaveRepeatedly(cfg, env, w, name, copy, i, count).1
    ensures AllServed(env, RepeatedCalls(cfg, env, w, name, copy, i, count))
    decreases count - i
  {
    if i < count {
      hide At, Without, Wrote;
      var n := Left(cfg, env, w, name, copy, UpdateSetup(i)).0;
      WroteServed(cfg, env, w, UpdateSetup(i),
        if Takes(cfg, env, w, name, copy, UpdateSetup(i)) then Leave(name) else Nothing);
      RepeatedServed(cfg, env, n, name, n.appSets[name], i + 1, count);
    }
  }

  lemma LeaveDay1Served(cfg: Config, env: Env, w: Server)
    requires LeaveDay1(cfg, env, w).1
    ensures AllServed(env, LeaveDay1Calls(cfg, env, w))
  {
    hide At, Without, Read, Wrote;
    var w1 := Handled(cfg, env, w, GetDefinition);
    ReadServed(cfg, env, w, GetDefinition);
    if cfg.definition in w1.appSets {
      WroteServed(cfg, env, w1, UpdateDefinition,
        if Takes(cfg, env, w1, cfg.definition, w1.appSets[cfg.definition], UpdateDefinition) then Leave(cfg.definition)
        else Nothing);
    }
  }

  lemma LeaveDay2Served(cfg: Config, env: Env, w: Server)
    requires LeaveDay2(cfg, env, w).1
    ensures AllServed(env, LeaveDay2Calls(cfg, env, w))
  {
    hide FetchSetups, FetchCalls, LeaveRepeatedly, RepeatedCalls;
    var f := FetchSetups(cfg, env, w, 0, false, NothingFetched(w));
    FetchServed(cfg, env, w, 0, false, NothingFetched(w));
    if f.last.Some? {
      RepeatedServed(cfg, env, f.hub, f.last.value.0, f.last.value.1, 0, f.count);
    }
  }

  lemma LeaveAppSetsServed(cfg: Config, env: Env, w: Server)
    requires LeaveAppSets(cfg, env, w).1
    ensures AllServed(env, LeaveAppSetsCalls(cfg, env, w))
  {
    hide LeaveDay1, LeaveDay1Calls, LeaveDay2, LeaveDay2Calls;
    LeaveDay2Served(cfg, env, if cfg.secretRef.Some? then w else LeaveDay1(cfg, env, w).0);
    if cfg.secretRef.None? {
      LeaveDay1Served(cfg, env, w);
    }
  }

  lemma {:induction false} DeleteSecretsServed(cfg: Config, env: Env, w: Server, listed: seq<ArgoSecret>, i: nat)
    requires i <= |listed| && DeleteSecrets(cfg, env, w, listed, i).1
    ensures AllServed(env, DeleteSecretsCalls(cfg, env, w, listed, i))
    decreases |listed| - i
  {
    hide At, WithoutSecret, SecretNamed, Wrote;
    if i < |listed| {
      var x, n := DropChange(env, listed, i), Handled(cfg, env, w, DeleteArgoSecret(i));
      WroteServed(cfg, env, w, DeleteArgoSecret(i), x);
      DeleteSecretsServed(cfg, env, n.(argoSecrets := WithoutSecret(n.argoSecrets, listed[i].name)), listed, i + 1);
    }
  }

  lemma LeaveArgoServed(cfg: Config, env: Env, w: Server)
    requires LeaveArgo(cfg, env, w).1
    ensures AllServed(env, LeaveArgoCalls(cfg, env, w))
  {
    hide Handled, DeleteSecrets, DeleteSecretsCalls, MySecrets, Read;
    var w1 := Handled(cfg, env, w, ListArgoSecrets);
    ReadServed(cfg, env, w, ListArgoSecrets);
    DeleteSecretsServed(cfg, env, w1, MySecrets(cfg.Me(), w1.argoSecrets), 0);
  }

  lemma AddonsServed(cfg: Config, env: Env, w: Server, name: string)
    requires DeleteAddons(cfg, env, w, name).1
    ensures AllServed(env, DeleteAddonsCalls(cfg, env, w, name))
  {
    hide At;
  }

  lemma LeaveClusterServed(cfg: Config, env: Env, w: Server)
    requires LeaveCluster(cfg, env, w).1
    ensures AllServed(env, LeaveClusterCalls(cfg, env, w))
  {
    hide Handled, DeleteAddons, DeleteAddonsCalls, FirstCluster, NameTaken, WithoutCluster, Read, Wrote;
    var w1 := Handled(cfg, env, w, ListForDelete);
    var mc := FirstCluster(cfg.Me(), w1.clusters);
    ReadServed(cfg, env, w, ListForDelete);
    if mc.Some? {
      var w2 := DeleteAddons(cfg, env, w1, mc.value.name).0;
      AddonsServed(cfg, env, w1, mc.value.name);
      WroteServed(cfg, env, w2, DeleteCluster, DropClusterChange(cfg, env, w2, mc.value));
    }
  }

  lemma RestServed(cfg: Config, env: Env, w: Server)
    requires LeaveArgo(cfg, env, w).1
    requires cfg.enableManagedCluster ==> LeaveCluster(cfg, env, LeaveArgo(cfg, env, w).0).1
    ensures AllServed(env, RestCalls(cfg, env, w))
  {
    hide LeaveArgo, LeaveArgoCalls, LeaveCluster, LeaveClusterCalls;
    LeaveArgoServed(cfg, env, w);
    if cfg.enableManagedCluster {
      LeaveClusterServed(cfg, env, LeaveArgo(cfg, env, w).0);
    }
  }

  /** A delete pass that lets the finalizer go has found the instance's finalizer to be the
      only one, had every call before that answered, and deleted no managed cluster or argo
      secret that was gone already; the last call was at least carried out. */
  lemma ReleaseMeansAnswered(cfg: Config, env: Env, w: Server, c: Call)
    requires DeletePass(cfg, env, w).1
    ensures env.finalizers == ["clustertemplateinstance.openshift.io/finalizer"]
    ensures !env.reply(RemoveFinalizer).outcome.Refused?
    ensures c in DeletePassCalls(cfg, env, w) && c.site != RemoveFinalizer ==> env.reply(c.site).outcome == Served
    ensures c in DeletePassCalls(cfg, env, w) && c.site == DeleteCluster ==>
        c.change.DropCluster? && NameTaken(c.before.clusters, c.change.cluster.name)
    ensures c in DeletePassCalls(cfg, env, w) && c.site.DeleteArgoSecret? ==>
        c.change.DropArgoSecret? && SecretNamed(c.before.argoSecrets, c.change.secret.name)
  {
    hide Handled, LeaveAppSets, LeaveAppSetsCalls, LeaveArgo, LeaveCluster, RestCalls, Read;
    var w1 := Handled(cfg, env, w, GetTemplate);
    ReadServed(cfg, env, w, GetTemplate);
    ReadServed(cfg, env, Cleanup(cfg, env, w).0, RemoveFinalizer);
    if env.templateFound {
      LeaveAppSetsServed(cfg, env, w1);
    }
    RestServed(cfg, env, if env.templateFound then LeaveAppSets(cfg, env, w1).0 else w1);
  }
}
