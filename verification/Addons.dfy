/** The import secrets and add-on configurations an instance makes over its life: they hang
    on its managed cluster, and go with it. */
module Addons {
  import opened Generators
  import opened Conditions
  import opened Applications
  import opened Hub
  import opened Lifecycle
  import opened Passes
  import opened HubInvariants
  import opened Deletion
  import opened Runs
  import opened Removals

  // -------- what a pass does to them when nobody else acts --------

  predicate SameClusters(w: Server, n: Server) {
    n.clusters == w.clusters && n.importSecrets == w.importSecrets && n.klusterlets == w.klusterlets
  }

  lemma WriteSame(cfg: Config, env: Env, w: Server, name: string, copy: AppSet, gens: seq<Generator>, s: Site)
    requires Undisturbed(env)
    ensures SameClusters(w, WriteAppSet(cfg.Me(), w, name, copy, gens, env.reply(s)).0)
  {}

  lemma JoinSame(cfg: Config, env: Env, w: Server, name: string, copy: AppSet, url: string, isDay2: bool, s: Site)
    requires Undisturbed(env)
    ensures SameClusters(w, JoinAppSet(cfg, env, w, name, copy, url, isDay2, s).0)
  {
    hide WriteAppSet, NewGenerator, HasOwn;
    WriteSame(cfg, env, w, name, copy,
      copy.generators + [NewGenerator(cfg.instance, name, copy.template, url, isDay2)], s);
  }

  lemma DefinitionSame(cfg: Config, env: Env, w: Server)
    requires Undisturbed(env)
    ensures SameClusters(w, CreateDay1(cfg, env, w).0)
  {
    hide JoinAppSet, Handled, Undisturbed;
    Still(cfg, env, w, GetDefinition);
    Still(cfg, env, w, LabelNamespace);
    if cfg.definition in w.appSets {
      JoinSame(cfg, env, w, cfg.definition, w.appSets[cfg.definition], "https://kubernetes.default.svc", false,
        UpdateDefinition);
    }
  }

  lemma {:induction false} FetchStill(cfg: Config, env: Env, w: Server, i: nat, failOnMissing: bool, sofar: Fetched)
    requires Undisturbed(env) && i <= |cfg.setups|
    ensures FetchSetups(cfg, env, w, i, failOnMissing, sofar).hub == w
    decreases |cfg.setups| - i
  {
    hide Handled, Undisturbed;
    if i < |cfg.setups| {
      Still(cfg, env, w, GetSetup(i));
      var name := cfg.setups[i];
      FetchStill(cfg, env, w, i + 1, failOnMissing,
        if name in w.appSets then Fetched(w, true, sofar.count + 1, Some((name, w.appSets[name]))) else sofar);
    }
  }

  lemma SetupSame(cfg: Config, env: Env, w: Server)
    requires Undisturbed(env)
    ensures SameClusters(w, CreateDay2(cfg, env, w).0)
  {
    hide JoinAppSet, Handled, Undisturbed, FetchSetups;
    FetchStill(cfg, env, w, 0, true, NothingFetched(w));
    Still(cfg, env, w, GetKubeconfigForSetup);
    var f := FetchSetups(cfg, env, w, 0, true, NothingFetched(w));
    if f.last.Some? && cfg.Me() in w.kubeconfigs {
      JoinSame(cfg, env, w, f.last.value.0, f.last.value.1, w.kubeconfigs[cfg.Me()], true, UpdateSetup(0));
    }
  }

  lemma CredentialsSame(cfg: Config, env: Env, w: Server, url: string, password: string)
    requires Undisturbed(env)
    ensures SameClusters(w, CreateClusterSecrets(cfg, env, w, url, password).0)
  {
    hide Rely;
  }

  lemma DeploymentSame(cfg: Config, env: Env, w: Server)
    requires Undisturbed(env)
    ensures SameClusters(w, DeploymentSecrets(cfg, env, w).0)
  {
    hide Handled, CreateClusterSecrets, Undisturbed;
    Still(cfg, env, w, GetProviderKubeconfig);
    Still(cfg, env, w, GetProviderPassword);
    if env.provider.kubeconfig.Some? && env.provider.password.Some? {
      CredentialsSame(cfg, env, w, env.provider.kubeconfig.value, env.provider.password.value);
    }
  }

  lemma HostedSame(cfg: Config, env: Env, p: Provider, w: Server)
    requires Undisturbed(env) && p.HostedProvider?
    ensures SameClusters(w, HostedStatus(cfg, env, p, w).0)
  {
    hide Handled, CreateClusterSecrets, Undisturbed, LastIsTrue, PoolsReady;
    forall s ensures Handled(cfg, env, w, s) == w {
      Still(cfg, env, w, s);
    }
    var v := env.provider;
    if v.kubeconfig.Some? {
      var password := if v.hosted.idps || v.password.None? then "" else v.password.value;
      CredentialsSame(cfg, env, w, v.kubeconfig.value, password);
      Still(cfg, env, CreateClusterSecrets(cfg, env, w, v.kubeconfig.value, password).0, ListNodePools);
    }
  }

  lemma ProviderSame(cfg: Config, env: Env, p: Provider, w: Server)
    requires Undisturbed(env)
    ensures SameClusters(w, GetClusterStatus(cfg, env, p, w).0)
  {
    hide Handled, HostedStatus, DeploymentSecrets, Undisturbed, FirstIsTrue;
    Still(cfg, env, w, GetProviderObject);
    Still(cfg, env, w, GetClaimedDeployment);
    DeploymentSame(cfg, env, w);
    if p.HostedProvider? {
      HostedSame(cfg, env, p, w);
    }
  }

  lemma InstallSame(cfg: Config, env: Env, st: St)
    requires Undisturbed(env)
    ensures SameClusters(st.hub, ReconcileClusterStatus(cfg, env, st).st.hub)
  {
    hide Handled, GetClusterStatus, Undisturbed, Detect, Classify, OnlyChanges;
    Still(cfg, env, st.hub, ListDay1);
    if env.day1 != [] {
      var p := Detect(env.day1[0].resources, env.day1[0].resources);
      if p.Some? {
        ProviderSame(cfg, env, p.value, st.hub);
      }
    }
  }

  lemma ArgoSame(cfg: Config, env: Env, st: St)
    requires Undisturbed(env)
    ensures SameClusters(st.hub, AddClusterToArgo(cfg, env, st).st.hub)
  {
    hide Handled, FirstCluster, Undisturbed, SecretNamed, ArgoSecretName;
    forall s ensures Handled(cfg, env, st.hub, s) == st.hub {
      Still(cfg, env, st.hub, s);
    }
  }

  lemma FirstSame(cfg: Config, env: Env, st: St)
    requires Undisturbed(env)
    ensures SameClusters(st.hub, Stage(cfg, env, st, 0).st.hub)
  {
    hide Handled, CreateDay1, CreateClusterSecrets, Undisturbed, OnlyChanges;
    DefinitionSame(cfg, env, st.hub);
    Still(cfg, env, st.hub, GetSecretRef);
    if env.secretRefData.Some? {
      CredentialsSame(cfg, env, st.hub, env.secretRefData.value.0, env.secretRefData.value.1);
    }
  }

  lemma LaterSame(cfg: Config, env: Env, st: St, k: nat)
    requires Undisturbed(env) && k in {1, 5, 6, 7, 8, 9}
    ensures SameClusters(st.hub, Stage(cfg, env, st, k).st.hub)
  {
    hide Handled, ReconcileClusterStatus, AddClusterToArgo, CreateDay2, Undisturbed, OnlyChanges, FirstCluster,
      AllHealthy,
      SomeAre, SetupStatuses, AddSecrets, CanExecute;
    forall s ensures Handled(cfg, env, st.hub, s) == st.hub {
      Still(cfg, env, st.hub, s);
    }
    match k
    case 1 => InstallSame(cfg, env, st);
    case 6 => ArgoSame(cfg, env, st);
    case 7 => SetupSame(cfg, env, st.hub);
    case _ =>
  }

  // -------- what they hang on --------

  // The instance has a managed cluster of that name.
  ghost predicate Mine(cfg: Config, w: Server, name: string) {
    exists mc :: mc in MyClusters(cfg.Me(), w.clusters) && mc.name == name
  }

  // What there is of them, beyond what there was, hangs on the instance's cluster; and only
  // an instance that registers has one.
  ghost predicate Hang(cfg: Config, base: Server, w: Server) {
    && (forall x | x in w.importSecrets :: x in base.importSecrets || (cfg.Registers() && Mine(cfg, w, x)))
    && (forall x | x in w.klusterlets ::
        x in base.klusterlets || (cfg.enableKlusterlet && cfg.Registers() && Mine(cfg, w, x)))
    && (MyClusters(cfg.Me(), w.clusters) != [] ==> cfg.Registers())
  }

  lemma SameHang(cfg: Config, base: Server, w: Server, n: Server)
    requires Hang(cfg, base, w) && SameClusters(w, n)
    ensures Hang(cfg, base, n)
  {
    hide MyClusters;
    assert forall x :: Mine(cfg, n, x) <==> Mine(cfg, w, x);
  }

  lemma RegistrationHangs(cfg: Config, env: Env, base: Server, st: St)
    requires Undisturbed(env) && Hang(cfg, base, st.hub)
    ensures Hang(cfg, base, ReconcileCreateManagedCluster(cfg, env, st).st.hub)
  {
    hide Handled, FirstCluster, Undisturbed, MyClusters, ClusterLabels, NameTaken, OnlyChanges, CanExecute;
    var w, mc := st.hub, ManagedCluster("cluster-" + env.newSuffix, ClusterLabels(cfg));
    forall s ensures Handled(cfg, env, w, s) == w
      && Handled(cfg, env, w.(clusters := w.clusters + [mc]), s) == w.(clusters := w.clusters + [mc]) {
      Still(cfg, env, w, s);
      Still(cfg, env, w.(clusters := w.clusters + [mc]), s);
    }
    MyClustersAppend(cfg.Me(), w.clusters, [mc]);
    assert forall x :: Mine(cfg, w, x) ==> Mine(cfg, w.(clusters := w.clusters + [mc]), x);
  }

  lemma FoundIsMine(cfg: Config, w: Server)
    ensures FirstCluster(cfg.Me(), w.clusters).Some? ==> Mine(cfg, w, FirstCluster(cfg.Me(), w.clusters).value.name)
    ensures FirstCluster(cfg.Me(), w.clusters).Some? ==> MyClusters(cfg.Me(), w.clusters) != []
  {
    if FirstCluster(cfg.Me(), w.clusters).Some? {
      assert FirstCluster(cfg.Me(), w.clusters).value in MyClusters(cfg.Me(), w.clusters);
    }
  }

  // The two steps that make them.
  lemma ImportHangs(cfg: Config, env: Env, base: Server, st: St)
    requires Undisturbed(env) && Hang(cfg, base, st.hub)
    ensures Hang(cfg, base, Stage(cfg, env, st, 3).st.hub)
  {
    hide Handled, FirstCluster, Undisturbed, MyClusters, OnlyChanges, CanExecute, LastIsTrue;
    forall s ensures Handled(cfg, env, st.hub, s) == st.hub {
      Still(cfg, env, st.hub, s);
    }
    FoundIsMine(cfg, st.hub);
    assert forall w: Server, x | w.clusters == st.hub.clusters :: Mine(cfg, w, x) <==> Mine(cfg, st.hub, x);
  }

  lemma KlusterletHangs(cfg: Config, env: Env, base: Server, st: St)
    requires Undisturbed(env) && Hang(cfg, base, st.hub)
    ensures Hang(cfg, base, Stage(cfg, env, st, 4).st.hub)
  {
    hide Handled, FirstCluster, Undisturbed, MyClusters, OnlyChanges, CanExecute;
    forall s ensures Handled(cfg, env, st.hub, s) == st.hub {
      Still(cfg, env, st.hub, s);
    }
    FoundIsMine(cfg, st.hub);
    assert forall w: Server, x | w.clusters == st.hub.clusters :: Mine(cfg, w, x) <==> Mine(cfg, st.hub, x);
  }

  lemma StageHangs(cfg: Config, env: Env, base: Server, st: St, k: nat)
    requires Undisturbed(env) && Hang(cfg, base, st.hub) && k < STAGE_COUNT
    ensures Hang(cfg, base, Stage(cfg, env, st, k).st.hub)
  {
    hide Undisturbed, Hang, ReconcileCreateManagedCluster, SameClusters;
    if k == 2 {
      hide Stage;
      RegistrationHangs(cfg, env, base, st);
      RegistrationHub(cfg, env, st);
    } else if k == 3 || k == 4 {
      hide Stage;
      ImportHangs(cfg, env, base, st);
      KlusterletHangs(cfg, env, base, st);
    } else {
      hide Stage;
      if k == 0 {
        FirstSame(cfg, env, st);
      } else {
        LaterSame(cfg, env, st, k);
      }
      SameHang(cfg, base, st.hub, Stage(cfg, env, st, k).st.hub);
    }
  }

  lemma RegistrationHub(cfg: Config, env: Env, st: St)
    ensures Stage(cfg, env, st, 2).st.hub == ReconcileCreateManagedCluster(cfg, env, st).st.hub
  {
    hide ReconcileCreateManagedCluster;
  }

  lemma {:induction false} StagesHang(cfg: Config, env: Env, base: Server, st: St, k: nat)
    requires Undisturbed(env) && Hang(cfg, base, st.hub) && k <= STAGE_COUNT
    ensures Hang(cfg, base, Stages(cfg, env, st, k).st.hub)
    decreases STAGE_COUNT - k
  {
    hide Undisturbed, Hang, Stage;
    if k < STAGE_COUNT {
      StageHangs(cfg, env, base, st, k);
      if Stage(cfg, env, st, k).err == None {
        StagesHang(cfg, env, base, Stage(cfg, env, st, k).st, k + 1);
      }
    }
  }

  lemma PassHangs(cfg: Config, env: Env, base: Server, s: Stored, w: Server)
    requires Undisturbed(env) && Hang(cfg, base, w)
    ensures Hang(cfg, base, Pass(cfg, env, s, w).st.hub)
  {
    hide Undisturbed, Hang, Stages, Handled;
    Still(cfg, env, w, GetTemplate);
    StagesHang(cfg, env, base, PassStart(cfg, env, s, w), 0);
  }

  // -------- deletion, whether it gets to the end or not --------

  lemma {:induction false} RepeatSame(cfg: Config, env: Env, w: Server, name: string, copy: AppSet, i: nat, count: nat)
    requires Undisturbed(env) && i <= count
    ensures SameClusters(w, LeaveRepeatedly(cfg, env, w, name, copy, i, count).0)
    decreases count - i
  {
    hide WriteAppSet, Without, Undisturbed;
    if i < count {
      WriteSame(cfg, env, w, name, copy, Without(cfg.Me(), copy.generators), UpdateSetup(i));
      var (n, ok) := WriteAppSet(cfg.Me(), w, name, copy, Without(cfg.Me(), copy.generators),
        env.reply(UpdateSetup(i)));
      if ok && name in n.appSets {
        RepeatSame(cfg, env, n, name, n.appSets[name], i + 1, count);
      }
    }
  }

  lemma SetsSame(cfg: Config, env: Env, w: Server)
    requires Undisturbed(env)
    ensures SameClusters(w, LeaveAppSets(cfg, env, w).0)
  {
    hide Handled, Without, WriteAppSet, FetchSetups, LeaveRepeatedly, Undisturbed;
    Still(cfg, env, w, GetDefinition);
    if cfg.definition in w.appSets {
      var copy := w.appSets[cfg.definition];
      WriteSame(cfg, env, w, cfg.definition, copy, Without(cfg.Me(), copy.generators), UpdateDefinition);
    }
    var a := if cfg.secretRef.Some? then w else LeaveDay1(cfg, env, w).0;
    FetchStill(cfg, env, a, 0, false, NothingFetched(a));
    var f := FetchSetups(cfg, env, a, 0, false, NothingFetched(a));
    if f.last.Some? {
      RepeatSame(cfg, env, a, f.last.value.0, f.last.value.1, 0, f.count);
    }
  }

  lemma {:induction false} SecretsSame(cfg: Config, env: Env, w: Server, listed: seq<ArgoSecret>, i: nat)
    requires Undisturbed(env) && i <= |listed|
    ensures SameClusters(w, DeleteSecrets(cfg, env, w, listed, i).0)
    decreases |listed| - i
  {
    hide Handled, WithoutSecret, SecretNamed, Undisturbed;
    if i < |listed| {
      Still(cfg, env, w, DeleteArgoSecret(i));
      SecretsSame(cfg, env, w.(argoSecrets := WithoutSecret(w.argoSecrets, listed[i].name)), listed, i + 1);
    }
  }

  // Taking some of them away does no harm while the cluster is there.
  lemma FewerHang(cfg: Config, base: Server, w: Server, n: Server)
    requires Hang(cfg, base, w) && n.clusters == w.clusters
    requires n.importSecrets <= w.importSecrets && n.klusterlets <= w.klusterlets
    ensures Hang(cfg, base, n)
  {
    hide MyClusters;
    assert forall x :: Mine(cfg, n, x) <==> Mine(cfg, w, x);
  }

  // Nor does taking the cluster away once they are gone.
  lemma ClusterTakenHangs(cfg: Config, base: Server, w: Server, name: string)
    requires Hang(cfg, base, w) && name !in w.importSecrets && (cfg.enableKlusterlet ==> name !in w.klusterlets)
    ensures Hang(cfg, base, w.(clusters := WithoutCluster(w.clusters, name)))
  {
    var n := w.(clusters := WithoutCluster(w.clusters, name));
    MineMembers(cfg.Me(), [], w.clusters);
    MineMembers(cfg.Me(), [], n.clusters);
    forall x: ManagedCluster ensures x in n.clusters <==> x in w.clusters && x.name != name {
      ClusterMembers(w.clusters, name, x);
    }
    hide MyClusters, MySecrets, WithoutCluster, Matches;
    assert forall x | x != name :: Mine(cfg, w, x) ==> Mine(cfg, n, x);
    if MyClusters(cfg.Me(), n.clusters) != [] {
      assert MyClusters(cfg.Me(), n.clusters)[0] in MyClusters(cfg.Me(), w.clusters);
    }
  }

  lemma AddonsHang(cfg: Config, env: Env, base: Server, w: Server, name: string)
    requires Undisturbed(env) && Hang(cfg, base, w)
    ensures var r := DeleteAddons(cfg, env, w, name);
      && Hang(cfg, base, r.0) && r.0.clusters == w.clusters
      && (r.1 ==> name !in r.0.importSecrets && (cfg.enableKlusterlet ==> name !in r.0.klusterlets))
  {
    hide Handled, Hang, Undisturbed;
    Still(cfg, env, w, DeleteKlusterlet);
    Still(cfg, env, w, DeleteImportSecret);
    Still(cfg, env, w.(klusterlets := w.klusterlets - {name}), DeleteImportSecret);
    FewerHang(cfg, base, w, DeleteAddons(cfg, env, w, name).0);
  }

  lemma ClusterHangs(cfg: Config, env: Env, base: Server, w: Server)
    requires Undisturbed(env) && Hang(cfg, base, w)
    ensures Hang(cfg, base, LeaveCluster(cfg, env, w).0)
  {
    hide Handled, Hang, Undisturbed, FirstCluster, DeleteAddons, WithoutCluster, NameTaken;
    Still(cfg, env, w, ListForDelete);
    var mc := FirstCluster(cfg.Me(), w.clusters);
    if mc.Some? {
      AddonsHang(cfg, env, base, w, mc.value.name);
      var a := DeleteAddons(cfg, env, w, mc.value.name);
      Still(cfg, env, a.0, DeleteCluster);
      if a.1 {
        ClusterTakenHangs(cfg, base, a.0, mc.value.name);
      }
    }
  }

  lemma DeletionHangs(cfg: Config, env: Env, base: Server, w: Server)
    requires Undisturbed(env) && Hang(cfg, base, w)
    ensures Hang(cfg, base, DeletePass(cfg, env, w).0)
  {
    hide Handled, Hang, Undisturbed, LeaveAppSets, DeleteSecrets, LeaveCluster, SameClusters, MySecrets;
    Still(cfg, env, w, GetTemplate);
    SetsSame(cfg, env, w);
    var w2 := if env.templateFound then LeaveAppSets(cfg, env, w).0 else w;
    SameHang(cfg, base, w, LeaveAppSets(cfg, env, w).0);
    Still(cfg, env, w2, ListArgoSecrets);
    SecretsSame(cfg, env, w2, MySecrets(cfg.Me(), w2.argoSecrets), 0);
    var w3 := LeaveArgo(cfg, env, w2).0;
    SameHang(cfg, base, w2, DeleteSecrets(cfg, env, w2, MySecrets(cfg.Me(), w2.argoSecrets), 0).0);
    ClusterHangs(cfg, env, base, w3);
    Still(cfg, env, Cleanup(cfg, env, w).0, RemoveFinalizer);
  }

  // -------- over a life --------

  // Whatever others do in between, they leave import secrets, add-on configurations and the
  // instance's own cluster alone, and they do not interfere with a pass.
  ghost predicate Aloof(cfg: Config, l: Life, e: Event) {
    match e
    case Others(n) =>
      && n.importSecrets == l.hub.importSecrets && n.klusterlets == l.hub.klusterlets
      && MyClusters(cfg.Me(), n.clusters) == MyClusters(cfg.Me(), l.hub.clusters)
    case Reconcile(env, _) => Undisturbed(env)
    case _ => true
  }

  ghost predicate AloofRun(cfg: Config, l: Life, events: seq<Event>)
    decreases |events|
  {
    events == [] || (Aloof(cfg, l, events[0]) && AloofRun(cfg, Step(cfg, l, events[0]), events[1..]))
  }

  lemma StepHangs(cfg: Config, base: Server, l: Life, e: Event)
    requires Hang(cfg, base, l.hub) && Aloof(cfg, l, e)
    ensures Hang(cfg, base, Step(cfg, l, e).hub)
  {
    match e
    case Others(n) =>
      assert forall x :: Mine(cfg, n, x) <==> Mine(cfg, l.hub, x);
      hide Rely, MyClusters;
    case Reconcile(env, _) =>
      hide Pass, DeletePass, Hang, Undisturbed;
      if l.deleting {
        DeletionHangs(cfg, env, base, l.hub);
      } else {
        PassHangs(cfg, env, base, l.stored, l.hub);
      }
    case _ =>
  }

  lemma {:induction false} RunHangs(cfg: Config, base: Server, l: Life, events: seq<Event>)
    requires Hang(cfg, base, l.hub) && AloofRun(cfg, l, events)
    ensures Hang(cfg, base, Run(cfg, l, events).hub)
    decreases |events|
  {
    hide Hang, Aloof, Step;
    if events != [] {
      StepHangs(cfg, base, l, events[0]);
      RunHangs(cfg, base, Step(cfg, l, events[0]), events[1..]);
    }
  }

  /** In every life with which nobody else interferes, whatever fails, is lost or crashes: an
      import secret or add-on configuration that was not there before is that of the
      instance's managed cluster, and once the instance is released there is none. */
  lemma NoAddonIsLeft(cfg: Config, born: Life, events: seq<Event>)
    requires Newborn(cfg, born) && AloofRun(cfg, born, events)
    ensures var l := Run(cfg, born, events);
      && (forall x | x in l.hub.importSecrets && x !in born.hub.importSecrets :: Mine(cfg, l.hub, x))
      && (forall x | x in l.hub.klusterlets && x !in born.hub.klusterlets :: Mine(cfg, l.hub, x))
      && (l.end.Released? ==>
            l.hub.importSecrets <= born.hub.importSecrets && l.hub.klusterlets <= born.hub.klusterlets)
  {
    NewbornInv(cfg, born);
    RunKeeps(cfg, born, events);
    RunHangs(cfg, born.hub, born, events);
    hide Run, AloofRun, StoredInv, StoredBacked, HubInv, AllGone;
  }
}
