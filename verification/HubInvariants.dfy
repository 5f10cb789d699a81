/** What one instance's passes do to the shared server, whatever the others do between
    any two of its calls. */
module HubInvariants {
  import opened Generators
  import opened Conditions
  import opened Applications
  import opened Hub
  import opened Lifecycle
  import opened Passes
  import opened Calls

  /** The invariant of the instance's own objects: its generators, managed clusters and
      credentials. Every single write of a pass keeps it, and so does whatever the others
      may do; the operations and passes follow, as lists of such writes. */
  ghost predicate HubInv(cfg: Config, w: Server) {
    && ServerOk(w)
    && (forall m | m in w.appSets :: |Own(cfg.Me(), w.appSets[m].generators)| <= 1)
    && (forall m | m in w.appSets && HasOwn(cfg.Me(), w.appSets[m].generators) :: Target(cfg, m))
    && |MyClusters(cfg.Me(), w.clusters)| <= 1
    && AllPrefixed(MyClusters(cfg.Me(), w.clusters))
  }

  // A cluster made for the instance will carry its labels.
  predicate CanRegister(cfg: Config) {
    cfg.Registers() && Matches(cfg.Me(), ClusterLabels(cfg))
  }

  // What of the instance's own objects a reconcile pass never takes away or changes.
  ghost predicate Grows(cfg: Config, w: Server, n: Server) {
    && (cfg.Me() in w.kubeconfigs ==> cfg.Me() in n.kubeconfigs && n.kubeconfigs[cfg.Me()] == w.kubeconfigs[cfg.Me()])
    && (cfg.Me() in w.passwords ==> cfg.Me() in n.passwords && n.passwords[cfg.Me()] == w.passwords[cfg.Me()])
    && (CanRegister(cfg) || Thins(MyClusters(cfg.Me(), w.clusters), MyClusters(cfg.Me(), n.clusters)))
    && MySecrets(cfg.Me(), w.argoSecrets) <= MySecrets(cfg.Me(), n.argoSecrets)
  }

  ghost predicate Evolves(cfg: Config, w: Server, n: Server) {
    HubInv(cfg, w) ==> HubInv(cfg, n) && Grows(cfg, w, n)
  }

  lemma RelyEvolves(cfg: Config, w: Server, n: Server)
    requires Rely(cfg.Me(), w, n)
    ensures Evolves(cfg, w, n)
  {
    if HubInv(cfg, w) {
      PrefixedStay(MyClusters(cfg.Me(), w.clusters), MyClusters(cfg.Me(), n.clusters));
      forall m | m in n.appSets
        ensures |Own(cfg.Me(), n.appSets[m].generators)| <= 1
        ensures HasOwn(cfg.Me(), n.appSets[m].generators) ==> Target(cfg, m)
      {
        assert Own(cfg.Me(), n.appSets[m].generators) == [] ||
          (m in w.appSets && Own(cfg.Me(), n.appSets[m].generators) == Own(cfg.Me(), w.appSets[m].generators));
      }
    }
  }

  lemma HandledEvolves(cfg: Config, env: Env, w: Server, s: Site)
    ensures Evolves(cfg, w, Handled(cfg, env, w, s))
  {
    var n := Handled(cfg, env, w, s);
    if n != w {
      RelyEvolves(cfg, w, n);
    }
  }

  lemma Chained(cfg: Config, a: Server, b: Server, c: Server)
    requires Evolves(cfg, a, b) && Evolves(cfg, b, c)
    ensures Evolves(cfg, a, c)
  {}

  // -------- one write --------

  lemma JoinedOwnsOne(k: Key, gens: seq<Generator>, g: Generator)
    requires !HasOwn(k, gens) && Owns(k, g)
    ensures |Own(k, gens + [g])| == 1
  {
    OwnAppend(k, gens, [g]);
    assert Own(k, gens) == [] && Own(k, [g]) == [g];
  }

  lemma JoinEvolves(cfg: Config, may: Powers, w: Server, name: string, g: Generator)
    requires HubInv(cfg, w) && Legal(cfg, may, w, Join(name, g))
    ensures Evolves(cfg, w, Apply(cfg, w, Join(name, g)))
  {
    JoinedOwnsOne(cfg.Me(), w.appSets[name].generators, g);
    hide Target, Own, HasOwn, MyClusters, MySecrets, DistinctClusters, DistinctSecrets, AllPrefixed, ClusterLabels;
  }

  lemma FirstOfMine(me: Key, cs: seq<ManagedCluster>, mc: ManagedCluster)
    requires AllPrefixed(MyClusters(me, cs)) && FirstCluster(me, cs) == None && HasClusterPrefix(mc.name)
    ensures MyClusters(me, cs) == []
    ensures MyClusters(me, cs + [mc]) == if Matches(me, mc.labels) then [mc] else []
    ensures AllPrefixed(MyClusters(me, cs + [mc]))
  {
    FirstClusterIsHead(me, cs);
    MyClustersAppend(me, cs, [mc]);
    assert MyClusters(me, [mc]) == if Matches(me, mc.labels) then [mc] else [];
  }

  lemma NewClusterEvolves(cfg: Config, may: Powers, w: Server, name: string)
    requires HubInv(cfg, w) && Legal(cfg, may, w, NewCluster(name))
    ensures Evolves(cfg, w, Apply(cfg, w, NewCluster(name)))
  {
    FirstOfMine(cfg.Me(), w.clusters, ManagedCluster(name, ClusterLabels(cfg)));
    ChangeKeepsServer(cfg, may, w, NewCluster(name));
    hide Target, Own, HasOwn, MyClusters, MySecrets, ServerOk, ClusterLabels, FirstCluster, AllPrefixed, Matches,
      HasClusterPrefix;
  }

  lemma NewSecretEvolves(cfg: Config, may: Powers, w: Server, name: string)
    requires HubInv(cfg, w) && Legal(cfg, may, w, NewArgoSecret(name))
    ensures Evolves(cfg, w, Apply(cfg, w, NewArgoSecret(name)))
  {
    ChangeKeepsServer(cfg, may, w, NewArgoSecret(name));
    MySecretsAppend(cfg.Me(), w.argoSecrets, [ArgoSecret(name, Some(cfg.Me()))]);
    hide Target, Own, HasOwn, MyClusters, MySecrets, DistinctClusters, DistinctSecrets, ClusterLabels, AllPrefixed;
  }

  // Whatever a pass may write keeps the invariant and takes nothing away.
  lemma ChangeEvolves(cfg: Config, may: Powers, w: Server, x: Change)
    requires may.Passing? && Legal(cfg, may, w, x)
    ensures Evolves(cfg, w, Apply(cfg, w, x))
  {
    if HubInv(cfg, w) {
      match x {
        case Join(name, g) => JoinEvolves(cfg, may, w, name, g);
        case NewCluster(name) => NewClusterEvolves(cfg, may, w, name);
        case NewArgoSecret(name) => NewSecretEvolves(cfg, may, w, name);
        case _ =>
      }
    }
    hide Target, Own, HasOwn, MyClusters, MySecrets, DistinctClusters, DistinctSecrets, ClusterLabels, AllPrefixed,
      FirstCluster;
  }

  lemma {:induction false} TraceEvolves(cfg: Config, may: Powers, w: Server, calls: seq<Call>, n: Server)
    requires may.Passing? && Trace(cfg, may, w, calls, n)
    ensures Evolves(cfg, w, n)
    decreases |calls|
  {
    hide Evolves, Rely, Legal, Apply;
    if calls == [] {
      SameEvolves(cfg, w);
    } else {
      var b := calls[0].before;
      var m := Apply(cfg, b, calls[0].change);
      RelyEvolves(cfg, w, b);
      ChangeEvolves(cfg, may, b, calls[0].change);
      TraceEvolves(cfg, may, m, calls[1..], n);
      Chained(cfg, w, b, m);
      Chained(cfg, w, m, n);
    }
  }

  lemma SameEvolves(cfg: Config, w: Server)
    ensures Evolves(cfg, w, w)
  {}

  lemma LeadsEvolve(cfg: Config, may: Powers, w: Server, calls: seq<Call>, n: Server)
    requires may.Passing? && (ServerOk(w) ==> Leads(cfg, may, w, calls, n))
    ensures Evolves(cfg, w, n)
  {
    if ServerOk(w) {
      TraceEvolves(cfg, may, w, calls, n);
    }
    hide Trace, ServerOk;
  }

  // -------- operations --------

  /** CreateClusterSecrets never overwrites the instance's kubeconfig or password secret
      (Evolves keeps both), and succeeds only with the kubeconfig secret in place. */
  lemma CreateClusterSecretsEvolves(cfg: Config, env: Env, w: Server, url: string, password: string)
    ensures Evolves(cfg, w, CreateClusterSecrets(cfg, env, w, url, password).0)
    ensures CreateClusterSecrets(cfg, env, w, url, password).1 ==>
              cfg.Me() in CreateClusterSecrets(cfg, env, w, url, password).0.kubeconfigs
  {
    if ServerOk(w) {
      SecretsLead(cfg, env, w, url, password);
    }
    LeadsEvolve(cfg, PLAIN, w, SecretsCalls(cfg, env, w, url, password),
      CreateClusterSecrets(cfg, env, w, url, password).0);
    PasswordKeepsKubeconfig(cfg, env, CreateKubeconfig(cfg, env, w, url).0, password);
    hide Evolves, Leads, ServerOk, SecretsCalls, At, CreatePassword;
  }

  lemma PasswordKeepsKubeconfig(cfg: Config, env: Env, w: Server, password: string)
    ensures cfg.Me() in w.kubeconfigs ==> cfg.Me() in CreatePassword(cfg, env, w, password).0.kubeconfigs
  {
    hide Own, MyClusters, MySecrets, ServerOk;
  }

  // A readiness report of a provider, and the kubeconfig secret behind a positive one.
  ghost predicate Reports(cfg: Config, w: Server, r: (Server, Readiness)) {
    Evolves(cfg, w, r.0) && (r.1 == IsReady ==> cfg.Me() in r.0.kubeconfigs)
  }

  lemma WithSecretsPlaces(cfg: Config, env: Env, w: Server, url: string, password: string)
    ensures WithSecrets(cfg, env, w, url, password).1 == IsReady ==>
      cfg.Me() in WithSecrets(cfg, env, w, url, password).0.kubeconfigs
  {
    hide Evolves, CreateClusterSecrets;
    CreateClusterSecretsEvolves(cfg, env, w, url, password);
  }

  lemma DeploymentSecretsPlace(cfg: Config, env: Env, w: Server)
    ensures DeploymentSecrets(cfg, env, w).1 == IsReady ==> cfg.Me() in DeploymentSecrets(cfg, env, w).0.kubeconfigs
  {
    var v := env.provider;
    var w2 := Handled(cfg, env, Handled(cfg, env, w, GetProviderKubeconfig), GetProviderPassword);
    if v.kubeconfig.Some? && v.password.Some? {
      WithSecretsPlaces(cfg, env, w2, v.kubeconfig.value, v.password.value);
    }
    hide Handled, WithSecrets;
  }

  lemma HostedPoolsKeep(cfg: Config, env: Env, p: Provider, w: Server)
    requires p.HostedProvider? && cfg.Me() in w.kubeconfigs
    ensures cfg.Me() in HostedPools(cfg, env, p, w).0.kubeconfigs
  {
    hide Own, MyClusters, MySecrets, ServerOk, PoolsReady;
  }

  lemma HostedPlaces(cfg: Config, env: Env, p: Provider, w: Server)
    requires p.HostedProvider?
    ensures HostedStatus(cfg, env, p, w).1 == IsReady ==> cfg.Me() in HostedStatus(cfg, env, p, w).0.kubeconfigs
  {
    var hc := env.provider.hosted;
    var w2 := Handled(cfg, env, Handled(cfg, env, w, GetProviderObject), GetProviderKubeconfig);
    var w3 := if hc.idps then w2 else Handled(cfg, env, w2, GetProviderPassword);
    if env.provider.kubeconfig.Some? && (hc.idps || env.provider.password.Some?) {
      var url, password := env.provider.kubeconfig.value, if hc.idps then "" else env.provider.password.value;
      var r := WithSecrets(cfg, env, w3, url, password);
      WithSecretsPlaces(cfg, env, w3, url, password);
      if r.1 == IsReady {
        HostedPoolsKeep(cfg, env, p, r.0);
      }
    }
    hide Handled, WithSecrets, HostedPools, LastIsTrue;
  }

  /** Whichever of the three providers reports the cluster ready, the instance's
      kubeconfig secret exists. */
  lemma ReadyMeansKubeconfig(cfg: Config, env: Env, p: Provider, w: Server)
    ensures Reports(cfg, w, GetClusterStatus(cfg, env, p, w))
  {
    if ServerOk(w) {
      ProviderLeads(cfg, env, p, w);
    }
    LeadsEvolve(cfg, PLAIN, w, ProviderCalls(cfg, env, p, w), GetClusterStatus(cfg, env, p, w).0);
    DeploymentSecretsPlace(cfg, env, Handled(cfg, env, w, GetProviderObject));
    DeploymentSecretsPlace(cfg, env, Handled(cfg, env, Handled(cfg, env, w, GetProviderObject), GetClaimedDeployment));
    if p.HostedProvider? {
      HostedPlaces(cfg, env, p, w);
    }
    hide Evolves, Leads, ServerOk, ProviderCalls, Handled, HostedStatus, DeploymentSecrets;
  }

  /** A registration never makes a second managed cluster of the instance. */
  lemma CreateManagedClusterEvolves(cfg: Config, env: Env, w: Server)
    requires cfg.Registers()
    ensures Evolves(cfg, w, CreateManagedCluster(cfg, env, w).0)
  {
    if ServerOk(w) {
      ClusterLeads(cfg, env, w);
    }
    hide Evolves, Leads, ServerOk, ClusterCalls, CreateManagedCluster;
    LeadsEvolve(cfg, REGISTERING, w, ClusterCalls(cfg, env, w), CreateManagedCluster(cfg, env, w).0);
  }

  /** Whatever is found, the object all entries share is a set named in `setups`, and when
      no missing set is tolerated it is the last one of the list. */
  lemma FetchSetupsEvolves(cfg: Config, env: Env, w: Server, failOnMissing: bool)
    ensures var f := FetchSetups(cfg, env, w, 0, failOnMissing, NothingFetched(w));
      && Evolves(cfg, w, f.hub)
      && (f.last.Some? ==> f.last.value.0 in cfg.setups)
      && (f.ok && failOnMissing && cfg.setups != [] ==> f.last.Some? && f.last.value.0 == cfg.setups[|cfg.setups| - 1])
  {
    if ServerOk(w) {
      FetchLeads(cfg, env, PLAIN, w, 0, failOnMissing, NothingFetched(w));
    }
    FetchedIsNamed(cfg, env, w, 0, failOnMissing, NothingFetched(w));
    hide Evolves, Leads, ServerOk, FetchCalls, FetchSetups;
    LeadsEvolve(cfg, PLAIN, w, FetchCalls(cfg, env, w, 0, failOnMissing),
      FetchSetups(cfg, env, w, 0, failOnMissing, NothingFetched(w)).hub);
  }

  lemma {:induction false} FetchedIsNamed(cfg: Config, env: Env, w: Server, i: nat, failOnMissing: bool, sofar: Fetched)
    requires i <= |cfg.setups| && (sofar.last.Some? ==> sofar.last.value.0 in cfg.setups)
    ensures var f := FetchSetups(cfg, env, w, i, failOnMissing, sofar);
      && (f.last.Some? ==> f.last.value.0 in cfg.setups)
      && (f.ok && failOnMissing && i < |cfg.setups| ==> f.last.Some? && f.last.value.0 == cfg.setups[|cfg.setups| - 1])
    decreases |cfg.setups| - i
  {
    hide Handled;
    if i < |cfg.setups| {
      var w1 := Handled(cfg, env, w, GetSetup(i));
      var name := cfg.setups[i];
      FetchedIsNamed(cfg, env, w1, i + 1, failOnMissing,
        if name in w1.appSets then Fetched(w1, true, sofar.count + 1, Some((name, w1.appSets[name]))) else sofar);
    }
  }

  // -------- the steps of a pass --------

  // What the recorded conditions promise about the server.
  ghost predicate Backed(cfg: Config, st: St) {
    !cfg.experimental && (On(st, ClusterInstallSucceeded) || On(st, ManagedClusterCreated)) ==>
        cfg.Me() in st.hub.kubeconfigs
  }

  lemma StageEvolves(cfg: Config, env: Env, st: St, k: nat)
    requires k < STAGE_COUNT
    ensures Evolves(cfg, st.hub, Stage(cfg, env, st, k).st.hub)
  {
    if ServerOk(st.hub) {
      StageLeads(cfg, env, st, k);
    }
    hide Stage, StageCalls, Evolves, Leads, ServerOk;
    LeadsEvolve(cfg, PowersAt(st, k), st.hub, StageCalls(cfg, env, st, k), Stage(cfg, env, st, k).st.hub);
  }

  // What a condition that step k turns on is backed by.
  ghost predicate StepPlaces(cfg: Config, a: St, b: St, k: nat) {
    && (k <= 1 && On(b, ClusterInstallSucceeded) && !On(a, ClusterInstallSucceeded) ==> cfg.Me() in b.hub.kubeconfigs)
    && (k == 2 && cfg.Registers() && On(b, ManagedClusterCreated) && !On(a, ManagedClusterCreated) ==>
          MyClusters(cfg.Me(), b.hub.clusters) != [])
  }

  // What step k does to the server.
  ghost predicate StepBacking(cfg: Config, a: St, b: St, k: nat) {
    Evolves(cfg, a.hub, b.hub) && StepPlaces(cfg, a, b, k)
  }

  lemma DefinitionPlaces(cfg: Config, env: Env, st: St)
    ensures StepPlaces(cfg, st, Stage(cfg, env, st, 0).st, 0)
  {
    if cfg.secretRef.Some? && env.secretRefData.Some? {
      var d := env.secretRefData.value;
      CreateClusterSecretsEvolves(cfg, env, Handled(cfg, env, st.hub, GetSecretRef), d.0, d.1);
    }
    hide Evolves, At, CreateDay1, CreateClusterSecrets;
  }

  lemma ProviderPlaces(cfg: Config, env: Env, st: St, app: Application)
    ensures StepPlaces(cfg, st, ReconcileProvider(cfg, env, st, app).st, 1)
  {
    var p := Detect(app.resources, app.resources);
    if p.Some? {
      ReadyMeansKubeconfig(cfg, env, p.value, st.hub);
    }
    hide Evolves, GetClusterStatus, Detect;
  }

  lemma StatusPlaces(cfg: Config, env: Env, st: St)
    ensures StepPlaces(cfg, st, ReconcileClusterStatus(cfg, env, st).st, 1)
  {
    hide Handled, ReconcileProvider, Classify, OnlyChanges;
    if env.day1 != [] {
      ProviderPlaces(cfg, env, SetPhase(st.(hub := Handled(cfg, env, st.hub, ListDay1)), ClusterInstallingPhase),
        env.day1[0]);
    }
  }

  lemma InstallPlaces(cfg: Config, env: Env, st: St)
    ensures StepPlaces(cfg, st, Stage(cfg, env, st, 1).st, 1)
  {
    hide ReconcileClusterStatus, OnlyChanges;
    StatusPlaces(cfg, env, st);
  }

  lemma RegistrationPlaces(cfg: Config, env: Env, st: St)
    ensures StepPlaces(cfg, st, Stage(cfg, env, st, 2).st, 2)
  {
    hide At, CreateManagedCluster, MyClusters, FirstCluster;
    var w1 := Handled(cfg, env, CreateManagedCluster(cfg, env, st.hub).0, ListAfterCreate);
    var mc := FirstCluster(cfg.Me(), w1.clusters);
    assert mc.Some? ==> mc.value in MyClusters(cfg.Me(), w1.clusters);
  }

  lemma StageBacking(cfg: Config, env: Env, st: St, k: nat)
    requires k < STAGE_COUNT
    ensures StepBacking(cfg, st, Stage(cfg, env, st, k).st, k)
  {
    hide Stage, Evolves;
    StageEvolves(cfg, env, st, k);
    if k == 0 {
      DefinitionPlaces(cfg, env, st);
    } else if k == 1 {
      InstallPlaces(cfg, env, st);
    } else if k == 2 {
      RegistrationPlaces(cfg, env, st);
    }
  }

  lemma StepKeepsBacked(cfg: Config, a: St, b: St, ok: bool, k: nat)
    requires StatusInv(a) && HubInv(cfg, a.hub) && Backed(cfg, a) && k < STAGE_COUNT
    requires StepFacts(cfg, a, b, ok, k) && StepBacking(cfg, a, b, k)
    ensures HubInv(cfg, b.hub) && Grows(cfg, a.hub, b.hub) && Backed(cfg, b)
  {
    if k != 9 {
      Unmoved(a, b, Subject(cfg, k));
    }
    hide HubInv, On;
  }

  lemma StageKeepsBacked(cfg: Config, env: Env, st: St, k: nat)
    requires StatusInv(st) && HubInv(cfg, st.hub) && Backed(cfg, st) && k < STAGE_COUNT
    ensures var r := Stage(cfg, env, st, k);
      StatusInv(r.st) && HubInv(cfg, r.st.hub) && Grows(cfg, st.hub, r.st.hub) && Backed(cfg, r.st)
  {
    hide Stage, HubInv, Grows, Backed, Chain, StepBacking, StepFacts;
    var r := Stage(cfg, env, st, k);
    StageSteps(cfg, env, st, k);
    StageBacking(cfg, env, st, k);
    StepAdvances(cfg, st, r.st, r.err == None, k);
    StepKeepsBacked(cfg, st, r.st, r.err == None, k);
  }

  lemma GrowsReflexive(cfg: Config, a: Server)
    ensures Grows(cfg, a, a)
  {}

  lemma GrowsTransitive(cfg: Config, a: Server, b: Server, c: Server)
    requires Grows(cfg, a, b) && Grows(cfg, b, c)
    ensures Grows(cfg, a, c)
  {}

  lemma {:induction false} StagesKeepBacked(cfg: Config, env: Env, st: St, k: nat)
    requires StatusInv(st) && HubInv(cfg, st.hub) && Backed(cfg, st) && k <= STAGE_COUNT
    ensures var r := Stages(cfg, env, st, k); HubInv(cfg, r.st.hub) && Grows(cfg, st.hub, r.st.hub) && Backed(cfg, r.st)
    decreases STAGE_COUNT - k
  {
    GrowsReflexive(cfg, st.hub);
    hide Stage, HubInv, Grows, Backed, StatusInv;
    if k < STAGE_COUNT {
      var r := Stage(cfg, env, st, k);
      StageKeepsBacked(cfg, env, st, k);
      if r.err == None {
        StagesKeepBacked(cfg, env, r.st, k + 1);
        GrowsTransitive(cfg, st.hub, r.st.hub, Stages(cfg, env, r.st, k + 1).st.hub);
      }
    }
  }

  lemma StartInv(cfg: Config, env: Env, s: Stored, w: Server)
    requires StoredInv(s, w)
    ensures StatusInv(PassStart(cfg, env, s, w))
  {
    var st := PassStart(cfg, env, s, w);
    BeginInv(s, env.now, st.hub);
  }

  lemma GrownBacked(cfg: Config, s: Status, w: Server, n: Server)
    requires Backed(cfg, St(s, w)) && Grows(cfg, w, n)
    ensures Backed(cfg, St(s, n))
  {}

  // No interference takes the instance out of a set that lists it in `w`, which only the
  // removal of the whole set does.
  ghost predicate Spared(cfg: Config, env: Env, w: Server) {
    forall s, m | Listed(cfg, w, m) && env.reply(s).before.Some? :: Listed(cfg, env.reply(s).before.value, m)
  }

  // To set `m` nothing has happened since `w` but its removal, if anybody did that.
  ghost predicate StaysListed(cfg: Config, env: Env, w: Server, n: Server, m: string) {
    && (Listed(cfg, n, m) ==> Listed(cfg, w, m))
    && (Spared(cfg, env, w) && Listed(cfg, w, m) ==> Listed(cfg, n, m))
  }

  lemma HandledStaysListed(cfg: Config, env: Env, w: Server, a: Server, s: Site, m: string)
    requires StaysListed(cfg, env, w, a, m)
    ensures StaysListed(cfg, env, w, Handled(cfg, env, a, s), m)
  {
    var n := Handled(cfg, env, a, s);
    if m in n.appSets && m in a.appSets {
      assert Own(cfg.Me(), n.appSets[m].generators) == [] <==> !HasOwn(cfg.Me(), n.appSets[m].generators);
      assert Own(cfg.Me(), a.appSets[m].generators) == [] <==> !HasOwn(cfg.Me(), a.appSets[m].generators);
    }
    hide MyClusters, MySecrets, Own, HasOwn, ServerOk;
  }

  lemma KeptBacked(cfg: Config, s: Status, w: Server, n: Server)
    requires Backed(cfg, St(s, w)) && (cfg.Me() in w.kubeconfigs ==> cfg.Me() in n.kubeconfigs)
    ensures Backed(cfg, St(s, n))
  {}

  ghost predicate StoredBacked(cfg: Config, s: Stored, w: Server) {
    s.Saved? ==> Backed(cfg, St(s.status, w))
  }

  lemma PhaseBacked(cfg: Config, st: St, p: Phase)
    ensures Backed(cfg, SetPhase(st, p)) == Backed(cfg, st)
  {}

  /** One pass under any environment keeps: at most one generator of the instance per
      ApplicationSet and only in its target sets, at most one managed cluster, its
      credentials unchanged once written, and every recorded promise backed by the
      server, whether or not the new status gets recorded. */
  lemma PassKeepsHub(cfg: Config, env: Env, s: Stored, w: Server)
    requires StoredInv(s, w) && HubInv(cfg, w) && StoredBacked(cfg, s, w)
    ensures var r := Pass(cfg, env, s, w);
      && HubInv(cfg, r.st.hub) && Grows(cfg, w, r.st.hub)
      && Backed(cfg, r.st) && StoredBacked(cfg, s, r.st.hub)
  {
    hide Stages, HubInv, Grows, StatusInv, PassStart, Backed;
    var st := PassStart(cfg, env, s, w);
    StartInv(cfg, env, s, w);
    StartBacked(cfg, env, s, w);
    StagesKeepBacked(cfg, env, st, 0);
    var r := Pass(cfg, env, s, w);
    if Ok(env, GetTemplate) && env.templateFound {
      GrowsTransitive(cfg, w, st.hub, r.st.hub);
    } else {
      PhaseBacked(cfg, st, FailedPhase);
    }
    if s.Saved? {
      GrownBacked(cfg, s.status, w, r.st.hub);
    }
  }

  lemma StartBacked(cfg: Config, env: Env, s: Stored, w: Server)
    requires HubInv(cfg, w) && StoredBacked(cfg, s, w)
    ensures var st := PassStart(cfg, env, s, w); HubInv(cfg, st.hub) && Grows(cfg, w, st.hub) && Backed(cfg, st)
  {
    HandledEvolves(cfg, env, w, GetTemplate);
    hide HubInv, At;
  }
}
