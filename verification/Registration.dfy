/** Registering the new cluster: creation followed by a look-up whose result is used
    without a nil check, and when exactly that goes wrong. */
module Registration {
  import opened Generators
  import opened Conditions
  import opened Hub
  import opened Lifecycle
  import opened Passes
  import opened HubInvariants

  // The template's own labels leave the two that name the instance alone.
  predicate LabelsKept(cfg: Config) {
    && (CTIName in cfg.templateLabels ==> cfg.templateLabels[CTIName] == cfg.Me().name)
    && (CTINamespace in cfg.templateLabels ==> cfg.templateLabels[CTINamespace] == cfg.Me().namespace)
  }

  /** A new managed cluster carries the instance's labels exactly when the template's
      labels, which are merged in last, do not give those two keys other values. */
  lemma LabelledExactlyWhenKept(cfg: Config)
    ensures Matches(cfg.Me(), ClusterLabels(cfg)) <==> LabelsKept(cfg)
  {}

  lemma {:induction false} FirstFindsMine(me: Key, cs: seq<ManagedCluster>)
    requires MyClusters(me, cs) == []
    ensures FirstCluster(me, cs) == None
  {
    if cs != [] {
      FirstFindsMine(me, cs[1..]);
    }
  }

  // Others make no clusters that are labelled for the instance.
  lemma NoneMeanwhile(cfg: Config, env: Env, w: Server, s: Site)
    requires HubInv(cfg, w) && FirstCluster(cfg.Me(), w.clusters) == None
    ensures MyClusters(cfg.Me(), Handled(cfg, env, w, s).clusters) == []
  {
    FirstClusterIsHead(cfg.Me(), w.clusters);
  }

  // The cluster is there, and by the time of the call it no longer is.
  ghost predicate RemovedBy(cfg: Config, env: Env, w: Server, s: Site) {
    MyClusters(cfg.Me(), w.clusters) != [] && MyClusters(cfg.Me(), Handled(cfg, env, w, s).clusters) == []
  }

  // After a creation that reports success there is a cluster of the instance, unless one
  // that was just made is not labelled for it.
  lemma CreationIsFound(cfg: Config, env: Env, w: Server)
    requires HubInv(cfg, w) && CreateManagedCluster(cfg, env, w).1
    ensures MyClusters(cfg.Me(), CreateManagedCluster(cfg, env, w).0.clusters) == [] <==>
      !LabelsKept(cfg) && MyClusters(cfg.Me(), Handled(cfg, env, w, ListBeforeCreate).clusters) == []
  {
    hide Handled, HubInv, Grows, FirstCluster, ClusterLabels, Matches, LabelsKept, NameTaken, MyClusters;
    var w1 := Handled(cfg, env, w, ListBeforeCreate);
    HandledEvolves(cfg, env, w, ListBeforeCreate);
    HandledEvolves(cfg, env, w1, CreateCluster);
    FoundExactlyWhen(cfg, w1);
    if FirstCluster(cfg.Me(), w1.clusters) == None {
      var w2, mc := Handled(cfg, env, w1, CreateCluster),
        ManagedCluster("cluster-" + env.newSuffix, ClusterLabels(cfg));
      NoneMeanwhile(cfg, env, w1, CreateCluster);
      LabelledExactlyWhenKept(cfg);
      NewIsMine(cfg.Me(), w2.clusters, mc);
    }
  }

  lemma NewIsMine(me: Key, cs: seq<ManagedCluster>, mc: ManagedCluster)
    requires MyClusters(me, cs) == []
    ensures MyClusters(me, cs + [mc]) == if Matches(me, mc.labels) then [mc] else []
  {
    MyClustersAppend(me, cs, [mc]);
    assert MyClusters(me, [mc]) == if Matches(me, mc.labels) then [mc] else [];
  }

  lemma FoundExactlyWhen(cfg: Config, w: Server)
    requires HubInv(cfg, w)
    ensures FirstCluster(cfg.Me(), w.clusters) == None <==> MyClusters(cfg.Me(), w.clusters) == []
  {
    FirstClusterIsHead(cfg.Me(), w.clusters);
  }

  // When the step uses the cluster that it has just made, and there is none: the template
  // gave it other labels, or somebody removed it before the look-up.
  ghost predicate Crashes(cfg: Config, env: Env, st: St) {
    var (w, ok) := CreateManagedCluster(cfg, env, st.hub);
    && Gate(st, ClusterInstallSucceeded, Some(ManagedClusterCreated)) && cfg.Registers()
    && ok && Ok(env, ListAfterCreate)
    && ((!LabelsKept(cfg) && MyClusters(cfg.Me(), Handled(cfg, env, st.hub, ListBeforeCreate).clusters) == [])
        || RemovedBy(cfg, env, w, ListAfterCreate))
  }

  /** With lists that are those of the present server (what older ones do is in Caches), the
      registration dereferences nil, in any environment, exactly when its creation reports
      success, its look-up is answered, and either the cluster was made with one of
      the instance's two labels overridden or it was removed in between. */
  lemma CrashesExactlyWhen(cfg: Config, env: Env, st: St)
    requires HubInv(cfg, st.hub)
    ensures ReconcileCreateManagedCluster(cfg, env, st).err == Some(Crash) <==> Crashes(cfg, env, st)
  {
    hide Handled, HubInv, Grows, FirstCluster, LabelsKept, CreateManagedCluster, MyClusters, Gate;
    var (w, ok) := CreateManagedCluster(cfg, env, st.hub);
    if ok && cfg.Registers() {
      CreateManagedClusterEvolves(cfg, env, st.hub);
      CreationIsFound(cfg, env, st.hub);
      HandledEvolves(cfg, env, w, ListAfterCreate);
      FoundExactlyWhen(cfg, Handled(cfg, env, w, ListAfterCreate));
      if MyClusters(cfg.Me(), w.clusters) == [] {
        NoneAtCall(cfg, env, w, ListAfterCreate);
      }
    }
  }

  /** The first registration with every call answered and nobody removing the new cluster
      crashes exactly when the template gives one of the two labels another value; and it
      has then left a cluster behind that the instance will never find again. */
  lemma CrashesExactlyWhenRelabelled(cfg: Config, env: Env, st: St)
    requires HubInv(cfg, st.hub) && cfg.Registers() && Gate(st, ClusterInstallSucceeded, Some(ManagedClusterCreated))
    requires Ok(env, ListBeforeCreate) && Ok(env, CreateCluster) && Ok(env, ListAfterCreate)
    requires MyClusters(cfg.Me(), st.hub.clusters) == []
    requires !NameTaken(Handled(cfg, env, Handled(cfg, env, st.hub, ListBeforeCreate), CreateCluster).clusters,
        "cluster-" + env.newSuffix)
    requires !RemovedBy(cfg, env, CreateManagedCluster(cfg, env, st.hub).0, ListAfterCreate)
    ensures ReconcileCreateManagedCluster(cfg, env, st).err == Some(Crash) <==> !LabelsKept(cfg)
    ensures !LabelsKept(cfg) ==> MyClusters(cfg.Me(), ReconcileCreateManagedCluster(cfg, env, st).st.hub.clusters) == []
  {
    hide Handled, HubInv, FirstCluster, LabelsKept, NameTaken, Gate, ReconcileCreateManagedCluster, MyClusters,
      RemovedBy, CreateManagedCluster;
    CrashesExactlyWhen(cfg, env, st);
    NoneAtCall(cfg, env, st.hub, ListBeforeCreate);
    if !LabelsKept(cfg) {
      RelabelledIsLost(cfg, env, st);
    }
  }

  lemma RelabelledIsNobodys(cfg: Config, cs: seq<ManagedCluster>, name: string)
    requires !LabelsKept(cfg)
    ensures MyClusters(cfg.Me(), cs + [ManagedCluster(name, ClusterLabels(cfg))]) == MyClusters(cfg.Me(), cs)
  {
    var mc := ManagedCluster(name, ClusterLabels(cfg));
    LabelledExactlyWhenKept(cfg);
    MyClustersAppend(cfg.Me(), cs, [mc]);
    assert MyClusters(cfg.Me(), [mc]) == [];
  }

  lemma NoneAtCall(cfg: Config, env: Env, w: Server, s: Site)
    requires MyClusters(cfg.Me(), w.clusters) == []
    ensures MyClusters(cfg.Me(), Handled(cfg, env, w, s).clusters) == []
  {
    hide MyClusters, Own, MySecrets, ServerOk;
  }

  // Without the labels no cluster of the instance ever comes to be.
  lemma RelabelledStaysAway(cfg: Config, env: Env, w: Server)
    requires !LabelsKept(cfg) && MyClusters(cfg.Me(), w.clusters) == []
    ensures MyClusters(cfg.Me(), CreateManagedCluster(cfg, env, w).0.clusters) == []
  {
    hide Handled, MyClusters, FirstCluster, LabelsKept, NameTaken, ClusterLabels;
    var w1 := Handled(cfg, env, w, ListBeforeCreate);
    NoneAtCall(cfg, env, w, ListBeforeCreate);
    NoneAtCall(cfg, env, w1, CreateCluster);
    RelabelledIsNobodys(cfg, Handled(cfg, env, w1, CreateCluster).clusters, "cluster-" + env.newSuffix);
  }

  lemma RelabelledIsLost(cfg: Config, env: Env, st: St)
    requires cfg.Registers() && Gate(st, ClusterInstallSucceeded, Some(ManagedClusterCreated)) && !LabelsKept(cfg)
    requires Ok(env, ListBeforeCreate) && Ok(env, CreateCluster) && Ok(env, ListAfterCreate)
    requires MyClusters(cfg.Me(), st.hub.clusters) == []
    requires !NameTaken(Handled(cfg, env, Handled(cfg, env, st.hub, ListBeforeCreate), CreateCluster).clusters,
        "cluster-" + env.newSuffix)
    ensures ReconcileCreateManagedCluster(cfg, env, st).err == Some(Crash)
    ensures MyClusters(cfg.Me(), ReconcileCreateManagedCluster(cfg, env, st).st.hub.clusters) == []
  {
    var w := CreateManagedCluster(cfg, env, st.hub).0;
    RelabelledStaysAway(cfg, env, st.hub);
    NoneAtCall(cfg, env, w, ListAfterCreate);
    FirstFindsMine(cfg.Me(), Handled(cfg, env, w, ListAfterCreate).clusters);
    NoneAtCall(cfg, env, st.hub, ListBeforeCreate);
    FirstFindsMine(cfg.Me(), Handled(cfg, env, st.hub, ListBeforeCreate).clusters);
    hide At, MyClusters, FirstCluster, LabelsKept, NameTaken, ClusterLabels, Matches, Gate;
  }

  // The instance as the registration step of a pass finds it, if the pass gets there.
  function AtRegistration(cfg: Config, env: Env, s: Stored, w: Server): Option<St> {
    var r0 := Stage(cfg, env, PassStart(cfg, env, s, w), 0);
    if !Ok(env, GetTemplate) || !env.templateFound || r0.err.Some? then None
    else
      var r1 := Stage(cfg, env, r0.st, 1);
      if r1.err.Some? then None else Some(r1.st)
  }

  lemma OnlyRegistrationCrashes(cfg: Config, env: Env, st: St, k: nat)
    requires k <= STAGE_COUNT && k != 2
    ensures 2 < k ==> Stages(cfg, env, st, k).err != Some(Crash)
    decreases STAGE_COUNT - k
  {
    hide Stage;
    if 2 < k < STAGE_COUNT {
      FaultsByStep(cfg, env, st, k);
      OnlyRegistrationCrashes(cfg, env, Stage(cfg, env, st, k).st, k + 1);
    }
  }

  lemma FirstThree(cfg: Config, env: Env, st: St)
    ensures var r0 := Stage(cfg, env, st, 0);
      var r1 := Stage(cfg, env, r0.st, 1);
      Stages(cfg, env, st, 0).err == Some(Crash) <==>
        r0.err == None && r1.err == None && Stage(cfg, env, r1.st, 2).err == Some(Crash)
  {
    hide Stage;
    var r0 := Stage(cfg, env, st, 0);
    var r1 := Stage(cfg, env, r0.st, 1);
    var r2 := Stage(cfg, env, r1.st, 2);
    FaultsByStep(cfg, env, st, 0);
    FaultsByStep(cfg, env, r0.st, 1);
    OnlyRegistrationCrashes(cfg, env, r2.st, 3);
    assert Stages(cfg, env, st, 0) == if r0.err.Some? then r0 else Stages(cfg, env, r0.st, 1);
    assert Stages(cfg, env, r0.st, 1) == if r1.err.Some? then r1 else Stages(cfg, env, r1.st, 2);
    assert Stages(cfg, env, r1.st, 2) == if r2.err.Some? then r2 else Stages(cfg, env, r2.st, 3);
  }

  lemma RegistrationStage(cfg: Config, env: Env, st: St)
    ensures Stage(cfg, env, st, 2).err == ReconcileCreateManagedCluster(cfg, env, st).err
  {
    hide ReconcileCreateManagedCluster;
  }

  /** A pass from a reachable state crashes exactly when it gets to the registration and
      that one does; so never, unless an instance that registers has its labels overridden
      or the environment takes the new cluster away before the look-up. */
  lemma PassCrashesExactlyWhen(cfg: Config, env: Env, s: Stored, w: Server)
    requires StoredInv(s, w) && HubInv(cfg, w) && StoredBacked(cfg, s, w)
    ensures var at := AtRegistration(cfg, env, s, w);
      && (Pass(cfg, env, s, w).err == Some(Crash) <==> at.Some? && Crashes(cfg, env, at.value))
      && (Pass(cfg, env, s, w).err == Some(Crash) ==> cfg.Registers() && (LabelsKept(cfg) ==> TakesAway(cfg, env)))
  {
    hide Stage, Stages, PassStart, HubInv, Backed, StoredInv, StatusInv, Grows, LabelsKept, Crashes,
      ReconcileCreateManagedCluster;
    var st := PassStart(cfg, env, s, w);
    StartInv(cfg, env, s, w);
    StartBacked(cfg, env, s, w);
    var r0 := Stage(cfg, env, st, 0);
    StageKeepsBacked(cfg, env, st, 0);
    var r1 := Stage(cfg, env, r0.st, 1);
    StageKeepsBacked(cfg, env, r0.st, 1);
    FirstThree(cfg, env, st);
    RegistrationStage(cfg, env, r1.st);
    CrashesExactlyWhen(cfg, env, r1.st);
    CrashTakesAway(cfg, env, r1.st);
  }

  // The environment has the new cluster removed before the look-up.
  predicate TakesAway(cfg: Config, env: Env) {
    var n := env.reply(ListAfterCreate).before;
    n.Some? && MyClusters(cfg.Me(), n.value.clusters) == []
  }

  lemma CrashTakesAway(cfg: Config, env: Env, st: St)
    ensures Crashes(cfg, env, st) ==> cfg.Registers() && (LabelsKept(cfg) ==> TakesAway(cfg, env))
  {
    hide Rely, MyClusters, CreateManagedCluster, Gate;
  }

  /** No pass from a reachable state ever crashes if an instance that registers keeps its
      labels, nobody removes the new cluster before the look-up, and that one is answered
      by the present server. */
  lemma PassNeverCrashes(cfg: Config, env: Env, s: Stored, w: Server)
    requires StoredInv(s, w) && HubInv(cfg, w) && StoredBacked(cfg, s, w)
    requires cfg.Registers() ==> LabelsKept(cfg) && !TakesAway(cfg, env)
    ensures Pass(cfg, env, s, w).err != Some(Crash)
  {
    hide Pass, HubInv, StoredInv, StoredBacked, TakesAway, LabelsKept, Crashes, AtRegistration;
    PassCrashesExactlyWhen(cfg, env, s, w);
  }
}
