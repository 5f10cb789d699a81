/** Which instances can ever become Ready, and from which states of their lives they still can. */
module Liveness {
  import opened Generators
  import opened Conditions
  import opened Applications
  import opened Hub
  import opened Lifecycle
  import opened Passes
  import opened Calls
  import opened HubInvariants
  import opened Deletion
  import opened Registration
  import opened Runs
  import opened Convergence

  // The add-on CRD is not there without the managed cluster CRD, and a cluster that is
  // to be registered keeps its labels.
  predicate Completable(cfg: Config) {
    && (cfg.enableKlusterlet && !cfg.skipRegistration ==> cfg.enableManagedCluster)
    && (cfg.Registers() ==> LabelsKept(cfg))
  }

  // -------- the ones that cannot --------

  ghost predicate StoredOff(cfg: Config, s: Stored, w: Server) {
    s.Saved? ==>
      !On(St(s.status, w), ArgoClusterAdded) && (cfg.Registers() ==> !On(St(s.status, w), ManagedClusterCreated))
  }

  ghost predicate Wedged(cfg: Config, l: Life) {
    NoClusters(cfg, l.hub) && StoredOff(cfg, l.stored, l.hub)
  }

  lemma CannotRegister(cfg: Config)
    requires !Completable(cfg)
    ensures !CanRegister(cfg)
  {
    LabelledExactlyWhenKept(cfg);
  }

  // Where there is no cluster to hang the add-on on, the step that creates it fails.
  lemma KlusterletFails(cfg: Config, env: Env, st: St)
    requires cfg.enableKlusterlet && !cfg.skipRegistration && On(st, ManagedClusterImported)
    requires MyClusters(cfg.Me(), st.hub.clusters) == []
    ensures Stage(cfg, env, st, 4).err != None
  {
    var w1 := Handled(cfg, env, st.hub, ListForKlusterlet);
    assert MyClusters(cfg.Me(), w1.clusters) == [];
    FirstFindsMine(cfg.Me(), w1.clusters);
    hide At, MyClusters, FirstCluster;
  }

  ghost predicate Unreached(cfg: Config, st: St, k: nat) {
    && MyClusters(cfg.Me(), st.hub.clusters) == [] && !On(st, ArgoClusterAdded)
    && (4 < k ==> !On(st, ManagedClusterImported))
    && (cfg.Registers() ==> !On(st, ManagedClusterCreated))
  }

  lemma StepLeavesUnreached(cfg: Config, a: St, b: St, ok: bool, k: nat)
    requires k < STAGE_COUNT && !CanRegister(cfg) && StatusInv(a) && Unreached(cfg, a, k) && StepFacts(cfg, a, b, ok, k)
    requires Grows(cfg, a.hub, b.hub) && StepPlaces(cfg, a, b, k)
    requires k == 4 && cfg.enableKlusterlet && !cfg.skipRegistration && On(a, ManagedClusterImported) ==> !ok
    requires !Completable(cfg)
    ensures Unreached(cfg, b, if ok then k + 1 else 0)
  {
    if k != 9 {
      Unmoved(a, b, Subject(cfg, k));
    }
    hide MyClusters, CanRegister, TwoValued, LabelsKept, On;
  }

  lemma StageLeavesUnreached(cfg: Config, env: Env, st: St, k: nat)
    requires k < STAGE_COUNT && StatusInv(st) && HubInv(cfg, st.hub) && Backed(cfg, st)
    requires !Completable(cfg) && Unreached(cfg, st, k)
    ensures var r := Stage(cfg, env, st, k);
      Unreached(cfg, r.st, if r.err == None then k + 1 else 0)
  {
    assert TwoValued(st) && MyClusters(cfg.Me(), st.hub.clusters) == [];
    hide Stage, HubInv, MyClusters, CanRegister, TwoValued, LabelsKept, On, StepFacts, StepPlaces, Evolves, Unreached,
      Grows, Backed, StatusInv, Completable;
    var r := Stage(cfg, env, st, k);
    CannotRegister(cfg);
    StageSteps(cfg, env, st, k);
    StageKeepsBacked(cfg, env, st, k);
    StageBacking(cfg, env, st, k);
    if k == 4 && cfg.enableKlusterlet && !cfg.skipRegistration && On(st, ManagedClusterImported) {
      KlusterletFails(cfg, env, st);
    }
    StepLeavesUnreached(cfg, st, r.st, r.err == None, k);
  }

  lemma {:induction false} StagesLeaveUnreached(cfg: Config, env: Env, st: St, k: nat)
    requires k <= STAGE_COUNT && StatusInv(st) && HubInv(cfg, st.hub) && Backed(cfg, st)
    requires !Completable(cfg) && Unreached(cfg, st, k)
    ensures Unreached(cfg, Stages(cfg, env, st, k).st, 0)
    decreases STAGE_COUNT - k
  {
    hide Stage, HubInv, Grows, Backed, StatusInv, Completable, On, MyClusters;
    if k < STAGE_COUNT {
      var r := Stage(cfg, env, st, k);
      StageKeepsBacked(cfg, env, st, k);
      StageLeavesUnreached(cfg, env, st, k);
      if r.err == None {
        StagesLeaveUnreached(cfg, env, r.st, k + 1);
      }
    }
  }

  lemma StartsUnreached(cfg: Config, env: Env, s: Stored, w: Server)
    requires HubInv(cfg, w) && StoredInv(s, w) && StoredBacked(cfg, s, w) && !Completable(cfg)
    requires NoClusters(cfg, w) && StoredOff(cfg, s, w)
    ensures Unreached(cfg, PassStart(cfg, env, s, w), 0)
  {
    var st := PassStart(cfg, env, s, w);
    assert MyClusters(cfg.Me(), st.hub.clusters) == [];
    StartBacked(cfg, env, s, w);
    hide At, HubInv, MyClusters, Completable, Grows;
  }

  lemma PassStaysWedged(cfg: Config, env: Env, s: Stored, w: Server)
    requires HubInv(cfg, w) && StoredInv(s, w) && StoredBacked(cfg, s, w) && !Completable(cfg)
    requires NoClusters(cfg, w) && StoredOff(cfg, s, w)
    ensures var st := Pass(cfg, env, s, w).st;
      NoClusters(cfg, st.hub) && !On(st, ArgoClusterAdded) && (cfg.Registers() ==> !On(st, ManagedClusterCreated))
  {
    var st := PassStart(cfg, env, s, w);
    StartInv(cfg, env, s, w);
    StartBacked(cfg, env, s, w);
    StartsUnreached(cfg, env, s, w);
    StagesLeaveUnreached(cfg, env, st, 0);
    hide Stages, PassStart, HubInv, Grows, Backed, StoredInv, MyClusters, Completable;
  }

  lemma StepStaysWedged(cfg: Config, l: Life, e: Event)
    requires LifeInv(cfg, l) && Wedged(cfg, l) && !Completable(cfg)
    ensures Wedged(cfg, Step(cfg, l, e))
  {
    if e.Reconcile? && l.end.Alive? {
      if l.deleting {
        CleanupClears(cfg, e.env, l.hub);
        HandledShrinks(cfg, e.env, Cleanup(cfg, e.env, l.hub).0, RemoveFinalizer);
      } else {
        PassStaysWedged(cfg, e.env, l.stored, l.hub);
      }
    }
    hide Pass, Cleanup, At, HubInv, Completable, AllGone, RestGone, Chain, TwoValued, Grows, MyClusters, Handled;
  }

  lemma {:induction false} RunStaysWedged(cfg: Config, l: Life, events: seq<Event>)
    requires LifeInv(cfg, l) && Wedged(cfg, l) && !Completable(cfg)
    ensures Wedged(cfg, Run(cfg, l, events)) && LifeInv(cfg, Run(cfg, l, events))
    decreases |events|
  {
    hide LifeInv, Step, Wedged, Completable;
    if events != [] {
      StepKeeps(cfg, l, events[0]);
      StepStaysWedged(cfg, l, events[0]);
      RunStaysWedged(cfg, Step(cfg, l, events[0]), events[1..]);
    }
  }

  /** An instance that is not completable is never recorded Ready, whatever happens. */
  lemma NeverReady(cfg: Config, born: Life, events: seq<Event>)
    requires Newborn(cfg, born) && !Completable(cfg)
    ensures var s := Run(cfg, born, events).stored; s.Saved? ==> s.status.phase != ReadyPhase
  {
    NewbornInv(cfg, born);
    RunStaysWedged(cfg, born, events);
    hide Run, Completable, HubInv, TwoValued, AllGone, RestGone;
  }

  // -------- the ones that can --------

  // A string longer than every managed cluster's name.
  function Longer(cs: seq<ManagedCluster>): string {
    if cs == [] then "x" else cs[0].name + Longer(cs[1..])
  }

  lemma {:induction false} LongerIsFree(cs: seq<ManagedCluster>)
    ensures |Longer(cs)| > 0 && forall i | 0 <= i < |cs| :: |cs[i].name| < |Longer(cs)|
  {
    if cs != [] {
      LongerIsFree(cs[1..]);
      forall i | 0 <= i < |cs| ensures |cs[i].name| < |Longer(cs)| {
        if i > 0 {
          assert cs[i] == cs[1..][i - 1];
        }
      }
    }
  }

  const HEALTHY_APP := Application("app", "", [], Healthy, Some(Succeeded),
    [Resource(ClusterDeployment, HiveGroup, V1, "cluster", "clusters", Healthy)])

  const INSTALLED_VIEW := ProviderView(
    HostedState([], false, false, false), [], DeploymentState([TypedStatus(true, True)], true, true), true,
    Some("https://api"), true, Some("password"))

  // A world in which everything the instance waits for has come true.
  function Bright(w: Server): Env {
    Env((s: Site) => Reply(Served, None), 0, 0, true, [HEALTHY_APP], INSTALLED_VIEW, Some(("https://api", "")),
        Longer(w.clusters), [TypedStatus(true, True)], [], true, [HEALTHY_APP], [], [CTI_FINALIZER])
  }

  // The ApplicationSets a pass may look for.
  function Wanted(cfg: Config): set<string> {
    {cfg.definition} + set i | 0 <= i < |cfg.setups| :: cfg.setups[i]
  }

  // The administrator adds what is missing.
  function Provide(cfg: Config, w: Server): Server {
    w.(rv := w.rv + 1,
       appSets := (map m | m in Wanted(cfg) :: AppSet(w.rv + 1, Template([], "", []), [])) + w.appSets,
       kubeconfigs := if cfg.Me() in w.kubeconfigs then w.kubeconfigs else w.kubeconfigs[cfg.Me() := "https://api"])
  }

  lemma ProvidedIsAllowed(cfg: Config, w: Server)
    requires ServerOk(w)
    ensures Rely(cfg.Me(), w, Provide(cfg, w))
    ensures Wanted(cfg) <= Provide(cfg, w).appSets.Keys && cfg.Me() in Provide(cfg, w).kubeconfigs
  {}

  lemma BrightProvider()
    ensures Classify(HEALTHY_APP, false) == AppHealthy
    ensures Detect(HEALTHY_APP.resources, HEALTHY_APP.resources).Some?
    ensures ProviderReady(INSTALLED_VIEW, Detect(HEALTHY_APP.resources, HEALTHY_APP.resources).value)
    ensures LastIsTrue([TypedStatus(true, True)]) && AllHealthy([HEALTHY_APP])
  {
    DetectedFromFirst(HEALTHY_APP.resources, HEALTHY_APP.resources, 0);
  }

  lemma BrightIsFavourable(cfg: Config, st: St)
    requires Completable(cfg) && Wanted(cfg) <= st.hub.appSets.Keys && Findable(cfg, st)
    requires cfg.experimental ==> On(st, ClusterInstallSucceeded) && cfg.Me() in st.hub.kubeconfigs
    ensures Favourable(cfg, Bright(st.hub), st)
  {
    BrightProvider();
    LabelledExactlyWhenKept(cfg);
    LongerIsFree(st.hub.clusters);
    assert forall i | 0 <= i < |cfg.setups| :: cfg.setups[i] in Wanted(cfg);
    assert !NameTaken(st.hub.clusters, "cluster-" + Longer(st.hub.clusters));
    hide FirstCluster, Matches, ClusterLabels, LabelsKept, NameTaken, LastIsTrue, AllHealthy, ProviderReady, Detect,
      Classify, Longer, Wanted;
  }

  // A world in which not even the template is there.
  function Dim(w: Server): Env { Bright(w).(templateFound := false) }

  // One pass to have a status recorded, what the others owe the instance, one pass more.
  function Rescue(cfg: Config, l: Life): seq<Event> {
    var w := Provide(cfg, l.hub);
    [Reconcile(Dim(l.hub), true), Others(w), ProviderReports(True), Reconcile(Bright(w), true)]
  }

  lemma FirstPassIsRecorded(cfg: Config, l: Life)
    requires LifeInv(cfg, l) && !l.deleting && l.end.Alive?
    ensures var n := Step(cfg, l, Reconcile(Dim(l.hub), true));
      && LifeInv(cfg, n) && n.hub == l.hub && n.stored.Saved? && !n.deleting && n.end.Alive?
      && n.stored.status.conditions == Begin(l.stored, 0).conditions
  {
    PassStepKeeps(cfg, l, Dim(l.hub), true);
    hide LifeInv, Stages;
  }

  // The favourable pass of a life, recorded.
  lemma RecordedReady(cfg: Config, l: Life, env: Env)
    requires LifeInv(cfg, l) && !l.deleting && l.end.Alive?
    requires Favourable(cfg, env, PassStart(cfg, env, l.stored, l.hub))
    ensures var s := Step(cfg, l, Reconcile(env, true)).stored; s.Saved? && s.status.phase == ReadyPhase
  {
    FavourablePassIsReady(cfg, env, l.stored, l.hub);
    hide Pass, HubInv, StoredInv, StoredBacked, AllGone, RestGone, Favourable, PassStart, Settled, GoodSt;
  }

  lemma OthersStep(cfg: Config, l: Life, w: Server)
    requires LifeInv(cfg, l) && l.stored.Saved? && Rely(cfg.Me(), l.hub, w)
    ensures LifeInv(cfg, l.(hub := w)) && Step(cfg, l, Others(w)) == l.(hub := w)
  {
    StepKeeps(cfg, l, Others(w));
    hide LifeInv, Rely;
  }

  lemma ReportStep(cfg: Config, l: Life)
    requires LifeInv(cfg, l) && l.stored.Saved? && l.end.Alive?
    ensures var n := Step(cfg, l, ProviderReports(True));
      && LifeInv(cfg, n) && n == l.(stored := n.stored) && n.stored.Saved?
      && (cfg.experimental ==> On(St(n.stored.status, l.hub), ClusterInstallSucceeded))
  {
    StepKeeps(cfg, l, ProviderReports(True));
    hide LifeInv;
  }

  // The registration is recorded, and the cluster is gone.
  ghost predicate ClusterLost(cfg: Config, l: Life) {
    && cfg.Registers() && NoClusters(cfg, l.hub)
    && l.stored.Saved? && Get(l.stored.status.conditions, ManagedClusterCreated).status == True
  }

  lemma NotLostIsFindable(cfg: Config, l: Life, st: St)
    requires LifeInv(cfg, l) && !ClusterLost(cfg, l) && l.stored.Saved? && st.hub.clusters == l.hub.clusters
    requires On(st, ManagedClusterCreated) <==> On(St(l.stored.status, l.hub), ManagedClusterCreated)
    ensures Findable(cfg, st)
  {
    FoundExactlyWhen(cfg, l.hub);
    hide MyClusters, FirstCluster, HubInv, StoredInv, AllGone, RestGone;
  }

  lemma ReportLeavesRegistration(cfg: Config, l: Life)
    requires l.stored.Saved?
    ensures var n := Step(cfg, l, ProviderReports(True));
      n.stored.Saved? &&
      Get(n.stored.status.conditions, ManagedClusterCreated) == Get(l.stored.status.conditions, ManagedClusterCreated)
  {}

  lemma ProvidedKeepsClusters(cfg: Config, w: Server)
    ensures Provide(cfg, w).clusters == w.clusters
  {}

  // What the second pass starts from.
  lemma BrightStart(cfg: Config, s: Stored, w: Server, from: Server)
    requires s.Saved?
    ensures PassStart(cfg, Bright(from), s, w) == St(s.status, w)
  {}

  lemma ServerIsOk(cfg: Config, l: Life)
    requires LifeInv(cfg, l)
    ensures ServerOk(l.hub)
  {}

  lemma ProvidedAndReported(cfg: Config, l: Life)
    requires LifeInv(cfg, l) && l.stored.Saved? && !l.deleting && l.end.Alive? && Completable(cfg)
        && !ClusterLost(cfg, l)
    ensures var w := Provide(cfg, l.hub);
      var n := Step(cfg, Step(cfg, l, Others(w)), ProviderReports(True));
      && LifeInv(cfg, n) && !n.deleting && n.end.Alive? && n.hub == w
      && Favourable(cfg, Bright(w), PassStart(cfg, Bright(w), n.stored, w))
  {
    hide LifeInv, ServerOk, Rely, Favourable, Completable, Wanted, Provide, Step, ClusterLost, Findable, Bright,
      PassStart;
    var w := Provide(cfg, l.hub);
    ServerIsOk(cfg, l);
    ProvidedKeepsClusters(cfg, l.hub);
    ProvidedIsAllowed(cfg, l.hub);
    OthersStep(cfg, l, w);
    ReportStep(cfg, l.(hub := w));
    ReportLeavesRegistration(cfg, l.(hub := w));
    var n := Step(cfg, Step(cfg, l, Others(w)), ProviderReports(True));
    NotLostIsFindable(cfg, l, St(n.stored.status, w));
    BrightStart(cfg, n.stored, w, w);
    BrightIsFavourable(cfg, St(n.stored.status, w));
  }

  lemma FirstPassLosesNothing(cfg: Config, l: Life)
    requires LifeInv(cfg, l) && !l.deleting && l.end.Alive? && !ClusterLost(cfg, l)
    ensures !ClusterLost(cfg, Step(cfg, l, Reconcile(Dim(l.hub), true)))
  {
    hide LifeInv, Step;
    FirstPassIsRecorded(cfg, l);
    hide Dim;
  }

  /** From any moment of its life before the deletion, a completable instance can still
      become Ready, whatever has failed or got lost and whatever interference within Rely
      there has been, unless somebody has removed its managed cluster after the
      registration was recorded. */
  lemma NeverWedged(cfg: Config, l: Life)
    requires LifeInv(cfg, l) && !l.deleting && l.end.Alive? && Completable(cfg) && !ClusterLost(cfg, l)
    ensures var s := Run(cfg, l, Rescue(cfg, l)).stored; s.Saved? && s.status.phase == ReadyPhase
  {
    hide Step, LifeInv, Favourable, Completable, Provide, Bright, ClusterLost, Dim;
    var a := Reconcile(Dim(l.hub), true);
    var l1 := Step(cfg, l, a);
    FirstPassIsRecorded(cfg, l);
    FirstPassLosesNothing(cfg, l);
    var w := Provide(cfg, l1.hub);
    ProvidedAndReported(cfg, l1);
    var l2 := Step(cfg, l1, Others(w));
    var l3 := Step(cfg, l2, ProviderReports(True));
    var z := Reconcile(Bright(w), true);
    RecordedReady(cfg, l3, Bright(w));
    RunFour(cfg, l, a, Others(w), ProviderReports(True), z);
  }

  lemma RunFour(cfg: Config, l: Life, a: Event, b: Event, c: Event, d: Event)
    ensures Run(cfg, l, [a, b, c, d]) == Step(cfg, Step(cfg, Step(cfg, Step(cfg, l, a), b), c), d)
  {
    hide Step;
    var s := [a, b, c, d];
    assert s[1..] == [b, c, d] && [b, c, d][1..] == [c, d] && [c, d][1..] == [d] && [d][1..] == [];
    var l1 := Step(cfg, l, a);
    var l2 := Step(cfg, l1, b);
    var l3 := Step(cfg, l2, c);
    assert Run(cfg, l3, [d]) == Run(cfg, Step(cfg, l3, d), []);
    assert Run(cfg, l2, [c, d]) == Run(cfg, l3, [d]);
    assert Run(cfg, l1, [b, c, d]) == Run(cfg, l2, [c, d]);
  }

  ghost predicate EverReady(cfg: Config, born: Life, events: seq<Event>) {
    var s := Run(cfg, born, events).stored;
    s.Saved? && s.status.phase == ReadyPhase
  }

  // -------- without its cluster --------

  // Calls that may not register leave no cluster more.
  lemma {:induction false} TraceThins(cfg: Config, may: Powers, w: Server, calls: seq<Call>, n: Server)
    requires may.Passing? && !may.registers && Trace(cfg, may, w, calls, n)
    ensures Thins(MyClusters(cfg.Me(), w.clusters), MyClusters(cfg.Me(), n.clusters))
    decreases |calls|
  {
    if calls != [] {
      var b := calls[0].before;
      var m := Apply(cfg, b, calls[0].change);
      assert m.clusters == b.clusters;
      TraceThins(cfg, may, m, calls[1..], n);
    }
    hide MyClusters, MySecrets, Own, HasOwn, ServerOk, FirstCluster, Target;
  }

  lemma StageThins(cfg: Config, env: Env, st: St, k: nat)
    requires k < STAGE_COUNT && ServerOk(st.hub) && On(st, ManagedClusterCreated)
        && MyClusters(cfg.Me(), st.hub.clusters) == []
    ensures MyClusters(cfg.Me(), Stage(cfg, env, st, k).st.hub.clusters) == []
  {
    assert !PowersAt(st, k).registers;
    hide Stage, StageCalls, ServerOk, Trace, MyClusters, PowersAt;
    StageLeads(cfg, env, st, k);
    TraceThins(cfg, PowersAt(st, k), st.hub, StageCalls(cfg, env, st, k), Stage(cfg, env, st, k).st.hub);
  }

  // What holds of a pass that has lost the cluster, before step k.
  ghost predicate Losing(cfg: Config, st: St, k: nat) {
    && cfg.Registers() && MyClusters(cfg.Me(), st.hub.clusters) == [] && On(st, ManagedClusterCreated)
    && (3 < k ==> On(st, ManagedClusterImported))
  }

  lemma ImportNeedsCluster(cfg: Config, env: Env, st: St)
    requires Losing(cfg, st, 3) && TwoValued(st)
    ensures Stage(cfg, env, st, 3).err == None ==> On(Stage(cfg, env, st, 3).st, ManagedClusterImported)
  {
    hide MyClusters, FirstCluster, OnlyChanges;
    NoneAtCall(cfg, env, st.hub, ListForImport);
    FirstFindsMine(cfg.Me(), Handled(cfg, env, st.hub, ListForImport).clusters);
  }

  lemma ConsoleNeedsCluster(cfg: Config, env: Env, st: St)
    requires Losing(cfg, st, 5)
    ensures Stage(cfg, env, st, 5).err != None
  {
    hide MyClusters, FirstCluster, OnlyChanges;
    NoneAtCall(cfg, env, st.hub, ListForConsole);
    FirstFindsMine(cfg.Me(), Handled(cfg, env, st.hub, ListForConsole).clusters);
  }

  lemma StageLoses(cfg: Config, env: Env, st: St, k: nat)
    requires k <= 5 && StatusInv(st) && HubInv(cfg, st.hub) && Losing(cfg, st, k)
    ensures var r := Stage(cfg, env, st, k);
      && StatusInv(r.st) && HubInv(cfg, r.st.hub)
      && Losing(cfg, r.st, if r.err == None then k + 1 else 0)
      && (r.st.status.phase == ReadyPhase ==> st.status.phase == ReadyPhase)
      && (k == 5 ==> r.err.Some?)
  {
    assert TwoValued(st) && ServerOk(st.hub);
    hide Stage, HubInv, TwoValued, Chain, MyClusters, ServerOk;
    StageSteps(cfg, env, st, k);
    var r := Stage(cfg, env, st, k);
    StepAdvances(cfg, st, r.st, r.err == None, k);
    assert Latched(ManagedClusterCreated) && Latched(ManagedClusterImported);
    assert On(st, ManagedClusterCreated) ==> On(r.st, ManagedClusterCreated);
    assert On(st, ManagedClusterImported) ==> On(r.st, ManagedClusterImported);
    StageEvolves(cfg, env, st, k);
    StageThins(cfg, env, st, k);
    if k == 3 {
      ImportNeedsCluster(cfg, env, st);
    } else if k == 5 {
      ConsoleNeedsCluster(cfg, env, st);
    }
    hide On;
  }

  lemma {:induction false} StagesLose(cfg: Config, env: Env, st: St, k: nat)
    requires k <= 5 && StatusInv(st) && HubInv(cfg, st.hub) && Losing(cfg, st, k)
    ensures var r := Stages(cfg, env, st, k);
      Losing(cfg, r.st, 0) && (r.st.status.phase == ReadyPhase ==> st.status.phase == ReadyPhase)
    decreases 5 - k
  {
    hide Stage, HubInv, StatusInv, Losing;
    StageLoses(cfg, env, st, k);
    LosingAtAll(cfg, Stage(cfg, env, st, k).st, if Stage(cfg, env, st, k).err == None then k + 1 else 0);
    if k < 5 && Stage(cfg, env, st, k).err == None {
      StagesLose(cfg, env, Stage(cfg, env, st, k).st, k + 1);
    }
  }

  lemma LosingAtAll(cfg: Config, st: St, k: nat)
    requires Losing(cfg, st, k)
    ensures Losing(cfg, st, 0)
  {}

  lemma PassLoses(cfg: Config, env: Env, s: Stored, w: Server)
    requires StoredInv(s, w) && HubInv(cfg, w) && StoredBacked(cfg, s, w)
    requires s.Saved? && Losing(cfg, St(s.status, w), 0)
    ensures var r := Pass(cfg, env, s, w);
      Losing(cfg, r.st, 0) && (r.st.status.phase == ReadyPhase ==> s.status.phase == ReadyPhase)
  {
    NoneAtCall(cfg, env, w, GetTemplate);
    StartInv(cfg, env, s, w);
    StartBacked(cfg, env, s, w);
    var st := PassStart(cfg, env, s, w);
    assert Losing(cfg, st, 0) && st.status == s.status;
    hide Stages, HubInv, StatusInv, PassStart, Backed, Grows, StoredInv, MyClusters;
    StagesLose(cfg, env, st, 0);
  }

  ghost predicate IsReady(s: Stored) { s.Saved? && s.status.phase == ReadyPhase }

  lemma StepLoses(cfg: Config, l: Life, e: Event)
    requires LifeInv(cfg, l) && ClusterLost(cfg, l)
    ensures ClusterLost(cfg, Step(cfg, l, e)) && (IsReady(Step(cfg, l, e).stored) ==> IsReady(l.stored))
  {
    if e.Reconcile? && l.end.Alive? && l.deleting {
      CleanupClears(cfg, e.env, l.hub);
      HandledShrinks(cfg, e.env, Cleanup(cfg, e.env, l.hub).0, RemoveFinalizer);
    } else if e.Reconcile? && l.end.Alive? {
      PassLoses(cfg, e.env, l.stored, l.hub);
    }
    hide Pass, Cleanup, At, HubInv, AllGone, RestGone, Chain, TwoValued, Grows, MyClusters, Handled, Backed;
  }

  lemma {:induction false} RunLoses(cfg: Config, l: Life, events: seq<Event>)
    requires LifeInv(cfg, l) && ClusterLost(cfg, l)
    ensures IsReady(Run(cfg, l, events).stored) ==> IsReady(l.stored)
    decreases |events|
  {
    hide LifeInv, Step, ClusterLost, IsReady;
    if events != [] {
      StepKeeps(cfg, l, events[0]);
      StepLoses(cfg, l, events[0]);
      RunLoses(cfg, Step(cfg, l, events[0]), events[1..]);
    }
  }

  /** The registration is never repeated, so a cluster that somebody removes after it was
      recorded wedges the instance for good: at any moment of its life before the deletion,
      a completable instance that is not Ready can still become so exactly when its cluster
      is not lost. */
  lemma BecomesReadyExactlyWhen(cfg: Config, l: Life)
    requires LifeInv(cfg, l) && !l.deleting && l.end.Alive? && Completable(cfg)
    ensures (exists events :: EverReady(cfg, l, events)) <==> IsReady(l.stored) || !ClusterLost(cfg, l)
  {
    hide Run, Completable, LifeInv, ClusterLost, Rescue;
    if IsReady(l.stored) {
      NothingRuns(cfg, l);
      assert EverReady(cfg, l, []);
    } else if !ClusterLost(cfg, l) {
      NeverWedged(cfg, l);
      assert EverReady(cfg, l, Rescue(cfg, l));
    } else {
      forall events ensures !EverReady(cfg, l, events) {
        RunLoses(cfg, l, events);
      }
    }
  }

  lemma NothingRuns(cfg: Config, l: Life)
    ensures Run(cfg, l, []) == l
  {}

  /** An instance can become Ready exactly when its configuration is completable. */
  lemma ReadyIsReachableExactlyWhen(cfg: Config, born: Life)
    requires Newborn(cfg, born)
    ensures (exists events :: EverReady(cfg, born, events)) <==> Completable(cfg)
  {
    hide Run, Completable, Newborn, HubInv;
    if Completable(cfg) {
      NewbornInv(cfg, born);
      assert !born.deleting && born.end.Alive? by {
        NewbornIsAlive(cfg, born);
      }
      assert !ClusterLost(cfg, born) by {
        NewbornIsAlive(cfg, born);
      }
      NeverWedged(cfg, born);
      assert EverReady(cfg, born, Rescue(cfg, born));
    } else {
      forall events ensures !EverReady(cfg, born, events) {
        NeverReady(cfg, born, events);
      }
    }
  }

  lemma NewbornIsAlive(cfg: Config, l: Life)
    requires Newborn(cfg, l)
    ensures !l.deleting && l.end.Alive? && l.stored.Fresh?
  {}
}
