/** What a crash of the registration leaves behind: nothing is recorded of it, so the restarted
    operator does it all again, and makes another managed cluster each time. */
module Leaks {
  import opened Conditions
  import opened Hub
  import opened Lifecycle
  import opened Passes
  import opened HubInvariants
  import opened Deletion
  import opened Runs
  import opened Convergence
  import opened Registration
  import opened Forecast
  import opened Removals
  import Addons

  function NewCluster(cfg: Config, env: Env): ManagedCluster {
    ManagedCluster("cluster-" + env.newSuffix, ClusterLabels(cfg))
  }

  // -------- one crash --------

  lemma RegistrationLeaves(cfg: Config, env: Env, st: St)
    requires Undisturbed(env) && ReconcileCreateManagedCluster(cfg, env, st).err == Some(Crash)
    ensures ReconcileCreateManagedCluster(cfg, env, st).st.hub.clusters == st.hub.clusters + [NewCluster(cfg, env)]
    ensures !Matches(cfg.Me(), ClusterLabels(cfg))
  {
    hide Handled, FirstCluster, Undisturbed, ClusterLabels, NameTaken, OnlyChanges, CanExecute, Matches;
    var w, mc := st.hub, NewCluster(cfg, env);
    forall s ensures Handled(cfg, env, w, s) == w
      && Handled(cfg, env, w.(clusters := w.clusters + [mc]), s) == w.(clusters := w.clusters + [mc]) {
      Still(cfg, env, w, s);
      Still(cfg, env, w.(clusters := w.clusters + [mc]), s);
    }
    FirstClusterAppend(cfg.Me(), w.clusters, mc);
  }

  /** A pass that crashes with nobody else at work has added one managed cluster, which is not
      labelled for the instance. */
  lemma CrashLeavesOne(cfg: Config, env: Env, s: Stored, w: Server)
    requires Undisturbed(env) && Pass(cfg, env, s, w).err == Some(Crash)
    ensures Pass(cfg, env, s, w).st.hub.clusters == w.clusters + [NewCluster(cfg, env)]
    ensures !Matches(cfg.Me(), ClusterLabels(cfg))
  {
    hide Stage, Undisturbed, Matches, ClusterLabels, Handled;
    var st := PassStart(cfg, env, s, w);
    Still(cfg, env, w, GetTemplate);
    FirstThree(cfg, env, st);
    var r0 := Stage(cfg, env, st, 0);
    var r1 := Stage(cfg, env, r0.st, 1);
    Addons.FirstSame(cfg, env, st);
    Addons.LaterSame(cfg, env, r0.st, 1);
    RegistrationStage(cfg, env, r1.st);
    RegistrationLeaves(cfg, env, r1.st);
    Addons.RegistrationHub(cfg, env, r1.st);
    CrashEnds(cfg, env, st);
  }

  lemma CrashEnds(cfg: Config, env: Env, st: St)
    requires Stages(cfg, env, st, 0).err == Some(Crash)
    ensures Stages(cfg, env, st, 0) == Stage(cfg, env, Stage(cfg, env, Stage(cfg, env, st, 0).st, 1).st, 2)
  {
    hide Stage;
    FirstThree(cfg, env, st);
    var r1 := Stage(cfg, env, Stage(cfg, env, st, 0).st, 1);
    assert Stages(cfg, env, Stage(cfg, env, st, 0).st, 1) == Stages(cfg, env, r1.st, 2);
  }

  // -------- one after another --------

  // One pass after the other, each trying to record its status.
  function Retries(envs: seq<Env>): seq<Event> {
    if envs == [] then [] else [Reconcile(envs[0], true)] + Retries(envs[1..])
  }

  // Every one of the passes crashes.
  ghost predicate AllCrash(cfg: Config, l: Life, envs: seq<Env>)
    decreases |envs|
  {
    envs != [] ==>
      && Undisturbed(envs[0]) && Pass(cfg, envs[0], l.stored, l.hub).err == Some(Crash)
      && AllCrash(cfg, Step(cfg, l, Reconcile(envs[0], true)), envs[1..])
  }

  lemma CrashStep(cfg: Config, l: Life, env: Env)
    requires l.end.Alive? && !l.deleting && Undisturbed(env) && Pass(cfg, env, l.stored, l.hub).err == Some(Crash)
    ensures Step(cfg, l, Reconcile(env, true)) == l.(hub := Pass(cfg, env, l.stored, l.hub).st.hub)
    ensures Step(cfg, l, Reconcile(env, true)).hub.clusters == l.hub.clusters + [NewCluster(cfg, env)]
    ensures !Matches(cfg.Me(), ClusterLabels(cfg))
  {
    CrashLeavesOne(cfg, env, l.stored, l.hub);
    hide Pass, DeletePass, Undisturbed, Matches, ClusterLabels;
  }

  // The clusters that the passes make, in turn.
  function NewClusters(cfg: Config, envs: seq<Env>): (r: seq<ManagedCluster>)
    ensures |r| == |envs| && forall i | 0 <= i < |r| :: r[i].name == "cluster-" + envs[i].newSuffix
  {
    if envs == [] then [] else [NewCluster(cfg, envs[0])] + NewClusters(cfg, envs[1..])
  }

  /** However often it crashes, nothing is recorded, and there is one managed cluster more for
      every crash, none of them the instance's. */
  lemma {:induction false} CrashesAddUp(cfg: Config, l: Life, envs: seq<Env>)
    requires l.end.Alive? && !l.deleting && AllCrash(cfg, l, envs)
    ensures var n := Run(cfg, l, Retries(envs));
      n == l.(hub := n.hub) && n.hub.clusters == l.hub.clusters + NewClusters(cfg, envs)
    ensures envs != [] ==> MyClusters(cfg.Me(), NewClusters(cfg, envs)) == []
    decreases |envs|
  {
    hide Pass, Step, Undisturbed, Matches, ClusterLabels;
    if envs != [] {
      CrashStep(cfg, l, envs[0]);
      var m, rest := Step(cfg, l, Reconcile(envs[0], true)), envs[1..];
      CrashesAddUp(cfg, m, rest);
      assert Retries(envs)[1..] == Retries(rest);
      assert NewClusters(cfg, envs)[1..] == NewClusters(cfg, rest);
    }
  }

  // -------- and again --------

  // What a pass without failures that begins in `a` has to meet with in order to crash.
  predicate Doomed(cfg: Config, env: Env, a: St) {
    && Gets(cfg, env, a, 2) && WillInstall(cfg, env, a) && !On(a, ManagedClusterCreated) && cfg.Registers()
    && FirstCluster(cfg.Me(), a.hub.clusters) == None && !NameTaken(a.hub.clusters, "cluster-" + env.newSuffix)
    && !Matches(cfg.Me(), ClusterLabels(cfg))
  }

  lemma RegistrationDoomed(cfg: Config, env: Env, a: St, b: St)
    requires Calm(env) && Tracked(cfg, env, a, b, 2) && Gets(cfg, env, a, 2)
    ensures ReconcileCreateManagedCluster(cfg, env, b).err == Some(Crash) <==> Doomed(cfg, env, a)
  {
    assert Forecast.Shows(cfg, env, a, b, 2, 0) && Forecast.Shows(cfg, env, a, b, 2, 1);
    assert Forecast.Shows(cfg, env, a, b, 2, 2);
    GateIs(b, ClusterInstallSucceeded, ManagedClusterCreated);
    CalmRegistration(cfg, env, b.hub);
    FirstClusterAppend(cfg.Me(), b.hub.clusters, NewCluster(cfg, env));
    hide FirstCluster, ClusterLabels, Matches, NameTaken, CreateManagedCluster, OnlyChanges, TwoValued, WillInstall,
      Gets, KubeconfigTracked, AllShow, Conditions.Write;
  }

  lemma OneFurther(cfg: Config, env: Env, a: St, b: St, k: nat)
    requires k <= 1 && Calm(env) && Chain(a) && Backed(cfg, a) && Tracked(cfg, env, a, b, k) && Gets(cfg, env, a, k)
    ensures var r := Stage(cfg, env, b, k);
      && (r.err == None <==> Gets(cfg, env, a, k + 1)) && r.err != Some(Crash)
      && (r.err == None ==> Tracked(cfg, env, a, r.st, k + 1))
  {
    hide Stage, Calm, Chain, Will, GoesOn, Backed, FirstCluster, On, TwoValued, Forecast.Shows, StepFacts, Keeps;
    var r := Stage(cfg, env, b, k);
    StageForetold(cfg, env, a, b, k);
    StageSteps(cfg, env, b, k);
    MarksAfter(cfg, env, a, b, r, k);
    FaultsByStep(cfg, env, b, k);
    if r.err == None {
      GoesOneFurther(cfg, env, a, k);
      FirstHubTracked(cfg, env, a, b, k);
    }
  }

  // The first two steps of a pass without failures, told by where it begins.
  lemma FirstTwo(cfg: Config, env: Env, a: St)
    requires Calm(env) && Chain(a) && Backed(cfg, a) && TwoValued(a)
    ensures var r0 := Stage(cfg, env, a, 0);
      var r1 := Stage(cfg, env, r0.st, 1);
      && (r0.err == None && r1.err == None <==> Gets(cfg, env, a, 2))
      && (r0.err == None && r1.err == None ==> Tracked(cfg, env, a, r1.st, 2))
  {
    TrackedAtStart(cfg, env, a);
    hide Stage, Chain, GoesOn, Backed, Tracked, TwoValued, Calm, Gets;
    NoneYet(cfg, env, a);
    OneFurther(cfg, env, a, a, 0);
    var r0 := Stage(cfg, env, a, 0);
    if r0.err == None {
      OneFurther(cfg, env, a, r0.st, 1);
    }
  }

  lemma NoneYet(cfg: Config, env: Env, a: St)
    ensures Gets(cfg, env, a, 0) && (Gets(cfg, env, a, 2) ==> Gets(cfg, env, a, 1))
  {
    hide GoesOn;
  }

  lemma NotDoomed(cfg: Config, env: Env, a: St)
    requires !Gets(cfg, env, a, 2)
    ensures !Doomed(cfg, env, a)
  {
    hide GoesOn;
  }

  lemma StagesCrashExactlyWhen(cfg: Config, env: Env, a: St)
    requires Calm(env) && Chain(a) && Backed(cfg, a) && TwoValued(a)
    ensures Stages(cfg, env, a, 0).err == Some(Crash) <==> Doomed(cfg, env, a)
  {
    hide Stage, Stages, Calm, Backed, Chain, Tracked, Doomed, TwoValued, Gets, ReconcileCreateManagedCluster;
    FirstTwo(cfg, env, a);
    FirstThree(cfg, env, a);
    var r1 := Stage(cfg, env, Stage(cfg, env, a, 0).st, 1);
    RegistrationStage(cfg, env, r1.st);
    if Gets(cfg, env, a, 2) {
      RegistrationDoomed(cfg, env, a, r1.st);
    } else {
      NotDoomed(cfg, env, a);
    }
  }

  /** A pass without failures crashes exactly when the cluster is installed, its registration
      not yet recorded, no cluster of the instance there, the made-up name free, and the
      template's labels override the instance's. */
  lemma CalmPassCrashesExactlyWhen(cfg: Config, env: Env, s: Stored, w: Server)
    requires StoredInv(s, w) && HubInv(cfg, w) && StoredBacked(cfg, s, w) && Calm(env)
    ensures Pass(cfg, env, s, w).err == Some(Crash) <==>
        env.templateFound && Doomed(cfg, env, PassStart(cfg, env, s, w))
  {
    hide Stages, PassStart, HubInv, Backed, StoredInv, Chain, Doomed, TwoValued;
    StartInv(cfg, env, s, w);
    StartBacked(cfg, env, s, w);
    StagesCrashExactlyWhen(cfg, env, PassStart(cfg, env, s, w));
  }

  // What the registration needs of the server, apart from the clusters.
  lemma GetsSame(cfg: Config, env: Env, x: string, a: St, b: St)
    requires b.status == a.status && b.hub.appSets.Keys == a.hub.appSets.Keys
    ensures Gets(cfg, env.(newSuffix := x), b, 2) == Gets(cfg, env, a, 2)
    ensures WillInstall(cfg, env.(newSuffix := x), b) == WillInstall(cfg, env, a)
  {
    var e := env.(newSuffix := x);
    assert GoesOn(cfg, e, b, 0) == GoesOn(cfg, env, a, 0) && GoesOn(cfg, e, b, 1) == GoesOn(cfg, env, a, 1);
    hide GoesOn, WillInstall;
    assert Gets(cfg, env, a, 2) <==> GoesOn(cfg, env, a, 0) && GoesOn(cfg, env, a, 1);
    assert Gets(cfg, e, b, 2) <==> GoesOn(cfg, e, b, 0) && GoesOn(cfg, e, b, 1);
  }

  lemma CrashKeepsSets(cfg: Config, env: Env, s: Stored, w: Server)
    requires StoredInv(s, w) && HubInv(cfg, w) && StoredBacked(cfg, s, w) && Calm(env)
    requires Pass(cfg, env, s, w).err == Some(Crash)
    ensures Pass(cfg, env, s, w).st.hub.appSets.Keys == w.appSets.Keys
  {
    var a := PassStart(cfg, env, s, w);
    StartInv(cfg, env, s, w);
    StartBacked(cfg, env, s, w);
    FirstTwo(cfg, env, a);
    hide Stage, Stages, PassStart, HubInv, Backed, StoredInv, Chain, GoesOn, On, TwoValued;
    FirstThree(cfg, env, a);
    var r1 := Stage(cfg, env, Stage(cfg, env, a, 0).st, 1);
    CalmClusterStep(cfg, env, r1.st);
    CrashEnds(cfg, env, a);
    StartsHere(cfg, env, s, w);
  }

  lemma StartsHere(cfg: Config, env: Env, s: Stored, w: Server)
    requires Calm(env)
    ensures PassStart(cfg, env, s, w) == St(Begin(s, env.now), w)
  {}

  /** And it will crash again: the next pass that reads the same does, under whatever name the
      server makes up for the next cluster. */
  lemma CrashesAgain(cfg: Config, env: Env, s: Stored, w: Server, x: string)
    requires StoredInv(s, w) && HubInv(cfg, w) && StoredBacked(cfg, s, w) && Calm(env)
    requires Pass(cfg, env, s, w).err == Some(Crash)
    requires !NameTaken(Pass(cfg, env, s, w).st.hub.clusters, "cluster-" + x)
    ensures Pass(cfg, env.(newSuffix := x), s, Pass(cfg, env, s, w).st.hub).err == Some(Crash)
  {
    var n, e := Pass(cfg, env, s, w).st.hub, env.(newSuffix := x);
    assert Undisturbed(env) && Calm(e);
    PassKeepsHub(cfg, env, s, w);
    StoredAnywhere(s, w, n);
    CrashLeavesOne(cfg, env, s, w);
    CrashKeepsSets(cfg, env, s, w);
    StartsHere(cfg, env, s, w);
    StartsHere(cfg, e, s, n);
    FirstClusterAppend(cfg.Me(), w.clusters, NewCluster(cfg, env));
    GetsSame(cfg, env, x, PassStart(cfg, env, s, w), PassStart(cfg, e, s, n));
    hide Pass, PassStart, StoredInv, HubInv, StoredBacked, Calm, FirstCluster, NameTaken, Matches, ClusterLabels, Gets,
      WillInstall;
    CalmPassCrashesExactlyWhen(cfg, env, s, w);
    CalmPassCrashesExactlyWhen(cfg, e, s, n);
  }

  // The same reads, with a new name for every pass.
  function Renamed(env: Env, names: seq<string>): (r: seq<Env>)
    ensures |r| == |names|
  {
    if names == [] then [] else [env.(newSuffix := names[0])] + Renamed(env, names[1..])
  }

  predicate NewNames(w: Server, names: seq<string>) {
    && (forall i | 0 <= i < |names| :: !NameTaken(w.clusters, "cluster-" + names[i]))
    && (forall i, j | 0 <= i < j < |names| :: names[i] != names[j])
  }

  lemma RestStaysNew(cfg: Config, w: Server, names: seq<string>, mc: ManagedCluster)
    requires names != [] && NewNames(w, names) && mc.name == "cluster-" + names[0]
    ensures NewNames(w.(clusters := w.clusters + [mc]), names[1..])
  {
    var n, rest := w.(clusters := w.clusters + [mc]), names[1..];
    forall i | 0 <= i < |rest| ensures !NameTaken(n.clusters, "cluster-" + rest[i]) {
      assert rest[i] == names[i + 1] && ("cluster-" + names[0])[8..] == names[0];
      assert ("cluster-" + rest[i])[8..] == rest[i];
    }
  }

  /** Once a pass has crashed with no call failing, the operator that is restarted on what it
      has recorded crashes on every further pass that reads the same; so with CrashesAddUp,
      each of them leaves one more managed cluster. */
  lemma {:induction false} CrashesForever(cfg: Config, l: Life, env: Env, names: seq<string>)
    requires LifeInv(cfg, l) && l.end.Alive? && !l.deleting && Calm(env) && names != [] && NewNames(l.hub, names)
    requires Pass(cfg, env.(newSuffix := names[0]), l.stored, l.hub).err == Some(Crash)
    ensures AllCrash(cfg, l, Renamed(env, names))
    decreases |names|
  {
    var e, rest := env.(newSuffix := names[0]), names[1..];
    assert Calm(e) && Undisturbed(e);
    assert rest != [] ==> e.(newSuffix := rest[0]) == env.(newSuffix := rest[0]);
    assert StoredInv(l.stored, l.hub) && HubInv(cfg, l.hub) && StoredBacked(cfg, l.stored, l.hub);
    hide Pass, Step, Calm, Undisturbed, LifeInv, StoredInv, HubInv, StoredBacked, NewNames, NameTaken;
    assert Renamed(env, names)[0] == e && Renamed(env, names)[1..] == Renamed(env, rest);
    var m := Step(cfg, l, Reconcile(e, true));
    CrashStep(cfg, l, e);
    if rest != [] {
      StepKeeps(cfg, l, Reconcile(e, true));
      RestStaysNew(cfg, l.hub, names, NewCluster(cfg, e));
      NamesOnly(l.hub.(clusters := l.hub.clusters + [NewCluster(cfg, e)]), m.hub, rest);
      CrashesAgain(cfg, e, l.stored, l.hub, rest[0]);
      CrashesForever(cfg, m, env, rest);
    }
  }

  lemma NamesOnly(a: Server, b: Server, names: seq<string>)
    requires NewNames(a, names) && a.clusters == b.clusters
    ensures NewNames(b, names) && (names != [] ==> !NameTaken(b.clusters, "cluster-" + names[0]))
  {}
}
