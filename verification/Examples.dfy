/** One concrete input for each way of going wrong that other modules give the condition of.

    They are as small as can be: one instance, and next to nothing else on the server. */
module Examples {
  import opened Generators
  import opened Conditions
  import opened Hub
  import opened Lifecycle
  import opened Passes
  import opened HubInvariants
  import opened Deletion
  import opened Runs
  import opened Registration
  import opened Convergence
  import opened Release
  import opened Causes
  import opened Forecast
  import opened Remains
  import Liveness

  const ME := Key("app", "team")

  function Bare(rv: nat, kubeconfigs: map<Key, string>): Server {
    Server(rv, map[], [], [], kubeconfigs, map[], {}, {})
  }

  const EMPTY: Server := Bare(0, map[])

  // Every call is answered; nobody else does anything, but if `removes` says so then the
  // managed clusters are gone by the time the new one is looked up.
  function Answers(templateFound: bool, removes: bool): Env {
    var gone := Bare(1, map[ME := "https://api"]);
    Env((s: Site) => Reply(Served, if removes && s == ListAfterCreate then Some(gone) else None),
        0, 0, templateFound, [], Liveness.INSTALLED_VIEW, Some(("https://api", "")), "x", [], [], true, [], [],
        [CTI_FINALIZER])
  }

  lemma AnswersAtOnce(cfg: Config, templateFound: bool, removes: bool, w: Server, s: Site)
    requires removes ==> s != ListAfterCreate
    ensures Handled(cfg, Answers(templateFound, removes), w, s) == w && Ok(Answers(templateFound, removes), s)
  {
    hide Rely;
  }

  // -------- the nil dereference --------

  // An instance for a cluster that exists already and is to be registered.
  function Registering(labels: map<LabelKey, string>): Config {
    Config(Instance(ME, "uid", []), Some("creds"), false, true, false, false, "cluster", [], labels, false, 0)
  }

  lemma SecretsCopied(cfg: Config, removes: bool)
    requires cfg.Me() == ME
    ensures CreateClusterSecrets(cfg, Answers(true, removes), EMPTY, "https://api", "") ==
        (Bare(0, map[ME := "https://api"]), true)
  {
    AnswersAtOnce(cfg, true, removes, EMPTY, GetOwnKubeconfig);
    AnswersAtOnce(cfg, true, removes, EMPTY, CreateOwnKubeconfig);
    hide Handled, Ok, Answers;
    assert Done(Answers(true, removes), CreateOwnKubeconfig) by {
      assert Ok(Answers(true, removes), CreateOwnKubeconfig);
    }
  }

  lemma StartsAtOnce(cfg: Config, removes: bool, w: Server)
    ensures PassStart(cfg, Answers(true, removes), Passes.Fresh, w) == St(Begin(Passes.Fresh, 0), w)
  {
    hide Handled;
    AnswersAtOnce(cfg, true, removes, w, GetTemplate);
  }

  lemma SecretRefStage(labels: map<LabelKey, string>, removes: bool, st: St)
    requires st.hub == EMPTY && Is(st, ManagedClusterCreated, False)
    ensures var r := Stage(Registering(labels), Answers(true, removes), st, 0);
      && r.err == None && r.st.hub == Bare(0, map[ME := "https://api"])
      && Gate(r.st, ClusterInstallSucceeded, Some(ManagedClusterCreated))
  {
    hide Handled, Ok, OnlyChanges, CreateClusterSecrets;
    AnswersAtOnce(Registering(labels), true, removes, EMPTY, GetSecretRef);
    SecretsCopied(Registering(labels), removes);
  }

  // Its first pass gets as far as the registration.
  lemma GetsToRegistration(labels: map<LabelKey, string>, removes: bool)
    ensures var at := AtRegistration(Registering(labels), Answers(true, removes), Passes.Fresh, EMPTY);
      && at.Some? && at.value.hub == Bare(0, map[ME := "https://api"])
      && Gate(at.value, ClusterInstallSucceeded, Some(ManagedClusterCreated))
  {
    hide Handled, PassStart, ReconcileSecretRef, ReconcileClusterCreate, ReconcileClusterStatus, OnlyChanges, Gate;
    var cfg, env := Registering(labels), Answers(true, removes);
    StartsAtOnce(cfg, removes, EMPTY);
    var st := PassStart(cfg, env, Passes.Fresh, EMPTY);
    SecretRefStage(labels, removes, st);
    SecondDoesNothing(cfg, env, Stage(cfg, env, st, 0).st);
    hide Stage;
  }

  lemma SecondDoesNothing(cfg: Config, env: Env, st: St)
    requires cfg.secretRef.Some?
    ensures Stage(cfg, env, st, 1) == R(st, None)
  {}

  lemma ClusterIsMade(cfg: Config, removes: bool, w: Server)
    requires w.clusters == []
    ensures CreateManagedCluster(cfg, Answers(true, removes), w) ==
        (w.(clusters := [ManagedCluster("cluster-" + "x", ClusterLabels(cfg))]), true)
  {
    var env, mc := Answers(true, removes), ManagedCluster("cluster-" + "x", ClusterLabels(cfg));
    AnswersAtOnce(cfg, true, removes, w, ListBeforeCreate);
    AnswersAtOnce(cfg, true, removes, w, CreateCluster);
    assert env.newSuffix == "x" && FirstCluster(cfg.Me(), []) == None && !NameTaken([], mc.name);
    assert Ok(env, CreateCluster) && Done(env, CreateCluster);
    assert [] + [mc] == [mc];
    hide Handled, Ok, Done, Answers, FirstCluster, NameTaken, ClusterLabels;
  }

  // There a cluster is made, and if the environment says so it is gone right after.
  lemma RegistrationCrashes(labels: map<LabelKey, string>, removes: bool, st: St)
    requires st.hub == Bare(0, map[ME := "https://api"])
        && Gate(st, ClusterInstallSucceeded, Some(ManagedClusterCreated))
    requires !LabelsKept(Registering(labels)) || removes
    ensures Crashes(Registering(labels), Answers(true, removes), st)
  {
    var cfg, env := Registering(labels), Answers(true, removes);
    ClusterIsMade(cfg, removes, st.hub);
    AnswersAtOnce(cfg, true, removes, st.hub, ListBeforeCreate);
    assert Ok(env, ListAfterCreate) && MyClusters(ME, []) == [];
    if LabelsKept(cfg) {
      RemovedAfterwards(cfg, CreateManagedCluster(cfg, env, st.hub).0);
    }
    hide Handled, Ok, Answers, Gate, CreateManagedCluster, RemovedBy, LabelsKept, MyClusters;
  }

  lemma RemovedAfterwards(cfg: Config, w: Server)
    requires cfg.Me() == ME && LabelsKept(cfg)
    requires w == Bare(0, map[ME := "https://api"]).(clusters := [ManagedCluster("cluster-" + "x", ClusterLabels(cfg))])
    ensures RemovedBy(cfg, Answers(true, true), w, ListAfterCreate)
  {
    hide Rely, Answers, Handled, ClusterLabels, Matches, LabelsKept, MyClusters;
    GoneByThen(cfg, w, w.clusters[0]);
    LabelledExactlyWhenKept(cfg);
    NoneIsMine();
    NewIsMine(ME, [], w.clusters[0]);
    assert [] + [w.clusters[0]] == w.clusters;
  }

  lemma NoneIsMine()
    ensures MyClusters(ME, []) == []
  {}

  lemma GoneByThen(cfg: Config, w: Server, mc: ManagedCluster)
    requires cfg.Me() == ME && w == Bare(0, map[ME := "https://api"]).(clusters := [mc])
    ensures Handled(cfg, Answers(true, true), w, ListAfterCreate) == Bare(1, map[ME := "https://api"])
  {
    hide Rely;
    RemovalIsAllowed(w, mc);
  }

  lemma RemovalIsAllowed(w: Server, mc: ManagedCluster)
    requires w == Bare(0, map[ME := "https://api"]).(clusters := [mc])
    ensures Rely(ME, w, Bare(1, map[ME := "https://api"]))
  {}

  lemma CrashesIn(labels: map<LabelKey, string>, removes: bool)
    requires !LabelsKept(Registering(labels)) || removes
    ensures Pass(Registering(labels), Answers(true, removes), Passes.Fresh, EMPTY).err == Some(Crash)
  {
    var cfg, env := Registering(labels), Answers(true, removes);
    assert StoredInv(Passes.Fresh, EMPTY) && HubInv(cfg, EMPTY) && StoredBacked(cfg, Passes.Fresh, EMPTY);
    hide Answers, AtRegistration, Pass, LabelsKept, Crashes, Gate, HubInv, StoredInv, StoredBacked;
    GetsToRegistration(labels, removes);
    var at := AtRegistration(cfg, env, Passes.Fresh, EMPTY);
    RegistrationCrashes(labels, removes, at.value);
    PassCrashesExactlyWhen(cfg, env, Passes.Fresh, EMPTY);
  }

  /** A template whose labels name another instance, and a cluster that somebody removes
      between its creation and its look-up: both crash the very first pass. */
  lemma BothCrash()
    ensures Pass(Registering(map[CTIName := "other"]), Answers(true, false), Passes.Fresh, EMPTY).err == Some(Crash)
    ensures Pass(Registering(map[]), Answers(true, true), Passes.Fresh, EMPTY).err == Some(Crash)
  {
    assert "other" != "app" by { assert |"other"| != |"app"|; }
    assert !LabelsKept(Registering(map[CTIName := "other"]));
    hide Pass, Answers, LabelsKept;
    CrashesIn(map[CTIName := "other"], false);
    CrashesIn(map[], true);
  }

  // -------- the template that goes first --------

  const WANTED: Config := Config(Instance(ME, "uid", []), None, false, false, false, false, "cluster", [], map[],
      false, 0)

  const OFFERED: Server := EMPTY.(appSets := map["cluster" := AppSet(0, Template([], "", []), [])])

  lemma AnswersCalmly(templateFound: bool)
    ensures Calm(Answers(templateFound, false))
  {}

  lemma FirstPassJoins()
    ensures !NotIn(WANTED, Pass(WANTED, Answers(true, false), Passes.Fresh, OFFERED).st.hub, "cluster")
    ensures Pass(WANTED, Answers(true, false), Passes.Fresh, OFFERED).err == Some(AppNotFound)
  {
    var env := Answers(true, false);
    var st := PassStart(WANTED, env, Passes.Fresh, OFFERED);
    AnswersAtOnce(WANTED, true, false, OFFERED, GetTemplate);
    AnswersCalmly(true);
    assert env.templateFound && env.day1 == [];
    StageZeroJoins(env, st);
    StageOneEnds(env, Stage(WANTED, env, st, 0).st);
    hide Handled, Ok, Answers, Stage, NotIn;
  }

  lemma StageZeroJoins(env: Env, st: St)
    requires Calm(env) && st.hub == OFFERED && Is(st, ClusterDefinitionCreated, False)
    ensures var r := Stage(WANTED, env, st, 0);
      r.err == None && On(r.st, ClusterDefinitionCreated) && !NotIn(WANTED, r.st.hub, "cluster")
  {
    DefinitionExactlyWhen(WANTED, env, st);
    hide NotIn, OnlyChanges, CreateDay1;
  }

  lemma StageOneEnds(env: Env, st: St)
    requires Calm(env) && env.day1 == [] && On(st, ClusterDefinitionCreated)
    ensures Stage(WANTED, env, st, 1) == R(st, Some(AppNotFound))
  {
    hide OnlyChanges, Rely;
  }

  /** An instance that has joined its definition and is deleted after its template: nothing
      fails, the finalizer goes, and the generator is still there. */
  lemma LeftBehind()
    ensures var events := [Reconcile(Answers(true, false), true), DeletionRequested]
        + [Reconcile(Answers(false, false), true)];
      var born := Life(Passes.Fresh, OFFERED, false, Alive);
      && Newborn(WANTED, born)
      && Run(WANTED, born, events).end == Released(false)
      && !Unlisted(WANTED, Run(WANTED, born, events).hub)
  {
    var born, before := Life(Passes.Fresh, OFFERED, false, Alive),
      [Reconcile(Answers(true, false), true), DeletionRequested];
    assert Newborn(WANTED, born);
    AnswersCalmly(false);
    assert Answers(false, false).finalizers == [CTI_FINALIZER] && !Answers(false, false).templateFound;
    JoinedThenDeleted(born, before);
    hide Run, Pass, Answers, Newborn, Unlisted, Calm;
    AnswersSpare(before);
    ListedAtReleaseExactlyWhen(WANTED, born, before, Answers(false, false), true);
  }

  lemma AnswersSpare(before: seq<Event>)
    ensures Spared(WANTED, Answers(false, false), Run(WANTED, Life(Passes.Fresh, OFFERED, false, Alive), before).hub)
  {
    hide Run, Listed;
  }

  lemma JoinedThenDeleted(born: Life, before: seq<Event>)
    requires born == Life(Passes.Fresh, OFFERED, false, Alive)
        && before == [Reconcile(Answers(true, false), true), DeletionRequested]
    ensures var l := Run(WANTED, born, before); l.deleting && l.end.Alive? && !Unlisted(WANTED, l.hub)
  {
    hide Run, Pass, Answers, NotIn;
    TwoSteps(WANTED, born, before[0], before[1]);
    FirstPassJoins();
    assert !NotIn(WANTED, Run(WANTED, born, before).hub, "cluster");
  }

  lemma TwoSteps(cfg: Config, l: Life, a: Event, b: Event)
    ensures Run(cfg, l, [a, b]) == Step(cfg, Step(cfg, l, a), b)
  {
    assert [a, b][1..] == [b];
    OneMore(cfg, Step(cfg, l, a), b);
    hide Step;
  }

  // -------- the argo secret of somebody else --------

  const BORROWING: Config := Config(Instance(ME, "uid", []), Some("creds"), false, false, false, false, "cluster", [],
      map[], false, 0)

  // A secret of the name that the instance's own is to get, which is not labelled for it.
  const TAKEN: Server := EMPTY.(argoSecrets := [ArgoSecret("creds", None)])

  // Every step is foretold to go on.
  lemma AllGoOn(a: St)
    ensures Gets(BORROWING, Answers(true, false), a, STAGE_COUNT)
    ensures Will(BORROWING, Answers(true, false), a, 6) && WillSucceed(BORROWING, Answers(true, false), a)
  {
    var env := Answers(true, false);
    assert env.secretRefData.Some? && env.login;
    hide Answers, On;
  }

  lemma BecomesReadyBare()
    ensures var r := Pass(BORROWING, Answers(true, false), Passes.Fresh, TAKEN);
      r.err == None && r.st.status.phase == ReadyPhase && On(r.st, ArgoClusterAdded)
  {
    hide Pass, Answers, Calm, Will, WillSucceed, Gets, On;
    var env := Answers(true, false);
    AnswersCalmly(true);
    TakenIsFine();
    CalmPassRecords(BORROWING, env, Passes.Fresh, TAKEN);
    var a, r := PassStart(BORROWING, env, Passes.Fresh, TAKEN), Pass(BORROWING, env, Passes.Fresh, TAKEN);
    AllGoOn(a);
    assert Records(BORROWING, env, a, r.st, 6);
    GetsSoFar(BORROWING, env, a, 6);
  }

  lemma GetsSoFar(cfg: Config, env: Env, a: St, k: nat)
    requires k <= STAGE_COUNT && Gets(cfg, env, a, STAGE_COUNT)
    ensures Gets(cfg, env, a, k)
  {
    hide GoesOn;
  }

  lemma TakenIsFine()
    ensures Newborn(BORROWING, Life(Passes.Fresh, TAKEN, false, Alive))
    ensures StoredInv(Passes.Fresh, TAKEN) && HubInv(BORROWING, TAKEN) && StoredBacked(BORROWING, Passes.Fresh, TAKEN)
    ensures Answers(true, false).templateFound
  {}

  /** An instance whose argo secret's name is taken: nothing fails, it is Ready after one
      pass, and for all its life it has no argo secret of its own. */
  lemma ReadyWithoutOwnSecret()
    ensures var born := Life(Passes.Fresh, TAKEN, false, Alive);
      var l := Step(BORROWING, born, Reconcile(Answers(true, false), true));
      && Newborn(BORROWING, born)
      && l.stored.Saved? && l.stored.status.phase == ReadyPhase
      && NeverOwns(BORROWING, l)
  {
    hide Pass, Answers, Calm, NeverOwns, Newborn, LifeInv, NoSecrets, SecretNamed;
    var env, born := Answers(true, false), Life(Passes.Fresh, TAKEN, false, Alive);
    TakenIsFine();
    NewbornInv(BORROWING, born);
    AnswersCalmly(true);
    BecomesReadyBare();
    AnswersAtOnce(BORROWING, true, false, TAKEN, GetTemplate);
    LookedUpAsItIs(PassStart(BORROWING, env, Passes.Fresh, TAKEN), 0);
    NeverOwnsSecretExactlyWhen(BORROWING, born, env);
    NameIsTaken();
  }

  lemma NameIsTaken()
    ensures NoSecrets(BORROWING, TAKEN) && SecretNamed(TAKEN.argoSecrets, "creds")
  {
    assert TAKEN.argoSecrets[0].name == "creds" && MySecrets(ME, TAKEN.argoSecrets[1..]) == [];
  }

  // Up to the look-up of the argo secret the pass leaves the argo secrets alone.
  lemma {:induction false} LookedUpAsItIs(st: St, k: nat)
    requires k <= 6
    ensures PassLookup(BORROWING, Answers(true, false), st, k).argoSecrets == st.hub.argoSecrets
    decreases 6 - k
  {
    hide Stage, Handled, Answers;
    if k < 6 {
      StepLeavesSecrets(st, k);
      LookedUpAsItIs(Stage(BORROWING, Answers(true, false), st, k).st, k + 1);
    } else {
      AnswersAtOnce(BORROWING, true, false, st.hub, GetKubeconfigForArgo);
      AnswersAtOnce(BORROWING, true, false, st.hub, PrepareNewCluster);
      AnswersAtOnce(BORROWING, true, false, st.hub, GetArgoSecret);
    }
  }

  lemma StepLeavesSecrets(st: St, k: nat)
    requires k < 6
    ensures Stage(BORROWING, Answers(true, false), st, k).st.hub.argoSecrets == st.hub.argoSecrets
  {
    hide OnlyChanges, Handled, Answers, CreateClusterSecrets;
    if k == 0 {
      AnswersAtOnce(BORROWING, true, false, st.hub, GetSecretRef);
      var copied := Answers(true, false).secretRefData;
      if copied.Some? {
        AnswersCalmly(true);
        CalmSecrets(BORROWING, Answers(true, false), st.hub, copied.value.0, copied.value.1);
      }
    }
  }
}
