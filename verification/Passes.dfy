/** The order of the steps in a reconcile pass, and what every pass does to the
    recorded status. */
module Passes {
  import opened Conditions
  import opened Hub
  import opened Lifecycle

  const STAGE_COUNT: nat := 10

  function OnError(r: R, p: Phase): (q: R)
    ensures q.err == r.err && q.st.status.conditions == r.st.status.conditions && q.st.hub == r.st.hub
  {
    if r.err == None then r else R(SetPhase(r.st, p), r.err)
  }

  // The steps of reconcile in their order, each with the phase its failure records.
  function Stage(cfg: Config, env: Env, st: St, k: nat): R
    requires k < STAGE_COUNT
  {
    match k
    case 0 =>
      if cfg.secretRef.Some? then ReconcileSecretRef(cfg, env, st)
      else OnError(ReconcileClusterCreate(cfg, env, st), ClusterDefinitionFailedPhase)
    case 1 =>
      if cfg.secretRef.Some? then R(st, None)
      else
        var r := ReconcileClusterStatus(cfg, env, st);
        if r.err == Some(AppNotFound) then r else OnError(r, ClusterInstallFailedPhase)
    case 2 => OnError(ReconcileCreateManagedCluster(cfg, env, st), ManagedClusterFailedPhase)
    case 3 => OnError(ReconcileImportManagedCluster(cfg, env, st), ManagedClusterImportFailedPhase)
    case 4 => OnError(ReconcileCreateKlusterlet(cfg, env, st), KlusterletCreateFailedPhase)
    case 5 => ReconcileConsoleURL(cfg, env, st)
    case 6 =>
      var r := ReconcileAddClusterToArgo(cfg, env, st);
      OnError(r, if r.err == Some(LoginPending) then ClusterLoginPendingPhase else ArgoClusterFailedPhase)
    case 7 => OnError(ReconcileClusterSetupCreate(cfg, env, st), ClusterSetupCreateFailedPhase)
    case 8 => OnError(ReconcileClusterSetup(cfg, env, st), ClusterSetupFailedPhase)
    case _ => OnError(ReconcileClusterCredentials(cfg, env, st), CredentialsFailedPhase)
  }

  // reconcile from step k on: the first failure ends the pass.
  function Stages(cfg: Config, env: Env, st: St, k: nat): R
    requires k <= STAGE_COUNT
    decreases STAGE_COUNT - k, st
  {
    if k == STAGE_COUNT then R(st, None)
    else
      var r := Stage(cfg, env, st, k);
      if r.err.Some? then r else Stages(cfg, env, r.st, k + 1)
  }

  lemma InstallFaults(cfg: Config, env: Env, st: St)
    ensures ReconcileClusterStatus(cfg, env, st).err != Some(Crash)
    ensures ReconcileClusterStatus(cfg, env, st).err != Some(LoginPending)
  {
    hide At, GetClusterStatus, OnlyChanges;
  }

  // Only the registration step can crash, and only the argo step can wait for a login.
  lemma FaultsByStep(cfg: Config, env: Env, st: St, k: nat)
    requires k < STAGE_COUNT
    ensures k != 2 ==> Stage(cfg, env, st, k).err != Some(Crash)
    ensures k != 6 ==> Stage(cfg, env, st, k).err != Some(LoginPending)
  {
    InstallFaults(cfg, env, st);
    hide At, CreateDay1, GetClusterStatus, EnsureImportSecret, EnsureKlusterlet, FinishArgo, CreateDay2, OnlyChanges,
      CreateManagedCluster, CreateClusterSecrets, FirstCluster, AllHealthy, SomeAre, ReconcileClusterStatus, SetC,
      CanExecute;
  }

  // What the server has recorded of the status: nothing before the first write.
  datatype Stored = Fresh | Saved(status: Status)

  // The in-memory status a pass starts from, default conditions included.
  function Begin(s: Stored, now: int): Status {
    match s
    case Fresh => Status(NewBoard(now), PendingPhase, "", false, "", "", [], [], None)
    case Saved(status) => status
  }

  function PassStart(cfg: Config, env: Env, s: Stored, w: Server): St {
    St(Begin(s, env.now), Handled(cfg, env, w, GetTemplate))
  }

  function PassFrom(cfg: Config, env: Env, st: St): R {
    if !Ok(env, GetTemplate) || !env.templateFound then R(SetPhase(st, FailedPhase), Some(Generic))
    else Stages(cfg, env, st, 0)
  }

  /** Reconcile for an instance that is not being deleted. */
  function Pass(cfg: Config, env: Env, s: Stored, w: Server): R {
    PassFrom(cfg, env, PassStart(cfg, env, s, w))
  }

  // -------- the status invariant --------

  predicate On(st: St, t: ConditionType) { Is(st, t, True) }

  // The controller only ever writes True and False.
  ghost predicate TwoValued(st: St) {
    forall t :: Get(st.status.conditions, t).status != Unknown
  }

  ghost predicate Chain(st: St) {
    && (On(st, ClusterSetupSucceeded) ==> On(st, ClusterSetupCreated))
    && (On(st, ClusterSetupCreated) ==> On(st, ArgoClusterAdded))
    && (On(st, ArgoClusterAdded) ==> On(st, ManagedClusterImported))
    && (On(st, ManagedClusterImported) ==> On(st, ManagedClusterCreated))
  }

  ghost predicate StatusInv(st: St) {
    && TwoValued(st) && Chain(st)
    && (st.status.phase == ReadyPhase ==> On(st, ClusterSetupSucceeded))
  }

  predicate Latched(t: ConditionType) {
    t == ClusterDefinitionCreated || t == ManagedClusterCreated || t == ManagedClusterImported
    || t == ArgoClusterAdded || t == ClusterSetupCreated || t == ClusterSetupSucceeded
  }

  // What only ever moves one way.
  ghost predicate Advances(a: St, b: St) {
    && (forall t | Latched(t) && On(a, t) :: On(b, t))
    && (a.status.apiServerURL != "" ==> b.status.apiServerURL == a.status.apiServerURL)
    && (a.status.firstLogin.Some? ==> b.status.firstLogin == a.status.firstLogin)
    && (forall x | x in a.status.setupSecrets :: x in b.status.setupSecrets)
  }

  // What the pass that turns a condition on leaves in the ones that are not latched.
  ghost predicate FirstTimes(a: St, b: St) {
    && (On(b, ManagedClusterCreated) && !On(a, ManagedClusterCreated) ==> On(b, ClusterInstallSucceeded))
    && (On(b, ArgoClusterAdded) && !On(a, ArgoClusterAdded) ==> On(b, KlusterletAddonCreated))
  }

  // What steps 0..k-1 of a pass that began in `a` have established.
  ghost predicate Reached(a: St, b: St, k: nat) {
    && FirstTimes(a, b)
    && (k <= 2 ==> On(a, ManagedClusterCreated) == On(b, ManagedClusterCreated))
    && (k <= 6 ==> On(a, ArgoClusterAdded) == On(b, ArgoClusterAdded))
    && (4 < k && On(b, ManagedClusterImported) ==> On(b, KlusterletAddonCreated))
    && (k == STAGE_COUNT && On(b, ClusterSetupSucceeded) ==> b.status.phase == ReadyPhase)
  }

  lemma {:induction false} AddSecretsKeeps(known: seq<string>, found: seq<string>)
    ensures forall x | x in known :: x in AddSecrets(known, found)
    decreases |found|
  {
    if found != [] {
      AddSecretsKeeps(if found[0] in known then known else known + [found[0]], found[1..]);
    }
  }

  // The one condition that step k may move.
  function Subject(cfg: Config, k: nat): ConditionType {
    match k
    case 0 => if cfg.secretRef.Some? then ClusterInstallSucceeded else ClusterDefinitionCreated
    case 1 => ClusterInstallSucceeded
    case 2 => ManagedClusterCreated
    case 3 => ManagedClusterImported
    case 4 => KlusterletAddonCreated
    case 5 => ConsoleURLRetrieved
    case 6 => ArgoClusterAdded
    case 7 => ClusterSetupCreated
    case _ => ClusterSetupSucceeded
  }

  // The condition that has to hold before step k turns its own on.
  function Before(k: nat): ConditionType {
    match k
    case 2 => ClusterInstallSucceeded
    case 3 => ManagedClusterCreated
    case 6 => ManagedClusterImported
    case 7 => ArgoClusterAdded
    case _ => ClusterSetupCreated
  }

  // All that the later proofs need to know of step k.
  ghost predicate StepFacts(cfg: Config, a: St, b: St, ok: bool, k: nat) {
    var t := Subject(cfg, k);
    if k == 9 then
      && b.status.conditions == a.status.conditions
      && (a.status.apiServerURL != "" ==> b.status.apiServerURL == a.status.apiServerURL)
      && (forall x | x in a.status.setupSecrets :: x in b.status.setupSecrets)
      && b.status.firstLogin == a.status.firstLogin
      && (b.status.phase == ReadyPhase ==> a.status.phase == ReadyPhase || On(a, ClusterSetupSucceeded))
      && (ok && On(a, ClusterSetupSucceeded) ==> b.status.phase == ReadyPhase)
    else
      && OnlyChanges(a, b, t)
      && (Latched(t) && On(a, t) ==> On(b, t))
      && (Latched(t) && t != ClusterDefinitionCreated && On(b, t) && !On(a, t) ==> On(a, Before(k)))
      && (k == 4 && ok && On(a, ManagedClusterImported) ==> On(b, KlusterletAddonCreated))
  }

  lemma DefinitionStep(cfg: Config, env: Env, st: St)
    requires TwoValued(st)
    ensures StepFacts(cfg, st, Stage(cfg, env, st, 0).st, Stage(cfg, env, st, 0).err == None, 0)
  {}

  lemma InstallStep(cfg: Config, env: Env, st: St)
    requires TwoValued(st)
    ensures StepFacts(cfg, st, Stage(cfg, env, st, 1).st, Stage(cfg, env, st, 1).err == None, 1)
  {}

  lemma ManagedClusterStep(cfg: Config, env: Env, st: St)
    requires TwoValued(st)
    ensures StepFacts(cfg, st, Stage(cfg, env, st, 2).st, Stage(cfg, env, st, 2).err == None, 2)
  {}

  lemma ImportStep(cfg: Config, env: Env, st: St)
    requires TwoValued(st)
    ensures StepFacts(cfg, st, Stage(cfg, env, st, 3).st, Stage(cfg, env, st, 3).err == None, 3)
  {}

  lemma KlusterletStep(cfg: Config, env: Env, st: St)
    requires TwoValued(st)
    ensures StepFacts(cfg, st, Stage(cfg, env, st, 4).st, Stage(cfg, env, st, 4).err == None, 4)
  {}

  lemma ConsoleStep(cfg: Config, env: Env, st: St)
    requires TwoValued(st)
    ensures StepFacts(cfg, st, Stage(cfg, env, st, 5).st, Stage(cfg, env, st, 5).err == None, 5)
  {}

  lemma ArgoStep(cfg: Config, env: Env, st: St)
    requires TwoValued(st)
    ensures StepFacts(cfg, st, Stage(cfg, env, st, 6).st, Stage(cfg, env, st, 6).err == None, 6)
  {}

  lemma SetupCreateStep(cfg: Config, env: Env, st: St)
    requires TwoValued(st)
    ensures StepFacts(cfg, st, Stage(cfg, env, st, 7).st, Stage(cfg, env, st, 7).err == None, 7)
  {}

  lemma SetupStep(cfg: Config, env: Env, st: St)
    requires TwoValued(st)
    ensures StepFacts(cfg, st, Stage(cfg, env, st, 8).st, Stage(cfg, env, st, 8).err == None, 8)
  {}

  lemma CredentialsStep(cfg: Config, env: Env, st: St)
    requires TwoValued(st)
    ensures StepFacts(cfg, st, Stage(cfg, env, st, 9).st, Stage(cfg, env, st, 9).err == None, 9)
  {
    AddSecretsKeeps(st.status.setupSecrets, env.setupSecrets);
    var r := ReconcileClusterCredentials(cfg, env, st);
    assert r == if On(st, ClusterSetupSucceeded) then PublishCredentials(cfg, env, st) else R(st, None);
  }

  lemma StageSteps(cfg: Config, env: Env, st: St, k: nat)
    requires TwoValued(st) && k < STAGE_COUNT
    ensures StepFacts(cfg, st, Stage(cfg, env, st, k).st, Stage(cfg, env, st, k).err == None, k)
  {
    match k
    case 0 => DefinitionStep(cfg, env, st);
    case 1 => InstallStep(cfg, env, st);
    case 2 => ManagedClusterStep(cfg, env, st);
    case 3 => ImportStep(cfg, env, st);
    case 4 => KlusterletStep(cfg, env, st);
    case 5 => ConsoleStep(cfg, env, st);
    case 6 => ArgoStep(cfg, env, st);
    case 7 => SetupCreateStep(cfg, env, st);
    case 8 => SetupStep(cfg, env, st);
    case _ => CredentialsStep(cfg, env, st);
  }

  lemma Unmoved(a: St, b: St, t: ConditionType)
    requires t != Ready && OnlyChanges(a, b, t)
    ensures forall u | u != t && u != Ready :: On(b, u) == On(a, u)
    ensures TwoValued(a) ==> TwoValued(b)
  {
    forall u | u != t && u != Ready ensures Get(b.status.conditions, u) == Get(a.status.conditions, u) {
      GetPut(a.status.conditions, t, Get(b.status.conditions, t), u);
    }
    if TwoValued(a) {
      forall u ensures Get(b.status.conditions, u).status != Unknown {
        assert Get(b.status.conditions, Ready) == Get(b.status.conditions, ClusterDefinitionCreated);
      }
    }
  }

  // A step with these facts keeps the invariant and takes nothing back.
  lemma StepAdvances(cfg: Config, a: St, b: St, ok: bool, k: nat)
    requires StatusInv(a) && k < STAGE_COUNT && StepFacts(cfg, a, b, ok, k)
    ensures StatusInv(b) && Advances(a, b)
  {
    if k != 9 {
      Unmoved(a, b, Subject(cfg, k));
      hide On, TwoValued;
      assert Chain(b);
    }
  }

  lemma StepReaches(cfg: Config, a0: St, a: St, b: St, ok: bool, k: nat)
    requires StatusInv(a) && k < STAGE_COUNT && StepFacts(cfg, a, b, ok, k) && Reached(a0, a, k)
    ensures FirstTimes(a0, b) && (ok ==> Reached(a0, b, k + 1))
  {
    if k != 9 {
      Unmoved(a, b, Subject(cfg, k));
      hide On, TwoValued;
    }
  }

  lemma StageGood(cfg: Config, env: Env, a0: St, st: St, k: nat)
    requires StatusInv(st) && k < STAGE_COUNT && Reached(a0, st, k)
    ensures StatusInv(Stage(cfg, env, st, k).st) && Advances(st, Stage(cfg, env, st, k).st)
    ensures FirstTimes(a0, Stage(cfg, env, st, k).st)
    ensures Stage(cfg, env, st, k).err == None ==> Reached(a0, Stage(cfg, env, st, k).st, k + 1)
  {
    var r := Stage(cfg, env, st, k);
    StageSteps(cfg, env, st, k);
    StepAdvances(cfg, st, r.st, r.err == None, k);
    StepReaches(cfg, a0, st, r.st, r.err == None, k);
  }

  lemma {:induction false} StagesAdvance(cfg: Config, env: Env, a0: St, st: St, k: nat)
    requires StatusInv(st) && k <= STAGE_COUNT && Reached(a0, st, k)
    ensures StatusInv(Stages(cfg, env, st, k).st) && Advances(st, Stages(cfg, env, st, k).st)
    ensures FirstTimes(a0, Stages(cfg, env, st, k).st)
    ensures Stages(cfg, env, st, k).err == None ==> Reached(a0, Stages(cfg, env, st, k).st, STAGE_COUNT)
    decreases STAGE_COUNT - k
  {
    hide Stage, On, Is, TwoValued, Chain;
    if k < STAGE_COUNT {
      var r := Stage(cfg, env, st, k);
      StageGood(cfg, env, a0, st, k);
      if r.err == None {
        StagesAdvance(cfg, env, a0, r.st, k + 1);
      }
    }
  }

  // The invariant of what is stored between passes.
  ghost predicate StoredInv(s: Stored, w: Server) {
    s.Saved? ==> StatusInv(St(s.status, w))
  }

  lemma BeginInv(s: Stored, now: int, w: Server)
    requires StoredInv(s, w)
    ensures StatusInv(St(Begin(s, now), w))
  {
    if s.Fresh? {
      forall t ensures Get(Begin(s, now).conditions, t).status == False {}
    }
  }

  ghost predicate PassOutcome(a: St, r: R) {
    && StatusInv(r.st) && Advances(a, r.st) && FirstTimes(a, r.st)
    && (r.err == None ==> (r.st.status.phase == ReadyPhase <==> On(r.st, ClusterSetupSucceeded)))
  }

  lemma StagesOutcome(cfg: Config, env: Env, st: St)
    requires StatusInv(st)
    ensures PassOutcome(st, Stages(cfg, env, st, 0))
  {
    StagesAdvance(cfg, env, st, st, 0);
  }

  lemma FailedOutcome(st: St)
    requires StatusInv(st)
    ensures PassOutcome(st, R(SetPhase(st, FailedPhase), Some(Generic)))
  {}

  /** One reconcile pass over any stored status, under any environment: the chain of
      conditions stays a chain, the six latched conditions, the API server URL, the first
      login time and the published setup secrets are never taken back, the pass that
      first turns ManagedClusterCreated (ArgoClusterAdded) on leaves InstallSucceeded
      (KlusterletAddonCreated) on, Ready is only ever recorded with the setup succeeded,
      and a pass that returns nil records Ready exactly then. */
  lemma PassAdvances(cfg: Config, env: Env, s: Stored, w: Server)
    requires StoredInv(s, w)
    ensures StatusInv(PassStart(cfg, env, s, w))
    ensures PassOutcome(PassStart(cfg, env, s, w), Pass(cfg, env, s, w))
  {
    var st := PassStart(cfg, env, s, w);
    BeginInv(s, env.now, st.hub);
    StagesOutcome(cfg, env, st);
    FailedOutcome(st);
    hide PassOutcome, Stages, PassStart, StatusInv;
  }
}
